/** `handle_accepted_connection` and `run_tls_server` of Chapter09/tls-server.c
    as imperative code over the state they change: OpenSSL's error queue, the
    input buffer and everything observable the program does, recorded in order.

    Each method is proved to do exactly what the matching state machine
    (`Connection.Handle`, `Server.Serve`) does; the properties of the machines
    are proved in their own modules. */
module Runtime {
  import opened Collaborators
  import Connection
  import Server

  /** The lines of a script fit the input buffer with their terminating NUL:
      the model leaves out `BIO_get_line`'s truncation of longer lines. */
  predicate LinesFit(c: ConnScript) {
    forall i :: 0 <= i < |c.incoming| ==> c.incoming[i].Got? ==> |c.incoming[i].line| < Connection.BufSize
  }

  predicate AllLinesFit(s: ServerScript) {
    forall k :: 0 <= k < |s.accepts| ==> s.accepts[k].Accepted? ==> LinesFit(s.accepts[k].conn)
  }

  /** `strcmp` sees only what the read put in the buffer: whatever follows
      the NUL written after the line is never looked at. */
  lemma {:induction false} CStringOfBuffer(line: seq<char>, rest: seq<char>)
    ensures Connection.CString(line + ['\0'] + rest) == Connection.CString(line)
  {
    var b := line + ['\0'] + rest;
    if line == [] {
      assert b[0] == '\0';
    } else {
      assert b[0] == line[0];
      if line[0] != '\0' {
        assert b[1..] == line[1..] + ['\0'] + rest;
        CStringOfBuffer(line[1..], rest);
      }
    }
  }

  class TlsRuntime {
    /** OpenSSL's error queue, oldest record first. */
    var errorQueue: seq<ErrorRecord>
    /** What the program has done so far, in order. */
    var trace: seq<Event>

    /** The process state when `run_tls_server` or the handler is entered:
        records may be pending, nothing has happened yet. */
    constructor (pending: seq<ErrorRecord>)
      ensures errorQueue == pending && trace == []
    {
      errorQueue := pending;
      trace := [];
    }

    /** `ERR_peek_error`: the oldest pending record, or 0. */
    function ErrPeekError(): (code: nat)
      reads this
      ensures code == 0 <==> errorQueue == []
      ensures errorQueue != [] ==> code == errorQueue[0]
    {
      if errorQueue == [] then 0 else errorQueue[0]
    }

    /** `ERR_clear_error`. */
    method ErrClearError()
      modifies this
      ensures errorQueue == [] && trace == old(trace)
    {
      errorQueue := [];
    }

    /** A collaborator call that does `e` and leaves `errs` on the queue. */
    method Perform(e: Event, errs: seq<ErrorRecord>)
      modifies this
      ensures trace == old(trace) + [e] && errorQueue == old(errorQueue) + errs
    {
      trace := trace + [e];
      errorQueue := errorQueue + errs;
    }

    /** A call whose `int` result is checked with `err <= 0`. */
    method Invoke(e: Event, call: Call) returns (ok: bool)
      modifies this
      ensures ok == call.ok
      ensures trace == old(trace) + [e] && errorQueue == old(errorQueue) + call.errs
    {
      Perform(e, call.errs);
      ok := call.ok;
    }

    /** `if (error_stream) fprintf(error_stream, ...)`. */
    method Report(errorStream: bool, d: Diagnostic)
      modifies this
      ensures trace == old(trace) + Diagnose(errorStream, d) && errorQueue == old(errorQueue)
    {
      if errorStream {
        trace := trace + [Diag(d)];
      }
    }

    /** `if (ERR_peek_error()) { if (error_stream) { ... ERR_print_errors_fp
        ... } ERR_clear_error(); }`: whether it found records. */
    method DrainErrorQueue(errorStream: bool) returns (hadErrors: bool)
      modifies this
      ensures hadErrors <==> old(errorQueue) != []
      ensures trace == old(trace) + DrainQueue(errorStream, old(errorQueue)) && errorQueue == []
    {
      hadErrors := ErrPeekError() != 0;
      if hadErrors {
        if errorStream {
          trace := trace + [Diag(QueueDump(errorQueue))];
        }
        ErrClearError();
      }
    }

    /** `BIO_get_line(ssl_bio, in_buf, BUF_SIZE)` on the read `r`: a line is
        copied into the buffer and NUL-terminated; the result is its length,
        or 0 when the read ended. */
    method GetLine(r: ReadResult, buf: array<char>) returns (nbytesRead: int)
      requires r.Got? ==> |r.line| < buf.Length
      modifies this, buf
      ensures nbytesRead > 0 <==> r.Got?
      ensures r.Got? ==> nbytesRead == |r.line| && buf[..nbytesRead] == r.line && buf[nbytesRead] == '\0'
      ensures !r.Got? ==> buf[..] == old(buf[..])
      ensures trace == old(trace) + [ReadLine] && errorQueue == old(errorQueue) + r.errs
    {
      Perform(ReadLine, r.errs);
      if r.Ended? {
        return 0;
      }
      var line := r.line;
      var j := 0;
      while j < |line|
        invariant j <= |line|
        modifies buf
        invariant buf[..j] == line[..j]
      {
        buf[j] := line[j];
        j := j + 1;
      }
      buf[j] := '\0';
      assert buf[..j] == line[..j];
      nbytesRead := |line|;
    }

    /** One iteration of the read loop on the read `r`: `BIO_get_line`, then
        the echo and the terminator test, or the test of `SSL_get_error`.
        `stop` says that the loop ends after it, `failed` that it ends the
        handler with a read error. */
    method ReadOneLine(r: ReadResult, errorStream: bool, inBuf: array<char>) returns (stop: bool, failed: bool)
      requires r.Got? ==> |r.line| < inBuf.Length
      modifies this, inBuf
      ensures stop <==> r.Ended? || Connection.IsTerminator(r.line)
      ensures failed <==> r.Ended? && r.code != SslErrorZeroReturn
      ensures trace == old(trace) + Connection.ReadOne(errorStream, r) && errorQueue == old(errorQueue) + r.errs
    {
      ghost var before := trace;
      var nbytesRead := GetLine(r, inBuf);
      if nbytesRead <= 0 {
        var sslError := r.code;
        stop := true;
        if sslError == SslErrorZeroReturn {
          return stop, false;
        }
        Report(errorStream, ReadError(sslError));
        return stop, true;
      }
      // fwrite(in_buf, 1, nbytes_read, stdout)
      Perform(Echo(inBuf[..nbytesRead]), []);
      ghost var rest := inBuf[nbytesRead + 1..];
      assert inBuf[..] == r.line + ['\0'] + rest;
      CStringOfBuffer(r.line, rest);
      stop := Connection.CString(inBuf[..]) == "\r\n" || Connection.CString(inBuf[..]) == "\n";
      failed := false;
    }

    /** The read loop of `handle_accepted_connection`: reads up to the first
        read that ends the request. `failed` says that a read error ends the
        handler; `blocked` that it waits for ever for a read the script does
        not hold. */
    method ReceiveRequest(c: ConnScript, errorStream: bool, inBuf: array<char>) returns (failed: bool, blocked: bool)
      requires LinesFit(c) && inBuf.Length == Connection.BufSize
      modifies this, inBuf
      ensures var rs := c.incoming; var consumed := rs[..Connection.LoopLength(rs)];
        trace == old(trace) + Connection.ReadEvents(errorStream, consumed) &&
        errorQueue == old(errorQueue) + Connection.ReadErrs(consumed) &&
        blocked == (Connection.LoopExit(rs) == Connection.Blocked) &&
        failed == (Connection.LoopExit(rs) == Connection.Failed)
    {
      var rs := c.incoming;
      ghost var j := Connection.FirstEnd(rs);
      failed, blocked := false, false;
      var i := 0;
      var peerClosed := false;
      while !peerClosed
        invariant if peerClosed then i == j + 1 && j < |rs| && rs[j].Got? && !Connection.IsTerminator(rs[j].line)
                  else i <= j
        invariant trace == old(trace) + Connection.ReadEvents(errorStream, rs[..i])
        invariant errorQueue == old(errorQueue) + Connection.ReadErrs(rs[..i])
        decreases |rs| - i
      {
        if i == |rs| {
          // BIO_get_line waits for ever
          blocked := true;
          Connection.LoopDone(errorStream, rs, i, old(trace), trace, old(errorQueue), errorQueue, failed, blocked);
          return;
        }
        ghost var trace0, queue0 := trace, errorQueue;
        var stop, readFailed := ReadOneLine(rs[i], errorStream, inBuf);
        Connection.ReadStep(errorStream, rs, i, old(trace), trace0, trace, old(errorQueue), queue0, errorQueue);
        if stop {
          assert i == j;
          failed := readFailed;
          Connection.LoopDone(errorStream, rs, i + 1, old(trace), trace, old(errorQueue), errorQueue, failed, blocked);
          return;
        }
        assert rs[i].closeNotify <==> i == j;
        peerClosed := rs[i].closeNotify;
        i := i + 1;
      }
      Connection.LoopDone(errorStream, rs, i, old(trace), trace, old(errorQueue), errorQueue, failed, blocked);
    }

    /** Writing the response, then `BIO_ssl_shutdown` when the write reported
        the whole response; `failed` when it did not. */
    method SendResponse(c: ConnScript, errorStream: bool) returns (failed: bool)
      modifies this
      ensures failed <==> c.write.count != Connection.ResponseLength
      ensures trace == old(trace) + [WriteResponse] +
        (if failed then Diagnose(errorStream, ShortWrite) else [SslShutdown])
      ensures errorQueue == old(errorQueue) + c.write.errs + (if failed then [] else c.shutdownErrs)
    {
      var nbytesWritten := c.write.count;
      Perform(WriteResponse, c.write.errs);
      failed := nbytesWritten != Connection.ResponseLength;
      if failed {
        Report(errorStream, ShortWrite);
        return;
      }
      Perform(SslShutdown, c.shutdownErrs);
    }

    /** `cleanup:` of the handler, reached with `exitCode`. */
    method CloseConnection(errorStream: bool, exitCode: int) returns (code: int)
      modifies this
      ensures var t := Connection.CloseWith(errorStream, old(errorQueue), exitCode);
        trace == old(trace) + t.out && errorQueue == t.next.queue && t.next.phase == Connection.Closed(code)
    {
      code := exitCode;
      Perform(SslBioFree, []);
      Perform(InBufFree, []);
      var hadErrors := DrainErrorQueue(errorStream);
      if hadErrors {
        code := 1;
      }
    }

    /** The handler from the end of the read loop, or from a failure, to its
        return: the response unless it has `failed` already, `failure:` and
        `cleanup:`. */
    method FinishConnection(c: ConnScript, errorStream: bool, failed: bool) returns (exitCode: int)
      modifies this
      ensures var t := Connection.Finish(c, errorStream, if failed then Connection.Failed else Connection.WritingResponse, old(errorQueue));
        trace == old(trace) + t.out && errorQueue == t.next.queue && t.next.phase == Connection.Closed(exitCode)
    {
      ghost var t0, q0 := trace, errorQueue;
      var writeFailed := false;
      if !failed {
        writeFailed := SendResponse(c, errorStream);
      }
      // failure:
      exitCode := if failed || writeFailed then 1 else 0;
      // cleanup:
      ghost var close := Connection.CloseWith(errorStream, errorQueue, exitCode);
      exitCode := CloseConnection(errorStream, exitCode);
      if !failed {
        ghost var mid := [WriteResponse] + (if writeFailed then Diagnose(errorStream, ShortWrite) else [SslShutdown]);
        assert Connection.Respond(c, errorStream, q0) == Connection.Prepend(mid, close);
        assert trace == t0 + (mid + close.out);
      }
    }

    /** The handler after a successful handshake: the read loop, then the
        response and the cleanup unless the loop is blocked for ever. */
    method ServeRequest(c: ConnScript, errorStream: bool, inBuf: array<char>) returns (exitCode: int, blocked: bool)
      requires LinesFit(c) && inBuf.Length == Connection.BufSize
      modifies this, inBuf
      ensures var rs := c.incoming; var consumed := rs[..Connection.LoopLength(rs)];
        var finish := Connection.Finish(c, errorStream, Connection.LoopExit(rs), old(errorQueue) + Connection.ReadErrs(consumed));
        trace == old(trace) + Connection.ReadEvents(errorStream, consumed) + finish.out &&
        errorQueue == finish.next.queue &&
        finish.next.phase == (if blocked then Connection.Blocked else Connection.Closed(exitCode))
    {
      ghost var rs := c.incoming;
      ghost var finish := Connection.Finish(c, errorStream, Connection.LoopExit(rs), errorQueue + Connection.ReadErrs(rs[..Connection.LoopLength(rs)]));
      exitCode := 0;
      var failed;
      failed, blocked := ReceiveRequest(c, errorStream, inBuf);
      if blocked {
        assert trace + [] == trace;
        return;
      }
      assert Connection.LoopExit(rs) == (if failed then Connection.Failed else Connection.WritingResponse);
      ghost var t1 := trace;
      exitCode := FinishConnection(c, errorStream, failed);
      assert trace == t1 + finish.out;
    }

    /** `ServeRequest` as a run of the handler's machine from the first read. */
    method RunRequest(c: ConnScript, errorStream: bool, inBuf: array<char>) returns (exitCode: int, blocked: bool)
      requires LinesFit(c) && inBuf.Length == Connection.BufSize
      modifies this, inBuf
      ensures var r := Connection.Run(c, errorStream, Connection.State(Connection.ReadingRequest(0, false), old(errorQueue)));
        trace == old(trace) + r.out && errorQueue == r.next.queue &&
        r.next.phase == (if blocked then Connection.Blocked else Connection.Closed(exitCode))
    {
      ghost var t0, q0 := trace, errorQueue;
      exitCode, blocked := ServeRequest(c, errorStream, inBuf);
      Connection.RequestRunAfter(c, errorStream, q0, t0, trace, errorQueue,
        if blocked then Connection.Blocked else Connection.Closed(exitCode));
    }

    /** `handle_accepted_connection(ssl_bio, error_stream)` on the connection
        whose collaborators behave as `c`. `blocked` says that it waits for
        ever in `BIO_get_line`, for a read the script does not hold. */
    method HandleAcceptedConnection(c: ConnScript, errorStream: bool) returns (exitCode: int, blocked: bool)
      requires LinesFit(c)
      modifies this
      ensures var h := Connection.Handle(c, errorStream, old(errorQueue));
        trace == old(trace) + h.out && errorQueue == h.next.queue &&
        h.next.phase == (if blocked then Connection.Blocked else Connection.Closed(exitCode))
    {
      ghost var t0, q0 := trace, errorQueue;
      var inBuf := new char[Connection.BufSize];
      Perform(InBufAlloc, []);
      ErrClearError();
      var ok := Invoke(Handshake, c.handshake);
      ghost var pre := [InBufAlloc, Handshake] + (if ok then [] else Diagnose(errorStream, HandshakeError));
      ghost var rest := Connection.Run(c, errorStream, Connection.State(if ok then Connection.ReadingRequest(0, false) else Connection.Failed, c.handshake.errs));
      assert Connection.Handle(c, errorStream, q0) == Connection.Prepend(pre, rest) by {
        Connection.HandleStart(c, errorStream, q0);
      }
      assert errorQueue == c.handshake.errs by { assert [] + c.handshake.errs == c.handshake.errs; }
      if !ok {
        Report(errorStream, HandshakeError);
        blocked := false;
        assert rest == Connection.Finish(c, errorStream, Connection.Failed, c.handshake.errs) by {
          Connection.FinishRun(c, errorStream, Connection.Failed, c.handshake.errs);
        }
        ghost var t1 := trace;
        exitCode := FinishConnection(c, errorStream, true);
        assert trace == t1 + rest.out;
      } else {
        assert trace == t0 + pre;
        ghost var t1 := trace;
        exitCode, blocked := RunRequest(c, errorStream, inBuf);
        assert trace == t1 + rest.out;
      }
    }

    /** Setup call `n` of `run_tls_server` (the bind is preceded by
        `BIO_new_accept`), checked with `err <= 0` and reported on failure. */
    method SetupStep(s: ServerScript, errorStream: bool, n: nat) returns (ok: bool)
      requires n < 4
      modifies this
      ensures ok == Server.SetupCalls(s)[n].ok
      ensures trace == old(trace) + Server.SetupCallEvents(n) + (if ok then [] else Diagnose(errorStream, Server.SetupDiagnostic(n)))
      ensures errorQueue == old(errorQueue) + Server.SetupCalls(s)[n].errs
    {
      if n == 3 {
        Perform(AcceptBioNew, []);
      }
      ok := Invoke(Server.SetupSteps[n], Server.SetupCalls(s)[n]);
      if !ok {
        Report(errorStream, Server.SetupDiagnostic(n));
      }
    }

    /** The setup of `run_tls_server`, up to `failure:` when a call fails or
        records are pending afterwards, or up to the accept loop. `acceptBio`
        says whether `BIO_new_accept` was reached. */
    method SetUp(s: ServerScript, errorStream: bool) returns (failed: bool, acceptBio: bool)
      modifies this
      ensures var u := Server.Setup(s, errorStream);
        trace == old(trace) + u.out && errorQueue == u.next.queue &&
        u.next.phase == (if failed then Server.Failing(acceptBio) else Server.Listening(0))
    {
      ghost var t0 := trace;
      failed, acceptBio := true, false;
      ErrClearError();
      // SSL_CTX_new(TLS_server_method())
      Perform(CtxNew, []);
      assert errorQueue == Server.SetupErrs(s, 0) && trace == t0 + Server.SetupTrace(0);
      var ok := SetupStep(s, errorStream, 0);
      Server.SetupAdvance(s, errorStream, 0, t0, trace, errorQueue);
      if !ok {
        return;
      }
      ok := SetupStep(s, errorStream, 1);
      Server.SetupAdvance(s, errorStream, 1, t0, trace, errorQueue);
      if !ok {
        return;
      }
      ok := SetupStep(s, errorStream, 2);
      Server.SetupAdvance(s, errorStream, 2, t0, trace, errorQueue);
      if !ok {
        return;
      }
      // SSL_CTX_set_mode(ctx, SSL_MODE_AUTO_RETRY) changes nothing observable here
      acceptBio := true;
      ok := SetupStep(s, errorStream, 3);
      Server.SetupAdvance(s, errorStream, 3, t0, trace, errorQueue);
      if !ok {
        return;
      }
      Server.SetupChecked(s, errorStream, t0, trace, errorQueue);
      if ErrPeekError() != 0 {
        Report(errorStream, UnexpectedSetupError);
        return;
      }
      failed := false;
    }

    /** One iteration of the accept loop, before accept number `k`:
        `waiting` when the connection handler is blocked for ever. */
    method AcceptOnce(s: ServerScript, errorStream: bool, k: nat) returns (waiting: bool)
      requires k < |s.accepts| && AllLinesFit(s)
      modifies this
      ensures var a := Server.Attempt(s, errorStream, k, old(errorQueue));
        trace == old(trace) + a.out && errorQueue == a.next.queue &&
        a.next.phase == (if waiting then Server.Waiting else Server.Listening(k + 1))
    {
      var r := s.accepts[k];
      Perform(Accept, r.errs);
      if r.AcceptFailed? {
        Report(errorStream, AcceptError);
        var hadErrors := DrainErrorQueue(errorStream);
        return false;
      }
      // BIO_pop, BIO_new_ssl(ctx, 0), BIO_push
      Perform(SslBioNew, []);
      var exitCode, blocked := HandleAcceptedConnection(r.conn, errorStream);
      waiting := blocked;
    }

    /** The accept loop: it never leaves on its own, so it ends only blocked,
        in an accept the script does not hold or in a blocked handler. */
    method AcceptLoop(s: ServerScript, errorStream: bool)
      requires AllLinesFit(s)
      modifies this
      ensures var r := Server.Run(s, errorStream, Server.State(Server.Listening(0), old(errorQueue)));
        trace == old(trace) + r.out && errorQueue == r.next.queue && r.next.phase == Server.Waiting
    {
      ghost var whole := Server.Prepend(trace, Server.Run(s, errorStream, Server.State(Server.Listening(0), errorQueue)));
      var k := 0;
      while k < |s.accepts|
        invariant k <= |s.accepts|
        invariant Server.Prepend(trace, Server.Run(s, errorStream, Server.State(Server.Listening(k), errorQueue))) == whole
        decreases |s.accepts| - k
      {
        ghost var t1, q1 := trace, errorQueue;
        var waiting := AcceptOnce(s, errorStream, k);
        Server.ListeningStep(s, errorStream, k, q1, t1, whole, trace, errorQueue, waiting);
        if waiting {
          return;
        }
        k := k + 1;
      }
      // BIO_do_accept waits for ever
      Server.ListeningEnd(s, errorStream, k, errorQueue, trace, whole);
    }

    /** `failure:` and `cleanup:` of `run_tls_server`: free what was
        allocated and dump the pending records. */
    method CloseServer(errorStream: bool, acceptBio: bool) returns (exitCode: int)
      modifies this
      ensures var t := Server.Cleanup(errorStream, acceptBio, old(errorQueue));
        trace == old(trace) + t.out && errorQueue == t.next.queue && t.next.phase == Server.Exited(exitCode)
    {
      exitCode := 1;
      if acceptBio {
        Perform(AcceptBioFree, []);
      }
      Perform(CtxFree, []);
      var hadErrors := DrainErrorQueue(errorStream);
      if hadErrors {
        exitCode := 1;
      }
    }

    /** `run_tls_server(port, keypair, cert_chain, error_stream)` with
        collaborators that behave as `s`: it returns `exitCode` unless
        `waiting`, blocked for ever. */
    method RunTlsServer(s: ServerScript, errorStream: bool) returns (exitCode: int, waiting: bool)
      requires AllLinesFit(s)
      modifies this
      ensures var r := Server.Serve(s, errorStream, old(errorQueue));
        trace == old(trace) + r.out && errorQueue == r.next.queue &&
        r.next.phase == (if waiting then Server.Waiting else Server.Exited(exitCode))
    {
      ghost var t0, q0 := trace, errorQueue;
      exitCode := 0;
      var failed, acceptBio := SetUp(s, errorStream);
      ghost var u := Server.Setup(s, errorStream);
      if failed {
        waiting := false;
        ghost var q1 := errorQueue;
        exitCode := CloseServer(errorStream, acceptBio);
        assert Server.Run(s, errorStream, u.next) == Server.Cleanup(errorStream, acceptBio, q1) by {
          Server.FailingRun(s, errorStream, acceptBio, q1);
        }
      } else {
        waiting := true;
        AcceptLoop(s, errorStream);
      }
      Server.ServeFromSetup(s, errorStream, q0, t0, trace, errorQueue,
        if waiting then Server.Waiting else Server.Exited(exitCode));
    }
  }
}
