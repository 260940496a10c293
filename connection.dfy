/** `handle_accepted_connection` (Chapter09/tls-server.c:145-228) as a state
    machine over scripted collaborator outcomes.

    `Step` is one stage of the handler, `Run` iterates it to a terminal phase,
    `Handle` is a whole connection. `Summary` is the same behaviour written as
    one case analysis over the script; `HandleIsSummary` proves the two agree,
    and the lemmas after it state what the handler promises. */
module Connection {
  import opened Collaborators

  /** The fixed response (tls-server.c:187-193). */
  const Response: string :=
    "HTTP/1.0 200 OK\r\n" +
    "Content-type: text/plain\r\n" +
    "Connection: close\r\n" +
    "Server: Example TLS server\r\n" +
    "\r\n" +
    "Hello from the TLS server!\n"

  /** `strlen(response)`: the count `BIO_write` must report. */
  const ResponseLength: int := 119

  lemma ResponseLengthIsStrlen()
    ensures ResponseLength == |Response|
  {
  }

  /** The buffer size handed to `BIO_get_line`; a line holds at most
      `BufSize - 1` bytes before the terminating NUL. */
  const BufSize: nat := 16 * 1024

  // ---------------------------------------------------------------------------
  // The terminator test

  /** The C string that `strcmp` sees in the buffer: the bytes before the
      first NUL. */
  function CString(s: seq<char>): (r: seq<char>)
    ensures |r| <= |s| && r == s[..|r|]
    ensures '\0' !in r
    ensures |r| < |s| ==> s[|r|] == '\0'
  {
    if s == [] || s[0] == '\0' then [] else [s[0]] + CString(s[1..])
  }

  /** `!strcmp(in_buf, "\r\n") || !strcmp(in_buf, "\n")`. */
  predicate IsTerminator(line: seq<char>) {
    CString(line) == "\r\n" || CString(line) == "\n"
  }

  /** What `BIO_get_line` delivers: at most `BufSize - 1` bytes, and a newline
      only as the last of them. */
  predicate LineShaped(line: seq<char>) {
    |line| < BufSize && forall k :: 0 <= k < |line| - 1 ==> line[k] != '\n'
  }

  /** For the lines `BIO_get_line` can deliver, the `strcmp` test is exactly
      "the line is a bare CRLF or a bare LF". */
  lemma TerminatorIsBlankLine(line: seq<char>)
    requires LineShaped(line)
    ensures IsTerminator(line) <==> line == "\r\n" || line == "\n"
  {
    var c := CString(line);
    if c == "\n" {
      assert line[0] == '\n';
    } else if c == "\r\n" {
      assert line[1] == '\n';
    }
    if line == "\n" {
      assert c == "\n";
    } else if line == "\r\n" {
      assert line[1..] == "\n";
      assert c == "\r\n";
    }
  }

  /** A read after which the loop asks for no further read: an error or clean
      close, a terminator line, or a line after which the peer's close_notify
      has been received. */
  predicate Ends(r: ReadResult) {
    r.Ended? || IsTerminator(r.line) || r.closeNotify
  }

  /** The index of the first read that ends the request, or `|rs|` if none does. */
  function FirstEnd(rs: seq<ReadResult>): (j: nat)
    ensures j <= |rs|
    ensures forall k :: 0 <= k < j ==> !Ends(rs[k])
    ensures j < |rs| ==> Ends(rs[j])
  {
    if rs == [] || Ends(rs[0]) then 0 else 1 + FirstEnd(rs[1..])
  }

  // ---------------------------------------------------------------------------
  // The state machine

  datatype Phase =
    | Starting
    | Handshaking
    /** Before read number `next`; `peerClosed` is the SSL_RECEIVED_SHUTDOWN bit. */
    | ReadingRequest(next: nat, peerClosed: bool)
    | WritingResponse
    | ShuttingDown
    | Failed
    /** The `cleanup:` label with the exit code reached so far. */
    | Closing(exitCode: int)
    /** The handler returned `exitCode`. */
    | Closed(exitCode: int)
    /** Waiting in `BIO_get_line` for a read the script does not supply. */
    | Blocked

  /** A phase and the contents of OpenSSL's error queue. */
  datatype State = State(phase: Phase, queue: seq<ErrorRecord>)

  /** Where a step or a run ends, and what it did on the way. */
  datatype Transition = Transition(next: State, out: seq<Event>)

  function Prepend(ev: seq<Event>, t: Transition): Transition {
    Transition(t.next, ev + t.out)
  }

  lemma PrependPrepend(a: seq<Event>, b: seq<Event>, t: Transition)
    ensures Prepend(a, Prepend(b, t)) == Prepend(a + b, t)
  {
    assert a + (b + t.out) == (a + b) + t.out;
  }

  predicate Terminal(p: Phase) {
    p.Closed? || p.Blocked?
  }

  function Rank(c: ConnScript, p: Phase): nat {
    match p
    case Starting => |c.incoming| + 7
    case Handshaking => |c.incoming| + 6
    case ReadingRequest(i, closed) =>
      (if i < |c.incoming| then |c.incoming| - i else 0) + (if closed then 4 else 5)
    case WritingResponse => 3
    case ShuttingDown => 2
    case Failed => 2
    case Closing(_) => 1
    case Closed(_) => 0
    case Blocked => 0
  }

  /** The phase the read loop hands over to after the read that ends it. */
  function RequestEnd(r: ReadResult): Phase {
    if r.Ended? && r.code != SslErrorZeroReturn then Failed else WritingResponse
  }

  /** The events of one read: the read itself, the echo of a line, the
      report of a read error. */
  function ReadOne(stream: bool, r: ReadResult): seq<Event> {
    if r.Got? then [ReadLine, Echo(r.line)]
    else [ReadLine] + (if r.code == SslErrorZeroReturn then [] else Diagnose(stream, ReadError(r.code)))
  }

  /** The phase after read `i`, which returned `r`: the next read, or the
      phase the loop hands over to. */
  function AfterRead(r: ReadResult, i: nat): Phase {
    if r.Got? && !IsTerminator(r.line) then ReadingRequest(i + 1, r.closeNotify) else RequestEnd(r)
  }

  /** One stage of the handler. */
  function Step(c: ConnScript, stream: bool, s: State): (t: Transition)
    ensures !Terminal(s.phase) ==> Rank(c, t.next.phase) < Rank(c, s.phase)
    ensures Terminal(s.phase) ==> t == Transition(s, [])
  {
    match s.phase
    case Starting =>
      // malloc(BUF_SIZE); ERR_clear_error()
      Transition(State(Handshaking, []), [InBufAlloc])
    case Handshaking =>
      var q := s.queue + c.handshake.errs;
      if c.handshake.ok then Transition(State(ReadingRequest(0, false), q), [Handshake])
      else Transition(State(Failed, q), [Handshake] + Diagnose(stream, HandshakeError))
    case ReadingRequest(i, closed) =>
      if closed then Transition(State(WritingResponse, s.queue), [])
      else if i >= |c.incoming| then Transition(State(Blocked, s.queue), [])
      else
        var r := c.incoming[i];
        Transition(State(AfterRead(r, i), s.queue + r.errs), ReadOne(stream, r))
    case WritingResponse =>
      var q := s.queue + c.write.errs;
      if c.write.count == ResponseLength then Transition(State(ShuttingDown, q), [WriteResponse])
      else Transition(State(Failed, q), [WriteResponse] + Diagnose(stream, ShortWrite))
    case ShuttingDown =>
      Transition(State(Closing(0), s.queue + c.shutdownErrs), [SslShutdown])
    case Failed =>
      Transition(State(Closing(1), s.queue), [])
    case Closing(code) =>
      CloseWith(stream, s.queue, code)
    case Closed(_) => Transition(s, [])
    case Blocked => Transition(s, [])
  }

  /** Steps from `s` until the handler has returned or is blocked. */
  function Run(c: ConnScript, stream: bool, s: State): (t: Transition)
    ensures Terminal(t.next.phase)
    decreases Rank(c, s.phase)
  {
    if Terminal(s.phase) then Transition(s, [])
    else
      var t := Step(c, stream, s);
      Prepend(t.out, Run(c, stream, t.next))
  }

  /** One call of `handle_accepted_connection`, entered with error queue `q0`. */
  function Handle(c: ConnScript, stream: bool, q0: seq<ErrorRecord>): Transition {
    Run(c, stream, State(Starting, q0))
  }

  // ---------------------------------------------------------------------------
  // The same behaviour as one case analysis

  /** The events of the reads `rs`, consumed one after the other. */
  function ReadEvents(stream: bool, rs: seq<ReadResult>): seq<Event> {
    if rs == [] then [] else ReadOne(stream, rs[0]) + ReadEvents(stream, rs[1..])
  }

  /** The error records the reads `rs` leave behind. */
  function ReadErrs(rs: seq<ReadResult>): seq<ErrorRecord> {
    if rs == [] then [] else rs[0].errs + ReadErrs(rs[1..])
  }

  /** The lines among the reads `rs`. */
  function GotLines(rs: seq<ReadResult>): seq<seq<char>> {
    if rs == [] then [] else (if rs[0].Got? then [rs[0].line] else []) + GotLines(rs[1..])
  }

  /** Cleanup with pending records `q` and the exit code reached so far. */
  function CloseWith(stream: bool, q: seq<ErrorRecord>, code: int): Transition {
    Transition(State(Closed(if q == [] then code else 1), []), [SslBioFree, InBufFree] + DrainQueue(stream, q))
  }

  /** Writing the response with pending records `q`, then shutdown and cleanup. */
  function Respond(c: ConnScript, stream: bool, q: seq<ErrorRecord>): Transition {
    var q2 := q + c.write.errs;
    if c.write.count == ResponseLength then
      Prepend([WriteResponse, SslShutdown], CloseWith(stream, q2 + c.shutdownErrs, 0))
    else
      Prepend([WriteResponse] + Diagnose(stream, ShortWrite), CloseWith(stream, q2, 1))
  }

  /** How many reads the loop performs: up to and including the first one
      that ends the request, or all of them. */
  function LoopLength(rs: seq<ReadResult>): (k: nat)
    ensures k <= |rs|
    ensures forall i :: 0 <= i < k - 1 ==> rs[i].Got? && !IsTerminator(rs[i].line) && !rs[i].closeNotify
    ensures k < |rs| ==> 0 < k && Ends(rs[k - 1])
    ensures k == |rs| ==> forall i :: 0 <= i < |rs| - 1 ==> !Ends(rs[i])
  {
    var j := FirstEnd(rs);
    if j == |rs| then |rs| else j + 1
  }

  /** Where the read loop leaves the handler once its reads are consumed. */
  function LoopExit(rs: seq<ReadResult>): Phase {
    var j := FirstEnd(rs);
    if j == |rs| then Blocked else RequestEnd(rs[j])
  }

  /** What follows the read loop, which handed over to `p` with records `q`. */
  function Finish(c: ConnScript, stream: bool, p: Phase, q: seq<ErrorRecord>): Transition {
    if p == Blocked then Transition(State(Blocked, q), [])
    else if p == Failed then CloseWith(stream, q, 1)
    else Respond(c, stream, q)
  }

  /** The first two stages: the buffer is allocated, the queue cleared and the
      handshake made; a failed one is reported and goes to `failure:`. */
  lemma HandleStart(c: ConnScript, stream: bool, q0: seq<ErrorRecord>)
    ensures var ok := c.handshake.ok;
      Handle(c, stream, q0) ==
        Prepend([InBufAlloc, Handshake] + (if ok then [] else Diagnose(stream, HandshakeError)),
                Run(c, stream, State(if ok then ReadingRequest(0, false) else Failed, c.handshake.errs)))
  {
    var ok := c.handshake.ok;
    var d := if ok then [] else Diagnose(stream, HandshakeError);
    var rest := Run(c, stream, State(if ok then ReadingRequest(0, false) else Failed, c.handshake.errs));
    assert [] + c.handshake.errs == c.handshake.errs;
    assert Run(c, stream, State(Handshaking, [])) == Prepend([Handshake] + d, rest);
    PrependPrepend([InBufAlloc], [Handshake] + d, rest);
    assert [InBufAlloc] + ([Handshake] + d) == [InBufAlloc, Handshake] + d;
  }

  /** A whole connection. Nothing depends on the queue it was entered with. */
  function Summary(c: ConnScript, stream: bool): Transition {
    if !c.handshake.ok then
      Prepend([InBufAlloc, Handshake] + Diagnose(stream, HandshakeError), CloseWith(stream, c.handshake.errs, 1))
    else
      var consumed := c.incoming[..LoopLength(c.incoming)];
      Prepend([InBufAlloc, Handshake] + ReadEvents(stream, consumed),
              Finish(c, stream, LoopExit(c.incoming), c.handshake.errs + ReadErrs(consumed)))
  }

  // ---------------------------------------------------------------------------
  // The machine agrees with the case analysis

  lemma CloseRun(c: ConnScript, stream: bool, code: int, q: seq<ErrorRecord>)
    ensures Run(c, stream, State(Closing(code), q)) == CloseWith(stream, q, code)
  {
    var s := State(Closing(code), q);
    assert Run(c, stream, Step(c, stream, s).next) == Transition(Step(c, stream, s).next, []);
  }

  lemma FinishRun(c: ConnScript, stream: bool, p: Phase, q: seq<ErrorRecord>)
    requires p == Blocked || p == Failed || p == WritingResponse
    ensures Run(c, stream, State(p, q)) == Finish(c, stream, p, q)
  {
    var q2 := q + c.write.errs;
    if p == Blocked {
    } else if p == Failed {
      CloseRun(c, stream, 1, q);
    } else if c.write.count == ResponseLength {
      CloseRun(c, stream, 0, q2 + c.shutdownErrs);
      assert Run(c, stream, State(ShuttingDown, q2)) == Prepend([SslShutdown], CloseWith(stream, q2 + c.shutdownErrs, 0));
    } else {
      CloseRun(c, stream, 1, q2);
      assert Run(c, stream, State(Failed, q2)) == CloseWith(stream, q2, 1);
    }
  }

  /** The read that ends the request hands over as `RequestEnd` says. */
  lemma ReadingRunEnds(c: ConnScript, stream: bool, i: nat, q: seq<ErrorRecord>)
    requires i < |c.incoming| && Ends(c.incoming[i])
    ensures var r := c.incoming[i];
      Run(c, stream, State(ReadingRequest(i, false), q)) ==
        Prepend(ReadOne(stream, r), Run(c, stream, State(RequestEnd(r), q + r.errs)))
  {
    var r := c.incoming[i];
    if r.Got? && !IsTerminator(r.line) {
      var s1 := State(ReadingRequest(i + 1, true), q + r.errs);
      assert Run(c, stream, s1) == Prepend([], Run(c, stream, State(WritingResponse, q + r.errs)));
    }
  }

  /** The same, in the terms of `LoopLength` and `LoopExit`. */
  lemma ReadingRunLast(c: ConnScript, stream: bool, i: nat, q: seq<ErrorRecord>)
    requires i == FirstEnd(c.incoming) < |c.incoming|
    ensures var rs := c.incoming; var k := LoopLength(rs);
      Run(c, stream, State(ReadingRequest(i, false), q)) ==
        Prepend(ReadEvents(stream, rs[i..k]), Run(c, stream, State(LoopExit(rs), q + ReadErrs(rs[i..k]))))
  {
    var rs := c.incoming;
    var k := LoopLength(rs);
    var r := rs[i];
    ReadingRunEnds(c, stream, i, q);
    assert LoopExit(rs) == RequestEnd(r);
    assert rs[i..k] == [r];
    assert [r][1..] == [];
    assert ReadEvents(stream, [r]) == ReadOne(stream, r) + [] == ReadOne(stream, r);
    assert ReadErrs([r]) == r.errs + [] == r.errs;
  }

  /** A read that does not end the request leads to the next read. */
  lemma ReadingRunNext(c: ConnScript, stream: bool, i: nat, q: seq<ErrorRecord>)
    requires i < |c.incoming| && !Ends(c.incoming[i])
    ensures var r := c.incoming[i];
      Run(c, stream, State(ReadingRequest(i, false), q)) ==
        Prepend(ReadOne(stream, r), Run(c, stream, State(ReadingRequest(i + 1, false), q + r.errs)))
  {
  }

  /** The read loop, entered before read `i`, consumes every read up to the
      first one that ends the request and hands over as `LoopExit` says. */
  lemma {:induction false} ReadingRun(c: ConnScript, stream: bool, i: nat, q: seq<ErrorRecord>)
    requires i <= FirstEnd(c.incoming)
    ensures var rs := c.incoming; var k := LoopLength(rs);
      Run(c, stream, State(ReadingRequest(i, false), q)) ==
        Prepend(ReadEvents(stream, rs[i..k]), Run(c, stream, State(LoopExit(rs), q + ReadErrs(rs[i..k]))))
    decreases |c.incoming| - i
  {
    var rs := c.incoming;
    var j := FirstEnd(rs);
    var k := LoopLength(rs);
    if i == |rs| {
      assert rs[i..k] == [];
      assert q + [] == q;
    } else if i == j {
      ReadingRunLast(c, stream, i, q);
    } else {
      var r := rs[i];
      ReadingRun(c, stream, i + 1, q + r.errs);
      ReadingRunCons(c, stream, i, q);
    }
  }

  /** One more read in front of a loop whose remaining reads are known. */
  lemma ReadingRunCons(c: ConnScript, stream: bool, i: nat, q: seq<ErrorRecord>)
    requires i < FirstEnd(c.incoming)
    requires var rs := c.incoming; var k := LoopLength(rs); var q1 := q + rs[i].errs;
      Run(c, stream, State(ReadingRequest(i + 1, false), q1)) ==
        Prepend(ReadEvents(stream, rs[i + 1..k]), Run(c, stream, State(LoopExit(rs), q1 + ReadErrs(rs[i + 1..k]))))
    ensures var rs := c.incoming; var k := LoopLength(rs);
      Run(c, stream, State(ReadingRequest(i, false), q)) ==
        Prepend(ReadEvents(stream, rs[i..k]), Run(c, stream, State(LoopExit(rs), q + ReadErrs(rs[i..k]))))
  {
    var rs := c.incoming;
    var k := LoopLength(rs);
    var r := rs[i];
    var q1 := q + r.errs;
    var rest := rs[i + 1..k];
    var a := ReadOne(stream, r);
    var b := ReadEvents(stream, rest);
    var t := Run(c, stream, State(LoopExit(rs), q + ReadErrs(rs[i..k])));
    assert rs[i..k][0] == r && rs[i..k][1..] == rest;
    assert ReadEvents(stream, rs[i..k]) == a + b;
    assert q1 + ReadErrs(rest) == q + ReadErrs(rs[i..k]) by {
      assert ReadErrs(rs[i..k]) == r.errs + ReadErrs(rest);
    }
    assert Run(c, stream, State(ReadingRequest(i + 1, false), q1)) == Prepend(b, t);
    assert Run(c, stream, State(ReadingRequest(i, false), q)) == Prepend(a, Prepend(b, t)) by {
      ReadingRunNext(c, stream, i, q);
    }
    PrependPrepend(a, b, t);
  }

  /** A failed handshake goes straight to cleanup. */
  lemma HandshakeFailsRun(c: ConnScript, stream: bool)
    requires !c.handshake.ok
    ensures Prepend([InBufAlloc], Run(c, stream, State(Handshaking, []))) == Summary(c, stream)
  {
    var q := c.handshake.errs;
    var d := Diagnose(stream, HandshakeError);
    var t := CloseWith(stream, q, 1);
    assert Run(c, stream, State(Failed, q)) == t by { FinishRun(c, stream, Failed, q); }
    assert Run(c, stream, State(Handshaking, [])) == Prepend([Handshake] + d, t) by { assert [] + q == q; }
    assert [InBufAlloc] + ([Handshake] + d) == [InBufAlloc, Handshake] + d;
    PrependPrepend([InBufAlloc], [Handshake] + d, t);
  }

  /** The read loop entered with queue `q`, then what follows it. */
  lemma RequestRun(c: ConnScript, stream: bool, q: seq<ErrorRecord>)
    ensures var rs := c.incoming; var consumed := rs[..LoopLength(rs)];
      Run(c, stream, State(ReadingRequest(0, false), q)) ==
        Prepend(ReadEvents(stream, consumed), Finish(c, stream, LoopExit(rs), q + ReadErrs(consumed)))
  {
    var rs := c.incoming;
    var consumed := rs[..LoopLength(rs)];
    assert rs[0..LoopLength(rs)] == consumed;
    ReadingRun(c, stream, 0, q);
    FinishRun(c, stream, LoopExit(rs), q + ReadErrs(consumed));
  }

  /** Whatever reached the trace `t` and the queue `q` by the closed form of
      the read loop and what follows it, from trace `t0` and queue `q0`, reached
      them by the machine run from the first read. */
  lemma RequestRunAfter(c: ConnScript, stream: bool, q0: seq<ErrorRecord>,
                        t0: seq<Event>, t: seq<Event>, q: seq<ErrorRecord>, p: Phase)
    requires var rs := c.incoming; var consumed := rs[..LoopLength(rs)];
      var finish := Finish(c, stream, LoopExit(rs), q0 + ReadErrs(consumed));
      t == t0 + ReadEvents(stream, consumed) + finish.out && q == finish.next.queue && finish.next.phase == p
    ensures var r := Run(c, stream, State(ReadingRequest(0, false), q0));
      t == t0 + r.out && q == r.next.queue && r.next.phase == p
  {
    var rs := c.incoming;
    var consumed := rs[..LoopLength(rs)];
    var ev := ReadEvents(stream, consumed);
    var finish := Finish(c, stream, LoopExit(rs), q0 + ReadErrs(consumed));
    var r := Run(c, stream, State(ReadingRequest(0, false), q0));
    assert r == Prepend(ev, finish) by { RequestRun(c, stream, q0); }
    AfterPrepend(t0, ev, finish);
  }

  /** Appending the events `ev` and then `u`'s is appending `Prepend(ev, u)`'s. */
  lemma AfterPrepend(t0: seq<Event>, ev: seq<Event>, u: Transition)
    ensures t0 + ev + u.out == t0 + Prepend(ev, u).out && Prepend(ev, u).next == u.next
  {
    assert t0 + ev + u.out == t0 + (ev + u.out);
  }

  /** A successful handshake, then the read loop and what follows it. */
  lemma HandshakeSucceedsRun(c: ConnScript, stream: bool)
    requires c.handshake.ok
    ensures Prepend([InBufAlloc], Run(c, stream, State(Handshaking, []))) == Summary(c, stream)
  {
    var q := c.handshake.errs;
    var rs := c.incoming;
    var consumed := rs[..LoopLength(rs)];
    var ev := ReadEvents(stream, consumed);
    var q1 := q + ReadErrs(consumed);
    var tail := Finish(c, stream, LoopExit(rs), q1);
    var loop := Run(c, stream, State(ReadingRequest(0, false), q));
    assert Run(c, stream, State(Handshaking, [])) == Prepend([Handshake], loop) by { assert [] + q == q; }
    assert loop == Prepend(ev, tail) by { RequestRun(c, stream, q); }
    assert [InBufAlloc] + ([Handshake] + ev) == [InBufAlloc, Handshake] + ev;
    PrependPrepend([Handshake], ev, tail);
    PrependPrepend([InBufAlloc], [Handshake] + ev, tail);
  }

  /** The machine and the case analysis describe the same handler, whatever the
      queue it was entered with. */
  lemma HandleIsSummary(c: ConnScript, stream: bool, q0: seq<ErrorRecord>)
    ensures Handle(c, stream, q0) == Summary(c, stream)
  {
    assert Handle(c, stream, q0) == Prepend([InBufAlloc], Run(c, stream, State(Handshaking, [])));
    if c.handshake.ok {
      HandshakeSucceedsRun(c, stream);
    } else {
      HandshakeFailsRun(c, stream);
    }
  }

  // ---------------------------------------------------------------------------
  // What the handler promises

  /** What one read contributes. */
  lemma ReadOneFacts(stream: bool, r: ReadResult)
    ensures var one := ReadOne(stream, r);
      multiset(one)[ReadLine] == 1 && Echoes(one) == (if r.Got? then [r.line] else []) && Dumped(one) == [] &&
      multiset(one)[WriteResponse] == 0 && multiset(one)[SslShutdown] == 0 &&
      multiset(one)[SslBioFree] == 0 && multiset(one)[InBufFree] == 0
  {
    var one := ReadOne(stream, r);
    if r.Got? {
      assert one == [ReadLine] + [Echo(r.line)];
      EchoesAppend([ReadLine], [Echo(r.line)]);
      EchoesSingle(ReadLine);
      EchoesSingle(Echo(r.line));
      DumpedAppend([ReadLine], [Echo(r.line)]);
      DumpedSingle(ReadLine);
      DumpedSingle(Echo(r.line));
    } else if r.code == SslErrorZeroReturn || !stream {
      assert one == [ReadLine];
      SilentIsQuiet(one);
    } else {
      assert one == [ReadLine, Diag(ReadError(r.code))];
      assert Silent(one);
      SilentIsQuiet(one);
    }
  }

  lemma {:induction false} ReadEventsFacts(stream: bool, rs: seq<ReadResult>)
    ensures var ev := ReadEvents(stream, rs);
      multiset(ev)[ReadLine] == |rs| && Echoes(ev) == GotLines(rs) && Dumped(ev) == [] &&
      multiset(ev)[WriteResponse] == 0 && multiset(ev)[SslShutdown] == 0 &&
      multiset(ev)[SslBioFree] == 0 && multiset(ev)[InBufFree] == 0
  {
    if rs != [] {
      var one := ReadOne(stream, rs[0]);
      var rest := ReadEvents(stream, rs[1..]);
      ReadEventsFacts(stream, rs[1..]);
      ReadOneFacts(stream, rs[0]);
      EchoesAppend(one, rest);
      DumpedAppend(one, rest);
    }
  }

  /** The reads consumed one after the other: their events and records
      concatenate. */
  lemma {:induction false} ReadEventsAppend(stream: bool, a: seq<ReadResult>, b: seq<ReadResult>)
    ensures ReadEvents(stream, a + b) == ReadEvents(stream, a) + ReadEvents(stream, b)
    ensures ReadErrs(a + b) == ReadErrs(a) + ReadErrs(b)
  {
    if a == [] {
      assert a + b == b;
    } else {
      assert (a + b)[0] == a[0];
      assert (a + b)[1..] == a[1..] + b;
      ReadEventsAppend(stream, a[1..], b);
    }
  }

  /** One more read consumed by the loop. */
  lemma ReadEventsGrow(stream: bool, rs: seq<ReadResult>, i: nat)
    requires i < |rs|
    ensures ReadEvents(stream, rs[..i + 1]) == ReadEvents(stream, rs[..i]) + ReadOne(stream, rs[i])
    ensures ReadErrs(rs[..i + 1]) == ReadErrs(rs[..i]) + rs[i].errs
  {
    assert rs[..i + 1] == rs[..i] + [rs[i]];
    ReadEventsAppend(stream, rs[..i], [rs[i]]);
    assert [rs[i]][1..] == [];
    assert ReadOne(stream, rs[i]) + [] == ReadOne(stream, rs[i]);
    assert rs[i].errs + [] == rs[i].errs;
  }

  /** The records on the error queue when the handler reaches `cleanup:`. */
  function Pending(c: ConnScript): seq<ErrorRecord> {
    var q := c.handshake.errs;
    if !c.handshake.ok then q
    else
      var q1 := q + ReadErrs(c.incoming[..LoopLength(c.incoming)]);
      if LoopExit(c.incoming) != WritingResponse then q1
      else if c.write.count == ResponseLength then q1 + c.write.errs + c.shutdownErrs
      else q1 + c.write.errs
  }

  /** The events of the three ways past the read loop, written out. */
  lemma FinishEvents(c: ConnScript, stream: bool, p: Phase, q: seq<ErrorRecord>)
    requires p == Failed || p == WritingResponse
    ensures var t := Finish(c, stream, p, q);
      var exact := p == WritingResponse && c.write.count == ResponseLength;
      var pending := if p == Failed then q else if exact then q + c.write.errs + c.shutdownErrs else q + c.write.errs;
      var free := [SslBioFree, InBufFree] + DrainQueue(stream, pending);
      t.next == State(Closed(if exact && pending == [] then 0 else 1), []) &&
      t.out == if p == Failed then free
               else if exact then [WriteResponse, SslShutdown] + free
               else [WriteResponse] + Diagnose(stream, ShortWrite) + free
  {
    if p == WritingResponse && c.write.count == ResponseLength {
      assert [WriteResponse, SslShutdown] + ([SslBioFree, InBufFree] + DrainQueue(stream, q + c.write.errs + c.shutdownErrs))
        == [WriteResponse, SslShutdown] + [SslBioFree, InBufFree] + DrainQueue(stream, q + c.write.errs + c.shutdownErrs);
    }
  }

  /** Release, then the queue dump, after `pre`: what is released. */
  lemma FreeTailCounts(stream: bool, pending: seq<ErrorRecord>, pre: seq<Event>, out: seq<Event>)
    requires out == pre + ([SslBioFree, InBufFree] + DrainQueue(stream, pending))
    requires multiset(pre)[SslBioFree] == 0 && multiset(pre)[InBufFree] == 0 && multiset(pre)[ReadLine] == 0
    ensures var m := multiset(out);
      m[SslBioFree] == 1 && m[InBufFree] == 1 && m[ReadLine] == 0 &&
      m[WriteResponse] == multiset(pre)[WriteResponse] && m[SslShutdown] == multiset(pre)[SslShutdown]
  {
    var d := DrainQueue(stream, pending);
    assert d == [] || d == [Diag(QueueDump(pending))];
    assert multiset(out) == multiset(pre) + multiset{SslBioFree, InBufFree} + multiset(d);
  }

  /** Release, then the queue dump, after `pre`: what reaches the streams. */
  lemma FreeTailQuiet(stream: bool, pending: seq<ErrorRecord>, pre: seq<Event>, out: seq<Event>)
    requires out == pre + ([SslBioFree, InBufFree] + DrainQueue(stream, pending))
    requires Silent(pre)
    ensures Echoes(out) == [] && Dumped(out) == (if stream then pending else [])
  {
    var d := DrainQueue(stream, pending);
    var free := [SslBioFree, InBufFree];
    assert out == (pre + free) + d;
    assert Silent(pre + free);
    SilentIsQuiet(pre + free);
    DumpedAppend(pre + free, d);
    EchoesAppend(pre + free, d);
    if d != [] {
      EchoesSingle(Diag(QueueDump(pending)));
    }
  }

  /** Past a failed read: release and dump. */
  lemma FinishFailedFacts(c: ConnScript, stream: bool, q: seq<ErrorRecord>)
    ensures var t := Finish(c, stream, Failed, q); var m := multiset(t.out);
      t.next == State(Closed(1), []) &&
      m[SslBioFree] == 1 && m[InBufFree] == 1 && m[ReadLine] == 0 && m[WriteResponse] == 0 && m[SslShutdown] == 0 &&
      Echoes(t.out) == [] && Dumped(t.out) == (if stream then q else [])
  {
    var t := Finish(c, stream, Failed, q);
    assert t == CloseWith(stream, q, 1);
    assert t.out == [] + ([SslBioFree, InBufFree] + DrainQueue(stream, q));
    FreeTailCounts(stream, q, [], t.out);
    FreeTailQuiet(stream, q, [], t.out);
  }

  /** A complete write and the TLS shutdown, then release and dump. */
  lemma ExactTail(stream: bool, pending: seq<ErrorRecord>, out: seq<Event>)
    requires out == [WriteResponse, SslShutdown] + ([SslBioFree, InBufFree] + DrainQueue(stream, pending))
    ensures var m := multiset(out);
      m[SslBioFree] == 1 && m[InBufFree] == 1 && m[ReadLine] == 0 && m[WriteResponse] == 1 && m[SslShutdown] == 1
    ensures Echoes(out) == [] && Dumped(out) == (if stream then pending else [])
  {
    var pre := [WriteResponse, SslShutdown];
    assert Silent(pre) && multiset(pre)[WriteResponse] == 1 && multiset(pre)[SslShutdown] == 1;
    FreeTailCounts(stream, pending, pre, out);
    FreeTailQuiet(stream, pending, pre, out);
  }

  /** Past a complete write: shutdown, release and dump. */
  lemma FinishExactFacts(c: ConnScript, stream: bool, q: seq<ErrorRecord>)
    requires c.write.count == ResponseLength
    ensures var t := Finish(c, stream, WritingResponse, q); var m := multiset(t.out);
      var pending := q + c.write.errs + c.shutdownErrs;
      t.next == State(Closed(if pending == [] then 0 else 1), []) &&
      m[SslBioFree] == 1 && m[InBufFree] == 1 && m[ReadLine] == 0 && m[WriteResponse] == 1 && m[SslShutdown] == 1 &&
      Echoes(t.out) == [] && Dumped(t.out) == (if stream then pending else [])
  {
    var pending := q + c.write.errs + c.shutdownErrs;
    var t := Finish(c, stream, WritingResponse, q);
    assert t == Prepend([WriteResponse, SslShutdown], CloseWith(stream, pending, 0));
    ExactTail(stream, pending, t.out);
  }

  /** A short write's report, then release and dump. */
  lemma ShortTail(stream: bool, pending: seq<ErrorRecord>, out: seq<Event>)
    requires out == [WriteResponse] + Diagnose(stream, ShortWrite) + ([SslBioFree, InBufFree] + DrainQueue(stream, pending))
    ensures var m := multiset(out);
      m[SslBioFree] == 1 && m[InBufFree] == 1 && m[ReadLine] == 0 && m[WriteResponse] == 1 && m[SslShutdown] == 0
    ensures stream ==> Diag(ShortWrite) in out
    ensures Echoes(out) == [] && Dumped(out) == (if stream then pending else [])
  {
    var pre := [WriteResponse] + Diagnose(stream, ShortWrite);
    assert out == pre + ([SslBioFree, InBufFree] + DrainQueue(stream, pending));
    assert stream ==> out[1] == Diag(ShortWrite);
    assert Silent(pre) && multiset(pre)[WriteResponse] == 1 && multiset(pre)[SslShutdown] == 0 by {
      if stream {
        assert pre == [WriteResponse, Diag(ShortWrite)];
      } else {
        assert pre == [WriteResponse];
      }
    }
    FreeTailCounts(stream, pending, pre, out);
    FreeTailQuiet(stream, pending, pre, out);
  }

  /** Past a short write: diagnostic, release and dump, no shutdown. */
  lemma FinishShortFacts(c: ConnScript, stream: bool, q: seq<ErrorRecord>)
    requires c.write.count != ResponseLength
    ensures var t := Finish(c, stream, WritingResponse, q); var m := multiset(t.out);
      var pending := q + c.write.errs;
      t.next == State(Closed(1), []) &&
      m[SslBioFree] == 1 && m[InBufFree] == 1 && m[ReadLine] == 0 && m[WriteResponse] == 1 && m[SslShutdown] == 0 &&
      (stream ==> Diag(ShortWrite) in t.out) &&
      Echoes(t.out) == [] && Dumped(t.out) == (if stream then pending else [])
  {
    var t := Finish(c, stream, WritingResponse, q);
    assert t == Prepend([WriteResponse] + Diagnose(stream, ShortWrite), CloseWith(stream, q + c.write.errs, 1));
    ShortTail(stream, q + c.write.errs, t.out);
  }

  /** What the events past the read loop contain. */
  lemma FinishFacts(c: ConnScript, stream: bool, p: Phase, q: seq<ErrorRecord>)
    requires p == Failed || p == WritingResponse
    ensures var t := Finish(c, stream, p, q); var m := multiset(t.out);
      var exact := p == WritingResponse && c.write.count == ResponseLength;
      var pending := if p == Failed then q else if exact then q + c.write.errs + c.shutdownErrs else q + c.write.errs;
      t.next == State(Closed(if exact && pending == [] then 0 else 1), []) &&
      m[SslBioFree] == 1 && m[InBufFree] == 1 && m[ReadLine] == 0 &&
      m[WriteResponse] == (if p == WritingResponse then 1 else 0) &&
      m[SslShutdown] == (if exact then 1 else 0) &&
      (stream && p == WritingResponse && !exact ==> Diag(ShortWrite) in t.out) &&
      Echoes(t.out) == [] && Dumped(t.out) == (if stream then pending else [])
  {
    if p == Failed {
      FinishFailedFacts(c, stream, q);
    } else if c.write.count == ResponseLength {
      FinishExactFacts(c, stream, q);
    } else {
      FinishShortFacts(c, stream, q);
    }
  }

  /** The events of a served connection, split into its three parts: counts. */
  lemma ServedCounts(ev: seq<Event>, tail: seq<Event>, out: seq<Event>)
    requires out == [InBufAlloc, Handshake] + ev + tail
    ensures var m := multiset(out); var a := multiset(ev); var b := multiset(tail);
      m[ReadLine] == a[ReadLine] + b[ReadLine] && m[WriteResponse] == a[WriteResponse] + b[WriteResponse] &&
      m[SslShutdown] == a[SslShutdown] + b[SslShutdown] &&
      m[SslBioFree] == a[SslBioFree] + b[SslBioFree] && m[InBufFree] == a[InBufFree] + b[InBufFree]
    ensures forall e :: e in ev || e in tail ==> e in out
  {
    assert multiset(out) == multiset{InBufAlloc, Handshake} + multiset(ev) + multiset(tail);
  }

  /** Three consecutive stretches of events, the first of them silent. */
  lemma QuietThenTwo(pre: seq<Event>, ev: seq<Event>, tail: seq<Event>, out: seq<Event>)
    requires out == pre + ev + tail && Echoes(pre) == [] && Dumped(pre) == []
    ensures Echoes(out) == Echoes(ev) + Echoes(tail)
    ensures Dumped(out) == Dumped(ev) + Dumped(tail)
  {
    assert out == (pre + ev) + tail;
    assert Echoes(out) == Echoes(pre + ev) + Echoes(tail) by {
      EchoesAppend(pre + ev, tail);
    }
    assert Echoes(pre + ev) == Echoes(ev) by {
      EchoesAppend(pre, ev);
    }
    assert Dumped(out) == Dumped(pre + ev) + Dumped(tail) by {
      DumpedAppend(pre + ev, tail);
    }
    assert Dumped(pre + ev) == Dumped(ev) by {
      DumpedAppend(pre, ev);
    }
  }

  /** The events of a served connection, split into its three parts: what
      reaches the streams. */
  lemma ServedStreams(ev: seq<Event>, tail: seq<Event>, out: seq<Event>)
    requires out == [InBufAlloc, Handshake] + ev + tail
    ensures Echoes(out) == Echoes(ev) + Echoes(tail)
    ensures Dumped(out) == Dumped(ev) + Dumped(tail)
  {
    var pre := [InBufAlloc, Handshake];
    assert Silent(pre);
    SilentIsQuiet(pre);
    QuietThenTwo(pre, ev, tail, out);
  }

  lemma ServedParts(ev: seq<Event>, tail: seq<Event>, out: seq<Event>)
    requires out == [InBufAlloc, Handshake] + ev + tail
    ensures var m := multiset(out); var a := multiset(ev); var b := multiset(tail);
      m[ReadLine] == a[ReadLine] + b[ReadLine] && m[WriteResponse] == a[WriteResponse] + b[WriteResponse] &&
      m[SslShutdown] == a[SslShutdown] + b[SslShutdown] &&
      m[SslBioFree] == a[SslBioFree] + b[SslBioFree] && m[InBufFree] == a[InBufFree] + b[InBufFree]
    ensures forall e :: e in ev || e in tail ==> e in out
    ensures Echoes(out) == Echoes(ev) + Echoes(tail)
    ensures Dumped(out) == Dumped(ev) + Dumped(tail)
  {
    ServedCounts(ev, tail, out);
    ServedStreams(ev, tail, out);
  }

  /** A refused connection in two parts: the handshake and its report `pre`,
      then cleanup. */
  lemma Refused(c: ConnScript, stream: bool, q0: seq<ErrorRecord>) returns (pre: seq<Event>)
    requires !c.handshake.ok
    ensures Handle(c, stream, q0).out == pre + ([SslBioFree, InBufFree] + DrainQueue(stream, c.handshake.errs))
    ensures Handle(c, stream, q0).next == State(Closed(1), [])
    ensures Silent(pre) && (stream ==> Diag(HandshakeError) in pre)
    ensures forall e :: e in pre ==> HandlerEvent(e)
    ensures var m := multiset(pre);
      m[ReadLine] == 0 && m[WriteResponse] == 0 && m[SslShutdown] == 0 && m[SslBioFree] == 0 && m[InBufFree] == 0
  {
    HandleIsSummary(c, stream, q0);
    pre := [InBufAlloc, Handshake] + Diagnose(stream, HandshakeError);
    if stream {
      assert pre == [InBufAlloc, Handshake, Diag(HandshakeError)];
    } else {
      assert pre == [InBufAlloc, Handshake];
    }
  }

  /** A failed handshake: exit code 1, no read, no write, no TLS shutdown, and
      the buffer and the channel are each released exactly once. */
  lemma HandshakeFailureSkipsRequest(c: ConnScript, stream: bool, q0: seq<ErrorRecord>)
    requires !c.handshake.ok
    ensures var t := Handle(c, stream, q0); var m := multiset(t.out);
      t.next == State(Closed(1), []) &&
      m[ReadLine] == 0 && m[WriteResponse] == 0 && m[SslShutdown] == 0 &&
      m[SslBioFree] == 1 && m[InBufFree] == 1 &&
      (stream ==> Diag(HandshakeError) in t.out)
  {
    var pre := Refused(c, stream, q0);
    FreeTailCounts(stream, c.handshake.errs, pre, Handle(c, stream, q0).out);
  }

  /** The events of the whole connection once the handshake succeeded and
      the read loop handed over to `Failed` or `WritingResponse`. */
  lemma ServedEvents(c: ConnScript, stream: bool, q0: seq<ErrorRecord>)
    requires c.handshake.ok && LoopExit(c.incoming) != Blocked
    ensures var consumed := c.incoming[..LoopLength(c.incoming)];
      var tail := Finish(c, stream, LoopExit(c.incoming), c.handshake.errs + ReadErrs(consumed));
      (LoopExit(c.incoming) == Failed || LoopExit(c.incoming) == WritingResponse) &&
      Handle(c, stream, q0) == Transition(tail.next, [InBufAlloc, Handshake] + ReadEvents(stream, consumed) + tail.out)
  {
    HandleIsSummary(c, stream, q0);
  }

  lemma FinishEventsOnly(c: ConnScript, stream: bool, p: Phase, q: seq<ErrorRecord>)
    requires p == Failed || p == WritingResponse
    ensures forall e :: e in Finish(c, stream, p, q).out ==> HandlerEvent(e)
  {
    var t := Finish(c, stream, p, q);
    if p == Failed {
      assert t == CloseWith(stream, q, 1);
    } else if c.write.count == ResponseLength {
      assert t == Prepend([WriteResponse, SslShutdown], CloseWith(stream, q + c.write.errs + c.shutdownErrs, 0));
    } else {
      assert t == Prepend([WriteResponse] + Diagnose(stream, ShortWrite), CloseWith(stream, q + c.write.errs, 1));
    }
  }

  /** A served connection in three parts: the handshake, the events of the
      loop `ev` and the events past it `tail`, each with what it contains. */
  lemma Served(c: ConnScript, stream: bool, q0: seq<ErrorRecord>) returns (ev: seq<Event>, tail: seq<Event>)
    requires c.handshake.ok
    ensures Handle(c, stream, q0).out == [InBufAlloc, Handshake] + ev + tail
    ensures var m := multiset(ev);
      m[ReadLine] == LoopLength(c.incoming) && m[WriteResponse] == 0 && m[SslShutdown] == 0 &&
      m[SslBioFree] == 0 && m[InBufFree] == 0
    ensures Echoes(ev) == GotLines(c.incoming[..LoopLength(c.incoming)]) && Dumped(ev) == []
    ensures var j := FirstEnd(c.incoming);
      j < |c.incoming| && stream && c.incoming[j].Ended? && c.incoming[j].code != SslErrorZeroReturn ==>
        Diag(ReadError(c.incoming[j].code)) in ev
    ensures LoopExit(c.incoming) == Blocked ==> tail == [] && Handle(c, stream, q0).next.phase == Blocked
    ensures LoopExit(c.incoming) != Blocked ==>
      var exit := LoopExit(c.incoming); var m := multiset(tail);
      var exact := exit == WritingResponse && c.write.count == ResponseLength;
      Handle(c, stream, q0).next == State(Closed(if exact && Pending(c) == [] then 0 else 1), []) &&
      m[SslBioFree] == 1 && m[InBufFree] == 1 && m[ReadLine] == 0 &&
      m[WriteResponse] == (if exit == WritingResponse then 1 else 0) &&
      m[SslShutdown] == (if exact then 1 else 0) &&
      (stream && exit == WritingResponse && !exact ==> Diag(ShortWrite) in tail) &&
      Echoes(tail) == [] && Dumped(tail) == (if stream then Pending(c) else [])
  {
    var rs := c.incoming;
    var consumed := rs[..LoopLength(rs)];
    var q1 := c.handshake.errs + ReadErrs(consumed);
    ev := ReadEvents(stream, consumed);
    ReadEventsFacts(stream, consumed);
    var j := FirstEnd(rs);
    if j < |rs| && stream && rs[j].Ended? && rs[j].code != SslErrorZeroReturn {
      LastRead(rs);
      ReadErrorReported(stream, consumed, rs[j]);
    }
    if LoopExit(rs) != Blocked {
      tail := Finish(c, stream, LoopExit(rs), q1).out;
      ServedEvents(c, stream, q0);
      FinishFacts(c, stream, LoopExit(rs), q1);
    } else {
      tail := [];
      HandleIsSummary(c, stream, q0);
    }
  }

  /** After a successful handshake the loop performs exactly `LoopLength` reads
      (one per iteration, none after the read that ends the request) and
      echoes every line it read, the terminator included, in order. */
  lemma RequestReadUntilEnd(c: ConnScript, stream: bool, q0: seq<ErrorRecord>)
    requires c.handshake.ok
    ensures var t := Handle(c, stream, q0); var k := LoopLength(c.incoming);
      multiset(t.out)[ReadLine] == k && Echoes(t.out) == GotLines(c.incoming[..k])
  {
    var ev, tail := Served(c, stream, q0);
    ServedParts(ev, tail, Handle(c, stream, q0).out);
  }

  /** The events of a non-empty run of reads end with those of its last read. */
  lemma {:induction false} ReadEventsEndWith(stream: bool, rs: seq<ReadResult>)
    requires rs != []
    ensures ReadEvents(stream, rs) == ReadEvents(stream, rs[..|rs| - 1]) + ReadOne(stream, rs[|rs| - 1])
  {
    if |rs| == 1 {
      assert rs[..0] == [];
      assert rs[1..] == [];
    } else {
      ReadEventsEndWith(stream, rs[1..]);
      assert rs[1..][..|rs| - 2] == rs[..|rs| - 1][1..];
      assert rs[..|rs| - 1][0] == rs[0];
    }
  }

  /** How the read loop ends decides whether the response is written: a read
      error other than SSL_ERROR_ZERO_RETURN returns 1 with no write and no
      TLS shutdown; a clean close, a terminator line or a received
      close_notify leads to exactly one write. */
  lemma ReadOutcomeDecidesWrite(c: ConnScript, stream: bool, q0: seq<ErrorRecord>)
    requires c.handshake.ok && FirstEnd(c.incoming) < |c.incoming|
    ensures var t := Handle(c, stream, q0); var r := c.incoming[FirstEnd(c.incoming)];
      (r.Ended? && r.code != SslErrorZeroReturn ==>
         t.next == State(Closed(1), []) && multiset(t.out)[WriteResponse] == 0 &&
         multiset(t.out)[SslShutdown] == 0 && (stream ==> Diag(ReadError(r.code)) in t.out)) &&
      (!(r.Ended? && r.code != SslErrorZeroReturn) ==> multiset(t.out)[WriteResponse] == 1)
  {
    var ev, tail := Served(c, stream, q0);
    LastRead(c.incoming);
    ServedParts(ev, tail, Handle(c, stream, q0).out);
  }

  /** One more read on top of the reads before it, left as the trace `t` and
      queue `q`, are the first `i + 1` reads' events and records. */
  lemma ReadStep(stream: bool, rs: seq<ReadResult>, i: nat, t0: seq<Event>, t1: seq<Event>, t: seq<Event>,
                 q0: seq<ErrorRecord>, q1: seq<ErrorRecord>, q: seq<ErrorRecord>)
    requires i < |rs|
    requires t1 == t0 + ReadEvents(stream, rs[..i]) && q1 == q0 + ReadErrs(rs[..i])
    requires t == t1 + ReadOne(stream, rs[i]) && q == q1 + rs[i].errs
    ensures t == t0 + ReadEvents(stream, rs[..i + 1]) && q == q0 + ReadErrs(rs[..i + 1])
  {
    ReadEventsGrow(stream, rs, i);
  }

  /** The read loop stopped after its `n`-th read (or, `blocked`, ran out of
      reads) having left trace `t` and queue `q`: those are the consumed reads'
      events and records, and the flags say where the loop hands over. */
  lemma LoopDone(stream: bool, rs: seq<ReadResult>, n: nat, t0: seq<Event>, t: seq<Event>,
                 q0: seq<ErrorRecord>, q: seq<ErrorRecord>, failed: bool, blocked: bool)
    requires n <= |rs| && (n == FirstEnd(rs) + 1 || n == FirstEnd(rs) == |rs|)
    requires t == t0 + ReadEvents(stream, rs[..n]) && q == q0 + ReadErrs(rs[..n])
    requires blocked <==> FirstEnd(rs) == |rs|
    requires !blocked ==> (failed <==> rs[n - 1].Ended? && rs[n - 1].code != SslErrorZeroReturn)
    requires blocked ==> !failed
    ensures var consumed := rs[..LoopLength(rs)];
      t == t0 + ReadEvents(stream, consumed) && q == q0 + ReadErrs(consumed) &&
      blocked == (LoopExit(rs) == Blocked) && failed == (LoopExit(rs) == Failed)
  {
    assert LoopLength(rs) == n;
  }

  /** The read that ends the request is the last one the loop performs. */
  lemma LastRead(rs: seq<ReadResult>)
    requires FirstEnd(rs) < |rs|
    ensures LoopLength(rs) == FirstEnd(rs) + 1
    ensures rs[..LoopLength(rs)][FirstEnd(rs)] == rs[FirstEnd(rs)]
    ensures LoopExit(rs) == RequestEnd(rs[FirstEnd(rs)])
  {
  }

  /** A read error is reported on the error stream. */
  lemma ReadErrorReported(stream: bool, consumed: seq<ReadResult>, r: ReadResult)
    requires consumed != [] && consumed[|consumed| - 1] == r
    requires r.Ended? && r.code != SslErrorZeroReturn && stream
    ensures Diag(ReadError(r.code)) in ReadEvents(stream, consumed)
  {
    ReadEventsEndWith(stream, consumed);
    var one := ReadOne(stream, r);
    assert one == [ReadLine, Diag(ReadError(r.code))];
    assert one[1] == ReadEvents(stream, consumed)[|ReadEvents(stream, consumed[..|consumed| - 1])| + 1];
  }

  /** Once the request was read, a short write returns 1 and skips the TLS
      shutdown; an exact write is followed by exactly one shutdown. */
  lemma WriteCountDecidesShutdown(c: ConnScript, stream: bool, q0: seq<ErrorRecord>)
    requires c.handshake.ok && LoopExit(c.incoming) == WritingResponse
    ensures var t := Handle(c, stream, q0);
      (c.write.count != ResponseLength ==>
         t.next == State(Closed(1), []) && multiset(t.out)[SslShutdown] == 0 &&
         (stream ==> Diag(ShortWrite) in t.out)) &&
      (c.write.count == ResponseLength ==> multiset(t.out)[SslShutdown] == 1)
  {
    var ev, tail := Served(c, stream, q0);
    ServedParts(ev, tail, Handle(c, stream, q0).out);
  }

  /** Every return goes through cleanup: the channel and the buffer are each
      released exactly once, every pending record is dumped to the error
      stream, the queue is left empty, and a non-empty queue makes the exit
      code 1 even on the success path. A blocked handler has released nothing. */
  lemma CleanupOnEveryReturn(c: ConnScript, stream: bool, q0: seq<ErrorRecord>)
    ensures var t := Handle(c, stream, q0);
      (t.next.phase.Closed? ==>
         t.next.queue == [] &&
         multiset(t.out)[SslBioFree] == 1 && multiset(t.out)[InBufFree] == 1 &&
         Dumped(t.out) == (if stream then Pending(c) else []) &&
         (Pending(c) != [] ==> t.next.phase.exitCode == 1)) &&
      (t.next.phase.Blocked? ==> multiset(t.out)[SslBioFree] == 0 && multiset(t.out)[InBufFree] == 0)
  {
    var out := Handle(c, stream, q0).out;
    if !c.handshake.ok {
      var pre := Refused(c, stream, q0);
      FreeTailCounts(stream, c.handshake.errs, pre, out);
      FreeTailQuiet(stream, c.handshake.errs, pre, out);
    } else {
      var ev, tail := Served(c, stream, q0);
      ServedParts(ev, tail, out);
    }
  }

  /** The handler returns 0 exactly when the handshake succeeded, the request
      ended cleanly, the whole response was written and no call left a record
      on the error queue; otherwise it returns 1 (or never returns). */
  lemma ExitCodeZeroIff(c: ConnScript, stream: bool, q0: seq<ErrorRecord>)
    ensures var t := Handle(c, stream, q0);
      (t.next.phase == Closed(0) <==>
         c.handshake.ok && LoopExit(c.incoming) == WritingResponse &&
         c.write.count == ResponseLength && Pending(c) == []) &&
      (t.next.phase.Closed? ==> t.next.phase.exitCode == 0 || t.next.phase.exitCode == 1)
  {
    HandleIsSummary(c, stream, q0);
    if c.handshake.ok && LoopExit(c.incoming) != Blocked {
      var consumed := c.incoming[..LoopLength(c.incoming)];
      FinishEvents(c, stream, LoopExit(c.incoming), c.handshake.errs + ReadErrs(consumed));
    }
  }

  /** Records left on the queue before the connection never influence it: the
      handler clears the queue before its first call. */
  lemma HandleIgnoresEarlierErrors(c: ConnScript, stream: bool, q0: seq<ErrorRecord>)
    ensures Handle(c, stream, q0) == Handle(c, stream, [])
  {
    HandleIsSummary(c, stream, q0);
    HandleIsSummary(c, stream, []);
  }

  /** A client that sends a bare newline right after the handshake gets
      exactly the fixed response, then a TLS shutdown and cleanup. */
  lemma BareNewlineGetsResponse(stream: bool, q0: seq<ErrorRecord>, later: seq<ReadResult>)
    ensures var c := ConnScript(Call(true, []), [Got("\n", false, [])] + later, WriteResult(ResponseLength, []), []);
      Handle(c, stream, q0) ==
        Transition(State(Closed(0), []),
                   [InBufAlloc, Handshake, ReadLine, Echo("\n"), WriteResponse, SslShutdown, SslBioFree, InBufFree])
  {
    var c := ConnScript(Call(true, []), [Got("\n", false, [])] + later, WriteResult(ResponseLength, []), []);
    var r := Got("\n", false, []);
    assert FirstEnd(c.incoming) == 0 && LoopLength(c.incoming) == 1 && LoopExit(c.incoming) == WritingResponse by {
      assert CString("\n") == ['\n'] + CString([]);
      assert IsTerminator(r.line);
    }
    assert c.incoming[..1] == [r];
    assert ReadEvents(stream, [r]) == [ReadLine, Echo("\n")] by {
      assert ReadEvents(stream, [r]) == [ReadLine, Echo("\n")] + ReadEvents(stream, []);
    }
    assert ReadErrs([r]) == [] by {
      assert ReadErrs([r]) == [] + ReadErrs([]);
    }
    var tail := Finish(c, stream, WritingResponse, []);
    assert tail == Transition(State(Closed(0), []), [WriteResponse, SslShutdown, SslBioFree, InBufFree]) by {
      FinishEvents(c, stream, WritingResponse, []);
    }
    ServedEvents(c, stream, q0);
  }

  /** The handler only allocates, calls and releases its own resources: it
      never touches the context or the accept BIO of the server. */
  lemma HandleEventsOnly(c: ConnScript, stream: bool, q0: seq<ErrorRecord>)
    ensures forall e :: e in Handle(c, stream, q0).out ==> HandlerEvent(e)
  {
    if !c.handshake.ok {
      var pre := Refused(c, stream, q0);
      var d := DrainQueue(stream, c.handshake.errs);
      assert forall e :: e in [SslBioFree, InBufFree] + d ==> HandlerEvent(e) by {
        assert d == [] || d == [Diag(QueueDump(c.handshake.errs))];
      }
      HandlerEventsConcat(pre, [SslBioFree, InBufFree] + d);
    } else {
      var consumed := c.incoming[..LoopLength(c.incoming)];
      var ev := ReadEvents(stream, consumed);
      ReadEventsOnly(stream, consumed);
      if LoopExit(c.incoming) == Blocked {
        HandleIsSummary(c, stream, q0);
        assert Handle(c, stream, q0).out == [InBufAlloc, Handshake] + ev;
        HandlerEventsConcat([InBufAlloc, Handshake], ev);
      } else {
        var tail := Finish(c, stream, LoopExit(c.incoming), c.handshake.errs + ReadErrs(consumed)).out;
        ServedEvents(c, stream, q0);
        FinishEventsOnly(c, stream, LoopExit(c.incoming), c.handshake.errs + ReadErrs(consumed));
        HandlerEventsConcat([InBufAlloc, Handshake], ev);
        HandlerEventsConcat([InBufAlloc, Handshake] + ev, tail);
      }
    }
  }

  lemma HandlerEventsConcat(a: seq<Event>, b: seq<Event>)
    requires forall e :: e in a ==> HandlerEvent(e)
    requires forall e :: e in b ==> HandlerEvent(e)
    ensures forall e :: e in a + b ==> HandlerEvent(e)
  {
  }

  lemma {:induction false} ReadEventsOnly(stream: bool, rs: seq<ReadResult>)
    ensures forall e :: e in ReadEvents(stream, rs) ==> HandlerEvent(e)
  {
    if rs != [] {
      ReadEventsOnly(stream, rs[1..]);
      assert ReadEvents(stream, rs) == ReadOne(stream, rs[0]) + ReadEvents(stream, rs[1..]);
    }
  }
}
