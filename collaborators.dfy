/** Scripted outcomes of the calls that Chapter09/tls-server.c makes into OpenSSL
    and the socket layer, and the observable events of a run.

    Nothing here models cryptography: every library call is an opaque outcome
    chosen by the script, together with the records it leaves on OpenSSL's
    error queue. */
module Collaborators {

  /** One packed record of OpenSSL's error queue. Codes are never 0, which is
      what `ERR_peek_error` returns for an empty queue. */
  type ErrorRecord = n: nat | n > 0 witness 1

  /** A call whose `int` result is checked with `err <= 0`: `ok` is a positive
      result; `errs` are the records the call appended to the error queue. */
  datatype Call = Call(ok: bool, errs: seq<ErrorRecord>)

  /** What `BIO_get_line` delivers: a positive byte count, so a non-empty line. */
  type Line = s: seq<char> | |s| > 0 witness "\n"

  /** The value of `SSL_ERROR_ZERO_RETURN` in OpenSSL's `ssl.h`. */
  const SslErrorZeroReturn: int := 6

  /** One `BIO_get_line` on the TLS channel.
      Got: it returned `|line|` bytes; `closeNotify` says whether the peer's
      close_notify had been received by the time it returned (the
      `SSL_RECEIVED_SHUTDOWN` bit that the loop tests before the next read).
      Ended: it returned a value <= 0 and `SSL_get_error` gave `code`. */
  datatype ReadResult =
    | Got(line: Line, closeNotify: bool, errs: seq<ErrorRecord>)
    | Ended(code: int, errs: seq<ErrorRecord>)

  /** `BIO_write` of the response: the byte count it returned. */
  datatype WriteResult = WriteResult(count: int, errs: seq<ErrorRecord>)

  /** Everything the collaborators of one accepted connection decide. The
      `incoming` reads are consumed in order; when the loop needs more reads than the
      script holds, the connection is blocked in `BIO_get_line` for ever. */
  datatype ConnScript = ConnScript(
    handshake: Call,
    incoming: seq<ReadResult>,
    write: WriteResult,
    shutdownErrs: seq<ErrorRecord>)

  /** One `BIO_do_accept` inside the accept loop. */
  datatype AcceptResult =
    | AcceptFailed(errs: seq<ErrorRecord>)
    | Accepted(errs: seq<ErrorRecord>, conn: ConnScript)

  /** Everything the collaborators of `run_tls_server` decide: the setup calls
      and the accept outcomes, in order. When the script runs out the server is
      blocked in `BIO_do_accept` for ever. */
  datatype ServerScript = ServerScript(
    loadKey: Call,
    loadCertChain: Call,
    checkKey: Call,
    bind: Call,
    accepts: seq<AcceptResult>)

  /** What the server writes to its error stream, by cause. */
  datatype Diagnostic =
    | KeyLoadFailed
    | CertChainLoadFailed
    | KeyCertMismatch
    | BindFailed
    | UnexpectedSetupError
    | AcceptError
    | HandshakeError
    | ReadError(code: int)
    | ShortWrite
    | QueueDump(records: seq<ErrorRecord>)

  /** The observable steps of a run: collaborator calls, resource allocation
      and release, echoed request lines and diagnostics. */
  datatype Event =
    // run_tls_server
    | CtxNew | LoadKey | LoadCertChain | CheckKey | AcceptBioNew | Bind
    | Accept | SslBioNew | AcceptBioFree | CtxFree
    // handle_accepted_connection
    | InBufAlloc | Handshake | ReadLine | Echo(line: seq<char>)
    | WriteResponse | SslShutdown | SslBioFree | InBufFree
    // either
    | Diag(d: Diagnostic)

  /** The events `handle_accepted_connection` can produce. */
  predicate HandlerEvent(e: Event) {
    e.InBufAlloc? || e.Handshake? || e.ReadLine? || e.Echo? || e.WriteResponse? ||
    e.SslShutdown? || e.SslBioFree? || e.InBufFree? || e.Diag?
  }

  /** An `fprintf` guarded by `if (error_stream)`: nothing without a stream. */
  function Diagnose(stream: bool, d: Diagnostic): (ev: seq<Event>)
    ensures |ev| <= 1
    ensures ev != [] <==> stream
    ensures ev != [] ==> ev == [Diag(d)]
  {
    if stream then [Diag(d)] else []
  }

  /** The block `if (ERR_peek_error()) { ... ERR_print_errors_fp ...;
      ERR_clear_error(); }` as seen on the error stream: the pending records
      are dumped once, and only if there are any. */
  function DrainQueue(stream: bool, q: seq<ErrorRecord>): (ev: seq<Event>)
    ensures ev != [] <==> stream && q != []
    ensures ev != [] ==> ev == [Diag(QueueDump(q))]
    ensures Dumped(ev) == (if stream then q else [])
  {
    if q == [] then [] else Diagnose(stream, QueueDump(q))
  }

  /** The request lines echoed to standard output, in order. */
  function Echoes(ev: seq<Event>): seq<seq<char>>
  {
    if ev == [] then []
    else (if ev[0].Echo? then [ev[0].line] else []) + Echoes(ev[1..])
  }

  lemma {:induction false} EchoesAppend(a: seq<Event>, b: seq<Event>)
    ensures Echoes(a + b) == Echoes(a) + Echoes(b)
  {
    if a == [] {
      assert a + b == b;
    } else {
      assert (a + b)[0] == a[0];
      assert (a + b)[1..] == a[1..] + b;
      EchoesAppend(a[1..], b);
    }
  }

  lemma EchoesSingle(e: Event)
    ensures Echoes([e]) == (if e.Echo? then [e.line] else [])
  {
    assert [e][1..] == [];
  }

  /** The records that the error stream received, in order. */
  function Dumped(ev: seq<Event>): seq<ErrorRecord>
  {
    if ev == [] then []
    else (if ev[0].Diag? && ev[0].d.QueueDump? then ev[0].d.records else []) + Dumped(ev[1..])
  }

  lemma {:induction false} DumpedAppend(a: seq<Event>, b: seq<Event>)
    ensures Dumped(a + b) == Dumped(a) + Dumped(b)
  {
    if a == [] {
      assert a + b == b;
    } else {
      assert (a + b)[0] == a[0];
      assert (a + b)[1..] == a[1..] + b;
      DumpedAppend(a[1..], b);
    }
  }

  /** Events that neither echo a line nor dump the error queue. */
  predicate Silent(ev: seq<Event>)
  {
    forall e :: e in ev ==> !e.Echo? && !(e.Diag? && e.d.QueueDump?)
  }

  lemma {:induction false} SilentIsQuiet(ev: seq<Event>)
    requires Silent(ev)
    ensures Echoes(ev) == [] && Dumped(ev) == []
  {
    if ev != [] {
      assert ev[0] in ev;
      assert forall e :: e in ev[1..] ==> e in ev;
      SilentIsQuiet(ev[1..]);
    }
  }

  lemma DumpedSingle(e: Event)
    ensures Dumped([e]) == (if e.Diag? && e.d.QueueDump? then e.d.records else [])
  {
    assert [e][1..] == [];
  }
}
