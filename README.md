# Connection control flow of a minimal TLS server

This project models the control flow of `Chapter09/tls-server.c`, a TLS server
that serves one connection at a time over OpenSSL:

- `run_tls_server` creates the TLS context and performs the ordered setup, first failure
  wins:
  - load the key pair;
  - load the certificate chain;
  - check that key and certificate match;
  - create the accept BIO and bind.
- It then checks the OpenSSL error queue and runs the accept loop.
- `handle_accepted_connection` drives each accepted connection:
  - handshake;
  - a line-by-line read of the request until a bare `"\r\n"` or `"\n"`, a clean close or
    the peer's close_notify;
  - the fixed HTTP response;
  - `BIO_ssl_shutdown`;
  - and on every path the `cleanup:` block, which frees the channel and the buffer,
    dumps and clears the error queue and turns a non-empty queue into exit code 1.

No cryptography is modelled. Every OpenSSL or socket call is an outcome taken from a
script (module `Collaborators`):

- `Call(ok, errs)` for a call checked with `err <= 0`;
- `ReadResult` for `BIO_get_line`;
- `WriteResult` for `BIO_write`;
- `AcceptResult` for `BIO_do_accept`.

Each outcome comes with the error records it leaves on OpenSSL's error queue. What the
program does is recorded as a trace of `Event`s:

- collaborator calls;
- allocations and frees;
- echoed request lines;
- diagnostics written to the error stream.

The read loop (tls-server.c:169) and the accept loop (`while (1)`, tls-server.c:91)
run over finite scripts. A connection whose reads run out is blocked for ever in
`BIO_get_line` (phase `Blocked`). A server whose accepts run out is blocked for ever
in `BIO_do_accept` (phase `Waiting`).

The model has three layers:

- **State machines** (`Connection.Step`/`Run`/`Handle` and `Server.Step`/`Run`/`Serve`)
  have one phase per stage of the C code and terminate by a rank. They are the
  reference definitions.
- **Closed forms**:
  - `Connection.Summary` gives the whole connection as one case analysis, through
    `LoopLength`, `LoopExit` and `Finish`;
  - `Server.Setup` and `Server.Summary` do the same for the setup.
  - Lemmas prove each closed form equal to its machine (`HandleIsSummary`,
    `ServeIsSummary`, `ServeIsSetupThenRun`).
  - The behavioural properties of the source are then proved about the machines.
- **Imperative code** (`Runtime.TlsRuntime`) is a class whose fields are the
  error queue and the trace. Its methods follow the C functions statement by statement:
  - `ERR_clear_error`;
  - the `goto failure` / `cleanup:` structure;
  - the read loop;
  - the copy of each line into the 16 KiB `in_buf` array and the `strcmp` on it;
  - the accept loop.

  Each method is proved to leave exactly the trace and queue of a definition in the pure
  modules.
  - `RunRequest`, `HandleAcceptedConnection`, `AcceptLoop` and `RunTlsServer` are
    specified against machine runs (`Connection.Run`, `Connection.Handle`, `Server.Run`,
    `Server.Serve`).
  - `AcceptOnce` is specified against `Server.Attempt`, one step of the server machine.
  - The others are specified against closed forms or event sequences, which lemmas tie
    to the machines:
    - `ReceiveRequest` against `ReadEvents` and `ReadErrs`;
    - `CloseConnection` against `CloseWith`;
    - `FinishConnection` and `ServeRequest` against `Finish`;
    - `SetUp` against `Server.Setup`;
    - `CloseServer` against `Server.Cleanup`;
    - `SendResponse` and `SetupStep` against the events and records of their own stage.

The result of `BIO_ssl_shutdown` is not checked (tls-server.c:207). Records it leaves on
the queue still make the handler return 1 at `cleanup:`, and `Connection.ExitCodeZeroIff`
counts them among those that force exit code 1.

## Model

| member | source | states |
|---|---|---|
| Collaborators.Diagnose | Chapter09/tls-server.c:159-160 | a diagnostic reaches the error stream exactly when there is one, at most once, and it is `Diag(d)` for the cause `d` |
| Connection.Handle | Chapter09/tls-server.c:145-228 | definition: one call of the handler, the run of its machine from entry; properties in `HandleIsSummary`, `CleanupOnEveryReturn`, `ExitCodeZeroIff`, `HandleIgnoresEarlierErrors` |
| Connection.IsTerminator | Chapter09/tls-server.c:182 | definition: the two `strcmp` tests on the NUL-terminated buffer; properties in `TerminatorIsBlankLine` |
| Connection.Ends | Chapter09/tls-server.c:169-183 | definition: a read after which no further read is made; properties in `FirstEnd`, `LoopLength` |
| Connection.ReadOne | Chapter09/tls-server.c:170-181 | definition: the events of one read (the read, then the echo or the read-error report); properties in `ReadOneFacts` |
| Connection.AfterRead | Chapter09/tls-server.c:169-183 | definition: the stage after one read (the next read, the write or `failure:`); properties in `ReadingRun` |
| Connection.RequestEnd | Chapter09/tls-server.c:171-183 | definition: where the read that stops the loop leads; properties in `ReadOutcomeDecidesWrite` |
| Connection.ReadEvents | Chapter09/tls-server.c:169-184 | definition: the events of the consumed reads in order; properties in `ReadEventsFacts`, `ReadEventsAppend` |
| Connection.ReadErrs | Chapter09/tls-server.c:169-184 | definition: the records the consumed reads leave, in order; properties in `ReadEventsAppend`, `ReadEventsGrow` |
| Connection.LoopExit | Chapter09/tls-server.c:169-184 | definition: where the read loop hands over; properties in `ReadingRun`, `ReadOutcomeDecidesWrite` |
| Connection.CloseWith | Chapter09/tls-server.c:213-227 | definition: the handler's `cleanup:`; properties in `CleanupOnEveryReturn` |
| Connection.Respond | Chapter09/tls-server.c:196-209 | definition: the write, then the shutdown or the short-write report, then cleanup; properties in `FinishExactFacts`, `FinishShortFacts`, `WriteCountDecidesShutdown` |
| Connection.Finish | Chapter09/tls-server.c:196-227 | definition: the handler past its read loop; properties in `FinishFacts`, `FinishRun` |
| Connection.Summary | Chapter09/tls-server.c:145-228 | definition: the whole handler as one case analysis; proved equal to `Handle` in `HandleIsSummary` |
| Connection.Pending | Chapter09/tls-server.c:155-218 | definition: the records on the queue when `cleanup:` peeks it; properties in `CleanupOnEveryReturn`, `ExitCodeZeroIff` |
| Server.Serve | Chapter09/tls-server.c:40-143 | definition: one call of `run_tls_server`, the run of its machine from entry; properties in `ServeIsSummary`, `SetupFailureStops`, `ServeReturnsOnlyOnFailure` |
| Server.SetupCall | Chapter09/tls-server.c:52-83 | definition: one setup call checked with `err <= 0`, reported on failure; properties in `SetupCallRun`, `SetupCallAt` |
| Server.SetupCalls | Chapter09/tls-server.c:52-83 | definition: the four setup calls in source order; properties in `FirstFailure`, `SetupTraceCalls` |
| Server.SetupCallEvents | Chapter09/tls-server.c:52-83 | definition: the events of one setup call, `BIO_new_accept` before the bind; properties in `SetupCallEventsCalls`, `SetupCallEventsResources` |
| Server.SetupTrace | Chapter09/tls-server.c:47-83 | definition: the events of the setup up to a given call; properties in `SetupTraceGrows`, `SetupTraceCalls`, `SetupTraceResources` |
| Server.SetupErrs | Chapter09/tls-server.c:47-83 | definition: the records the first setup calls leave; properties in `Reaches`, `SetupFailureStops` |
| Server.Cleanup | Chapter09/tls-server.c:125-142 | definition: `failure:` and `cleanup:` of the server; properties in `FreesFacts`, `SetupFailureFrees` |
| Server.Attempt | Chapter09/tls-server.c:96-121 | definition: one iteration of the accept loop; properties in `AcceptFailureRetries`, `AcceptedRunsHandler` |
| Server.Setup | Chapter09/tls-server.c:47-89 | definition: the setup as one transition, to `failure:` or into the loop; proved the prefix of `Serve` in `ServeIsSetupThenRun` |
| Server.Summary | Chapter09/tls-server.c:40-143 | definition: the whole server as one case analysis; proved equal to `Serve` in `ServeIsSummary` |
| Runtime.LinesFit | Chapter09/tls-server.c:170 | definition: every scripted line fits `in_buf` with its NUL, as `BIO_get_line` with `BUF_SIZE` guarantees; required by the methods that read |
| Runtime.AllLinesFit | Chapter09/tls-server.c:119 | definition: `LinesFit` for every accepted connection |
| Runtime.TlsRuntime.Perform | Chapter09/tls-server.c:49 | a collaborator call is recorded and its records are queued, nothing else changes |
| Collaborators.DrainQueue | Chapter09/tls-server.c:218-225 | the queue is dumped once, exactly when a stream exists and records are pending, and the stream receives exactly the pending records |
| Connection.ResponseLengthIsStrlen | Chapter09/tls-server.c:187-194 | the byte count the write is compared with is `strlen` of the fixed response, 119 |
| Connection.CString | Chapter09/tls-server.c:182 | what `strcmp` compares is the longest NUL-free prefix of the buffer, ended by the first NUL if there is one |
| Connection.TerminatorIsBlankLine | Chapter09/tls-server.c:182-183 | for lines `BIO_get_line` can deliver, the two `strcmp` tests hold exactly when the line is a bare CRLF or a bare LF |
| Connection.FirstEnd | Chapter09/tls-server.c:169-184 | the index found is the first read after which the loop stops: every earlier read lets it go on |
| Connection.LoopLength | Chapter09/tls-server.c:169-184 | every read the loop performs but the last is a non-terminator line without close_notify, and when the loop stops early its last read ended it |
| Connection.Step | Chapter09/tls-server.c:145-228 | every stage of the handler that has not returned or blocked moves to a stage of smaller rank; a returned or blocked handler stays put |
| Connection.Run | Chapter09/tls-server.c:145-228 | the handler always ends returned or blocked |
| Connection.HandleStart | Chapter09/tls-server.c:152-162 | the buffer is allocated and the queue cleared before the handshake; a failed handshake is reported and goes to `failure:` with the handshake's records pending, a successful one to the first read |
| Connection.FinishRun | Chapter09/tls-server.c:196-227 | from the end of the read loop or from `failure:`, the handler does what the closed form `Finish` says |
| Connection.ReadingRunLast | Chapter09/tls-server.c:169-184 | the read that stops the loop is its last read and hands over as `LoopExit` says |
| Connection.ReadingRunCons | Chapter09/tls-server.c:169-184 | one more read in front of the remaining reads adds its events and records in front |
| Connection.ReadingRun | Chapter09/tls-server.c:169-184 | the loop entered before any read up to the stopping one consumes exactly the reads up to and including it, in order, and hands over as `LoopExit` says |
| Connection.RequestRun | Chapter09/tls-server.c:169-227 | the connection after its handshake is the read loop's events followed by `Finish` |
| Connection.RequestRunAfter | Chapter09/tls-server.c:169-227 | a trace and queue reached by the closed form of the rest of the connection are the ones its machine reaches |
| Connection.HandshakeFailsRun | Chapter09/tls-server.c:157-162 | a connection whose handshake fails runs, from its first call on, as the closed form says |
| Connection.HandshakeSucceedsRun | Chapter09/tls-server.c:164-227 | a connection whose handshake succeeds runs, from its first call on, as the closed form says |
| Connection.HandleIsSummary | Chapter09/tls-server.c:145-228 | the state machine and the closed form describe the same handler, whatever queue it is entered with |
| Connection.ReadOneFacts | Chapter09/tls-server.c:170-181 | one read is one `BIO_get_line`; it echoes its line when it got one and writes, shuts down and frees nothing |
| Connection.ReadEventsFacts | Chapter09/tls-server.c:169-184 | the loop's events make one `BIO_get_line` per consumed read, echo the lines read in order, and write, shut down, free and dump nothing |
| Connection.ReadEventsAppend | Chapter09/tls-server.c:169-184 | consuming reads one after the other concatenates their events and their records |
| Connection.ReadEventsGrow | Chapter09/tls-server.c:169-184 | one more read adds its own events and records at the end |
| Connection.FinishFailedFacts | Chapter09/tls-server.c:211-227 | after a failure the handler returns 1 with no write and no shutdown, frees both resources once and dumps the pending records |
| Connection.FinishExactFacts | Chapter09/tls-server.c:199-227 | after an exact write the shutdown is called once, both resources are freed once, and the exit code is 0 exactly when no records are pending |
| Connection.FinishShortFacts | Chapter09/tls-server.c:199-227 | after a short write the handler reports it, skips the shutdown, frees both resources once and returns 1 |
| Connection.FinishFacts | Chapter09/tls-server.c:196-227 | what follows the read loop, on each of its two exits, in counts and in what reaches the streams |
| Connection.Refused | Chapter09/tls-server.c:157-162 | a refused connection is its handshake and report, then cleanup of the handshake's records with exit code 1 |
| Connection.HandshakeFailureSkipsRequest | Chapter09/tls-server.c:157-162 | a failed handshake returns 1 with no read, no write and no TLS shutdown, frees channel and buffer exactly once and is reported |
| Connection.ServedEvents | Chapter09/tls-server.c:164-227 | a served connection that is not blocked is the handshake, the loop's events and the events past the loop |
| Connection.Served | Chapter09/tls-server.c:164-227 | the three parts of a served connection, each with its reads, echoes, write, shutdown, frees, dumps and exit code |
| Connection.RequestReadUntilEnd | Chapter09/tls-server.c:169-184 | after a handshake the handler performs exactly `LoopLength` reads and echoes every line read, the terminator included, in order |
| Connection.ReadErrorReported | Chapter09/tls-server.c:176-178 | a read error other than SSL_ERROR_ZERO_RETURN is reported on the error stream |
| Connection.ReadOutcomeDecidesWrite | Chapter09/tls-server.c:170-179 | a read error other than SSL_ERROR_ZERO_RETURN returns 1 with no write and no shutdown and is reported; a clean close, a terminator or a close_notify leads to exactly one write |
| Connection.WriteCountDecidesShutdown | Chapter09/tls-server.c:199-207 | a write count other than `response_length` returns 1, skips `BIO_ssl_shutdown` and is reported; an exact count is followed by exactly one shutdown |
| Connection.CleanupOnEveryReturn | Chapter09/tls-server.c:211-227 | every return frees `ssl_bio` and `in_buf` exactly once, dumps every record left by the connection's calls, leaves the queue empty and returns 1 when any record was left; a blocked handler has freed nothing |
| Connection.ExitCodeZeroIff | Chapter09/tls-server.c:146-227 | the handler returns 0 exactly when the handshake succeeded, the request ended cleanly, the write was exact and no call left a record; it returns only 0 or 1 |
| Connection.HandleIgnoresEarlierErrors | Chapter09/tls-server.c:155 | records pending before the handler never influence it |
| Connection.BareNewlineGetsResponse | Chapter09/tls-server.c:169-207 | a client that sends a bare LF gets exactly the response, a shutdown, cleanup and exit code 0, whatever it would send later |
| Connection.HandleEventsOnly | Chapter09/tls-server.c:145-228 | the handler touches only its own buffer and channel, never the server's context or accept BIO |
| Server.Step | Chapter09/tls-server.c:40-143 | every stage of the server that has not returned or blocked moves to a stage of smaller rank |
| Server.Run | Chapter09/tls-server.c:40-143 | the server always ends returned or blocked |
| Server.SetupDiagnostic | Chapter09/tls-server.c:52-83 | no setup diagnostic is a queue dump |
| Server.FirstFailure | Chapter09/tls-server.c:52-83 | every setup call before the index found succeeds and the one at it fails |
| Server.SetupTraceGrows | Chapter09/tls-server.c:52-83 | each setup call adds its own events after those of the calls before it, `BIO_new_accept` just before the bind |
| Server.SetupCallRun | Chapter09/tls-server.c:52-83 | a setup call leads to the next stage on success and, on failure, to its diagnostic and cleanup |
| Server.CheckingQueueRun | Chapter09/tls-server.c:85-89 | records pending after the bind are reported and lead to cleanup; an empty queue leads into the accept loop |
| Server.SetupCallAt | Chapter09/tls-server.c:52-83 | the same, for setup call number `n` in source order |
| Server.Reaches | Chapter09/tls-server.c:47-83 | while the setup calls succeed, the run reaches each next one after the events of those before it, with their records pending |
| Server.FailsAt | Chapter09/tls-server.c:52-83 | the first failing setup call makes no later call, writes its diagnostic and goes to cleanup |
| Server.ServeIsSummary | Chapter09/tls-server.c:40-143 | the state machine and the closed form describe the same server, whatever queue it is entered with |
| Server.ServeIsSetupThenRun | Chapter09/tls-server.c:40-143 | a run of the server is its setup, then the run from where the setup leads |
| Server.ServeFromSetup | Chapter09/tls-server.c:40-143 | a trace and queue reached through the setup and the rest of the run are the ones the whole run reaches |
| Server.ListeningStep | Chapter09/tls-server.c:91-121 | one iteration of the accept loop keeps the events done and the run to come adding up to the whole run, or ends the run blocked |
| Server.LoopEventsMakeNoSetupCall | Chapter09/tls-server.c:91-121 | the accept loop's events repeat no setup call |
| Server.SetupCallEventsCalls | Chapter09/tls-server.c:52-83 | each setup call's events make that call and dump nothing |
| Server.SetupCallEventsResources | Chapter09/tls-server.c:52-83 | only the bind step allocates the accept BIO; no setup call frees or accepts |
| Server.SetupTraceCalls | Chapter09/tls-server.c:52-83 | the setup so far has made the first `n` setup calls in source order and dumped nothing |
| Server.SetupTraceResources | Chapter09/tls-server.c:44-83 | the setup allocates the context once and the accept BIO once the bind is reached, and frees nothing |
| Server.FreesFacts | Chapter09/tls-server.c:127-130 | cleanup frees the context once and the accept BIO once if it was allocated |
| Server.FailureTailCalls | Chapter09/tls-server.c:125-142 | from a setup failure's diagnostic to the return no setup call is made and the pending records are dumped once |
| Server.FailureTailResources | Chapter09/tls-server.c:125-142 | from a setup failure's diagnostic to the return nothing is allocated or accepted, the context is freed once, and the accept BIO once if it was allocated |
| Server.FailedSetupParts | Chapter09/tls-server.c:52-142 | a failed setup is its calls up to the failing one, then its diagnostic and cleanup, returning 1 |
| Server.SetupFailureStops | Chapter09/tls-server.c:52-89 | the setup calls are made in source order up to the first failing one and no later one; no connection is accepted, the diagnostic is written, the calls' records are dumped and the exit code is 1 |
| Server.SetupFailureFrees | Chapter09/tls-server.c:125-142 | a failed setup frees the context exactly once, and the accept BIO exactly once when it was allocated |
| Server.AcceptFailureRetries | Chapter09/tls-server.c:96-108 | a failed accept never reaches the handler; it is reported, the queue is dumped and left empty, and the next accept follows |
| Server.FailedAcceptEvents | Chapter09/tls-server.c:96-108 | a failed accept's events are the accept, its report and the dump of the pending records |
| Server.AcceptedRunsHandler | Chapter09/tls-server.c:111-121 | a successful accept runs the handler on a cleared queue and ignores its exit code: the next accept follows with an empty queue, unless the handler is blocked |
| Server.ListeningNeverExits | Chapter09/tls-server.c:91-123 | once listening the server never returns, never frees the context or the accept BIO and makes no setup call |
| Server.SetupSucceedsListens | Chapter09/tls-server.c:47-121 | a setup that succeeds with an empty queue makes exactly the four setup calls in order, once each, and never returns |
| Server.ThenLoop | Chapter09/tls-server.c:91-121 | events of the accept loop after any prefix add no setup call and no allocation or free of the context or accept BIO |
| Server.ServeReturnsOnlyOnFailure | Chapter09/tls-server.c:123-142 | the server returns exactly when a setup call fails or the setup leaves records, and then returns 1 with an empty queue; it never returns 0 |
| Server.ServeIgnoresEarlierErrors | Chapter09/tls-server.c:47 | records pending before the server starts never influence it |
| Runtime.CStringOfBuffer | Chapter09/tls-server.c:170-182 | `strcmp` on the buffer sees exactly the line just read, whatever follows its NUL |
| Runtime.TlsRuntime.ErrPeekError | Chapter09/tls-server.c:218 | the result is 0 exactly when the queue is empty, else its oldest record |
| Runtime.TlsRuntime.ErrClearError | Chapter09/tls-server.c:155 | the queue is emptied and nothing else happens |
| Runtime.TlsRuntime.Invoke | Chapter09/tls-server.c:157-158 | a scripted call is recorded, its records are queued and its outcome is returned |
| Runtime.TlsRuntime.Report | Chapter09/tls-server.c:159-160 | a diagnostic is recorded only when there is an error stream, and leaves the queue alone |
| Runtime.TlsRuntime.DrainErrorQueue | Chapter09/tls-server.c:218-225 | the pending records are dumped when there is a stream and any record, and the queue is left empty |
| Runtime.TlsRuntime.GetLine | Chapter09/tls-server.c:170 | a read that got a line copies it into the buffer and NUL-terminates it, returning its length; an ended read returns 0 and leaves the buffer untouched |
| Runtime.TlsRuntime.ReadOneLine | Chapter09/tls-server.c:170-183 | one loop body: it breaks out exactly on an ended read or a terminator line, fails exactly on a read error other than SSL_ERROR_ZERO_RETURN, and records the read's events |
| Runtime.TlsRuntime.ReceiveRequest | Chapter09/tls-server.c:169-184 | the read loop consumes exactly the reads up to the one that stops it, records their events and records in order, and reports whether it failed or is blocked |
| Runtime.TlsRuntime.SendResponse | Chapter09/tls-server.c:199-207 | the response is written, a short count is reported as a failure, and an exact count is followed by the TLS shutdown |
| Runtime.TlsRuntime.CloseConnection | Chapter09/tls-server.c:213-227 | the handler's `cleanup:` does what `CloseWith` says |
| Runtime.TlsRuntime.FinishConnection | Chapter09/tls-server.c:196-227 | the handler from the end of the read loop or a failure to its return does what `Finish` says |
| Runtime.TlsRuntime.ServeRequest | Chapter09/tls-server.c:164-227 | the handler after its handshake performs the loop's reads and then what `Finish` says, or blocks |
| Runtime.TlsRuntime.RunRequest | Chapter09/tls-server.c:164-227 | the same, as the machine run from the first read |
| Runtime.TlsRuntime.HandleAcceptedConnection | Chapter09/tls-server.c:145-228 | the handler leaves exactly the trace, queue and exit code of `Connection.Handle`, or blocks when it does |
| Runtime.TlsRuntime.SetupStep | Chapter09/tls-server.c:52-83 | setup call `n` is made, its records queued, and on failure its diagnostic is written |
| Runtime.TlsRuntime.SetUp | Chapter09/tls-server.c:47-89 | the setup leaves the trace and queue of `Server.Setup` and reports whether it ends at `failure:` and whether the accept BIO was allocated |
| Runtime.TlsRuntime.AcceptOnce | Chapter09/tls-server.c:96-121 | one iteration of the accept loop does what `Server.Attempt` says and goes on, unless the handler is blocked |
| Runtime.TlsRuntime.AcceptLoop | Chapter09/tls-server.c:91-121 | the accept loop leaves exactly the trace and queue of the machine's loop and ends only blocked |
| Runtime.TlsRuntime.CloseServer | Chapter09/tls-server.c:125-142 | `failure:` and `cleanup:` of the server do what `Server.Cleanup` says and return 1 |
| Runtime.TlsRuntime.RunTlsServer | Chapter09/tls-server.c:40-143 | the server leaves exactly the trace, queue and exit code of `Server.Serve`, or waits for ever when it does |

Proof helpers have no row of their own, because they unfold a definition or carry a
proof from one form to another and model no source line:

- `Connection.CloseRun`, `ReadingRunNext`, `ReadingRunEnds`, `LastRead`, `FinishEvents`,
  `ReadStep`, `LoopDone`;
- `Server.StepThenRun`, `FailingRun`, `SetupAdvance`, `SetupChecked`, `ListeningEnd`,
  `PrependJoin`;
- and the sequence lemmas (`PrependPrepend`, `AfterPrepend`, `EchoesAppend`,
  `DumpedAppend`, `SetupCallsInAppend` and similar).

## Left out

- Cryptography and OpenSSL semantics are not modelled: key and certificate parsing, the
  key check, the handshake and record encryption are foreign calls. Each is a scripted
  outcome with its error records.
- `SSL_CTX_set_mode(ctx, SSL_MODE_AUTO_RETRY)` is left out. It has no observable effect
  in the model.
- Socket and BIO plumbing (`BIO_new_accept`, `BIO_pop`, `BIO_new_ssl`, `BIO_push`,
  `BIO_get_ssl`) is not modelled. Its effect is one event for each allocation and each free.
- The calls whose results the C code `assert`s (`SSL_CTX_new`, `BIO_new_accept`, `malloc`,
  `BIO_pop`, `BIO_new_ssl`, `BIO_get_ssl`) are taken to succeed. A failed `assert`
  aborts the process, and the model does not cover that.
- The calls whose results the C code does not check leave no records on the error queue
  in the model. These are:
  - `SSL_CTX_new` and `BIO_new_accept` (`Perform(CtxNew, [])`, `Perform(AcceptBioNew, [])`);
  - `SSL_CTX_set_mode`;
  - `BIO_pop`, `BIO_new_ssl` and `BIO_push`;
  - the frees just before `ERR_peek_error` (tls-server.c:128-131, 214-216).

  A record such a call leaves is to be read as left by the adjacent scripted call. The
  "exactly when" of `Server.ServeReturnsOnlyOnFailure` and of
  `Connection.ExitCodeZeroIff` holds under this reading.
- Because `BIO_new_ssl` is asserted, `ssl_bio` is never NULL. The `if (ssl_bio)` test
  before `BIO_free_all` is therefore always taken.
- What `printf`, `fprintf` and `ERR_print_errors_fp` write is not recorded. The
  model keeps three things:
  - each echoed line as an `Echo` event;
  - each diagnostic by cause;
  - each queue dump with its records.

  The fixed `printf` banners ("*** Listening on port", "*** Receiving from the client",
  the copy of the response on standard output) are not events.
- `SSL_get_error` is an input: an ended read carries its code. The model returns 0 from
  `BIO_get_line` for an ended read, and the C code tests that value only with `<= 0`.
- The 16 KiB truncation of `BIO_get_line` is not modelled.
  - `BIO_get_line` never delivers more than `BUF_SIZE - 1` bytes, so a longer client line
    arrives as several reads.
  - Every script therefore satisfies `Runtime.LinesFit`.
  - The methods that read (`Runtime.TlsRuntime.GetLine`, `ReadOneLine`,
    `ReceiveRequest`, `ServeRequest`, `RunRequest`, `HandleAcceptedConnection`,
    `AcceptOnce`, `AcceptLoop`, `RunTlsServer`) require it.
- `main` (Chapter09/tls-server.c:12-38) is not part of this model, because it is argument
  handling. It accepts `argc == 3`; `argv[3]` is then NULL and is passed as the
  certificate chain file name.
- The read loop and the accept loop run over finite scripts. When a script runs out, the model stops
  in a blocked phase (`Connection.Blocked`, `Server.Waiting`) instead of waiting for ever.
  The `goto cleanup` after the accept loop cannot be reached, and `ServeReturnsOnlyOnFailure`
  proves it.
- The read loop's first test of `SSL_RECEIVED_SHUTDOWN` (tls-server.c:169) is taken to pass:
  the loop always starts with `peerClosed == false`. A close_notify received during the
  handshake, before any read, is therefore not modelled. Later tests use what each read
  reports.
- Blocking, timeouts and the process's single thread are not modelled. Each collaborator
  call returns at once with its scripted outcome.
