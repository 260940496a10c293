/** `run_tls_server` of Chapter09/tls-server.c as a state machine: the ordered
    setup with first-failure-wins, the check of the error queue, the accept
    loop and the cleanup that every failure reaches. */
module Server {
  import opened Collaborators
  import Connection

  // ---------------------------------------------------------------------------
  // The state machine

  datatype Phase =
    | Starting
    | LoadingKey
    | LoadingCertChain
    | CheckingKey
    | Binding
    | CheckingQueue
    /** Before the `next`-th `BIO_do_accept` of the loop. */
    | Listening(next: nat)
    /** At `failure:`; `acceptBio` says whether `accept_bio` was allocated. */
    | Failing(acceptBio: bool)
    | Exited(exitCode: int)
    /** Blocked for ever: in an accept the script does not hold, or in a
        connection handler that is itself blocked. */
    | Waiting

  datatype State = State(phase: Phase, queue: seq<ErrorRecord>)

  datatype Transition = Transition(next: State, out: seq<Event>)

  function Prepend(ev: seq<Event>, t: Transition): Transition {
    Transition(t.next, ev + t.out)
  }

  predicate Terminal(p: Phase) {
    p.Exited? || p.Waiting?
  }

  function Rank(s: ServerScript, p: Phase): nat {
    match p
    case Starting => |s.accepts| + 8
    case LoadingKey => |s.accepts| + 7
    case LoadingCertChain => |s.accepts| + 6
    case CheckingKey => |s.accepts| + 5
    case Binding => |s.accepts| + 4
    case CheckingQueue => |s.accepts| + 3
    case Listening(k) => if k < |s.accepts| then |s.accepts| - k + 2 else 2
    case Failing(_) => 1
    case Exited(_) => 0
    case Waiting => 0
  }

  /** A setup call checked with `err <= 0`: on failure its diagnostic, then
      `failure:`. */
  function SetupCall(stream: bool, q: seq<ErrorRecord>, call: Call, ev: seq<Event>, d: Diagnostic,
                     success: Phase, acceptBio: bool): Transition {
    if call.ok then Transition(State(success, q + call.errs), ev)
    else Transition(State(Failing(acceptBio), q + call.errs), ev + Diagnose(stream, d))
  }

  /** `cleanup:` after `failure:`: free what was allocated, dump the queue,
      clear it. The exit code is already 1. */
  function Cleanup(stream: bool, acceptBio: bool, q: seq<ErrorRecord>): Transition {
    Transition(State(Exited(1), []), (if acceptBio then [AcceptBioFree] else []) + [CtxFree] + DrainQueue(stream, q))
  }

  /** One iteration of the accept loop that starts with records `q` pending. */
  function Attempt(s: ServerScript, stream: bool, k: nat, q: seq<ErrorRecord>): Transition
    requires k < |s.accepts|
  {
    match s.accepts[k]
    case AcceptFailed(errs) =>
      Transition(State(Listening(k + 1), []), [Accept] + Diagnose(stream, AcceptError) + DrainQueue(stream, q + errs))
    case Accepted(errs, conn) =>
      // BIO_pop, BIO_new_ssl, BIO_push, handle_accepted_connection; the
      // handler's result is discarded
      var h := Connection.Handle(conn, stream, q + errs);
      Transition(State(if h.next.phase.Closed? then Listening(k + 1) else Waiting, h.next.queue),
                 [Accept, SslBioNew] + h.out)
  }

  function Step(s: ServerScript, stream: bool, st: State): (t: Transition)
    ensures !Terminal(st.phase) ==> Rank(s, t.next.phase) < Rank(s, st.phase)
    ensures Terminal(st.phase) ==> t == Transition(st, [])
  {
    var q := st.queue;
    match st.phase
    case Starting =>
      // ERR_clear_error(); SSL_CTX_new(...)
      Transition(State(LoadingKey, []), [CtxNew])
    case LoadingKey =>
      SetupCall(stream, q, s.loadKey, [LoadKey], KeyLoadFailed, LoadingCertChain, false)
    case LoadingCertChain =>
      SetupCall(stream, q, s.loadCertChain, [LoadCertChain], CertChainLoadFailed, CheckingKey, false)
    case CheckingKey =>
      SetupCall(stream, q, s.checkKey, [CheckKey], KeyCertMismatch, Binding, false)
    case Binding =>
      // BIO_new_accept(port), then the first BIO_do_accept binds and listens
      SetupCall(stream, q, s.bind, [AcceptBioNew, Bind], BindFailed, CheckingQueue, true)
    case CheckingQueue =>
      if q != [] then Transition(State(Failing(true), q), Diagnose(stream, UnexpectedSetupError))
      else Transition(State(Listening(0), q), [])
    case Listening(k) =>
      if k < |s.accepts| then Attempt(s, stream, k, q) else Transition(State(Waiting, q), [])
    case Failing(acceptBio) =>
      Cleanup(stream, acceptBio, q)
    case Exited(_) => Transition(st, [])
    case Waiting => Transition(st, [])
  }

  function Run(s: ServerScript, stream: bool, st: State): (t: Transition)
    ensures Terminal(t.next.phase)
    decreases Rank(s, st.phase)
  {
    if Terminal(st.phase) then Transition(st, [])
    else
      var t := Step(s, stream, st);
      Prepend(t.out, Run(s, stream, t.next))
  }

  /** A whole run of `run_tls_server`, entered with records `q0` pending. */
  function Serve(s: ServerScript, stream: bool, q0: seq<ErrorRecord>): Transition {
    Run(s, stream, State(Starting, q0))
  }

  /** Running from `st` after the events `done`: one step, then the run from
      where it leads; at a terminal phase the run has nothing left to add. */
  lemma StepThenRun(s: ServerScript, stream: bool, done: seq<Event>, st: State)
    ensures !Terminal(st.phase) ==>
      Prepend(done, Run(s, stream, st)) ==
        Prepend(done + Step(s, stream, st).out, Run(s, stream, Step(s, stream, st).next))
    ensures Terminal(st.phase) ==> Prepend(done, Run(s, stream, st)) == Transition(st, done)
  {
    if !Terminal(st.phase) {
      var t := Step(s, stream, st);
      PrependPrepend(done, t.out, Run(s, stream, t.next));
    } else {
      assert done + [] == done;
    }
  }

  // ---------------------------------------------------------------------------
  // The setup as one case analysis

  /** The four setup calls in the order the source makes them. */
  function SetupCalls(s: ServerScript): seq<Call> {
    [s.loadKey, s.loadCertChain, s.checkKey, s.bind]
  }

  /** The event of each setup call, and the diagnostic of its failure. */
  const SetupSteps: seq<Event> := [LoadKey, LoadCertChain, CheckKey, Bind]

  function SetupDiagnostic(i: nat): (d: Diagnostic)
    requires i < 4
    ensures !d.QueueDump?
  {
    if i == 0 then KeyLoadFailed
    else if i == 1 then CertChainLoadFailed
    else if i == 2 then KeyCertMismatch
    else BindFailed
  }

  /** The index of the first setup call that fails, or 4 when none does. */
  function FirstFailure(s: ServerScript): (f: nat)
    ensures f <= 4
    ensures forall i :: 0 <= i < f ==> SetupCalls(s)[i].ok
    ensures f < 4 ==> !SetupCalls(s)[f].ok
  {
    if !s.loadKey.ok then 0
    else if !s.loadCertChain.ok then 1
    else if !s.checkKey.ok then 2
    else if !s.bind.ok then 3
    else 4
  }

  /** The records the first `n` setup calls leave behind. */
  function SetupErrs(s: ServerScript, n: nat): seq<ErrorRecord>
    requires n <= 4
  {
    if n == 0 then [] else SetupErrs(s, n - 1) + SetupCalls(s)[n - 1].errs
  }

  /** The events of setup call `i`: the bind is preceded by `BIO_new_accept`. */
  function SetupCallEvents(i: nat): seq<Event>
    requires i < 4
  {
    if i == 3 then [AcceptBioNew, Bind] else [SetupSteps[i]]
  }

  /** The events of `SSL_CTX_new` and of the first `n` setup calls. */
  function SetupTrace(n: nat): seq<Event>
    requires n <= 4
  {
    if n == 0 then [CtxNew]
    else if n == 1 then [CtxNew, LoadKey]
    else if n == 2 then [CtxNew, LoadKey, LoadCertChain]
    else if n == 3 then [CtxNew, LoadKey, LoadCertChain, CheckKey]
    else [CtxNew, LoadKey, LoadCertChain, CheckKey, AcceptBioNew, Bind]
  }

  /** Each setup call extends the trace by its own events. */
  lemma SetupTraceGrows(n: nat)
    requires 0 < n <= 4
    ensures SetupTrace(n) == SetupTrace(n - 1) + SetupCallEvents(n - 1)
  {
  }

  function Summary(s: ServerScript, stream: bool): Transition {
    var f := FirstFailure(s);
    if f < 4 then
      Prepend(SetupTrace(f + 1) + Diagnose(stream, SetupDiagnostic(f)), Cleanup(stream, f == 3, SetupErrs(s, f + 1)))
    else if SetupErrs(s, 4) != [] then
      Prepend(SetupTrace(4) + Diagnose(stream, UnexpectedSetupError), Cleanup(stream, true, SetupErrs(s, 4)))
    else
      Prepend(SetupTrace(4), Run(s, stream, State(Listening(0), [])))
  }

  // ---------------------------------------------------------------------------
  // The machine agrees with the case analysis

  lemma PrependPrepend(a: seq<Event>, b: seq<Event>, t: Transition)
    ensures Prepend(a, Prepend(b, t)) == Prepend(a + b, t)
  {
    assert a + (b + t.out) == (a + b) + t.out;
  }

  lemma FailingRun(s: ServerScript, stream: bool, acceptBio: bool, q: seq<ErrorRecord>)
    ensures Run(s, stream, State(Failing(acceptBio), q)) == Cleanup(stream, acceptBio, q)
  {
    var t := Cleanup(stream, acceptBio, q);
    assert Run(s, stream, t.next) == Transition(t.next, []);
  }

  /** One setup call, run to the end of the setup when it fails. */
  lemma SetupCallRun(s: ServerScript, stream: bool, p: Phase, q: seq<ErrorRecord>,
                     call: Call, ev: seq<Event>, d: Diagnostic, success: Phase, acceptBio: bool)
    requires !Terminal(p) && Step(s, stream, State(p, q)) == SetupCall(stream, q, call, ev, d, success, acceptBio)
    ensures Run(s, stream, State(p, q)) ==
      if call.ok then Prepend(ev, Run(s, stream, State(success, q + call.errs)))
      else Prepend(ev + Diagnose(stream, d), Cleanup(stream, acceptBio, q + call.errs))
  {
    if !call.ok {
      FailingRun(s, stream, acceptBio, q + call.errs);
    }
  }

  lemma CheckingQueueRun(s: ServerScript, stream: bool, q: seq<ErrorRecord>)
    ensures Run(s, stream, State(CheckingQueue, q)) ==
      if q != [] then Prepend(Diagnose(stream, UnexpectedSetupError), Cleanup(stream, true, q))
      else Run(s, stream, State(Listening(0), []))
  {
    if q != [] {
      FailingRun(s, stream, true, q);
    } else {
      assert Run(s, stream, State(CheckingQueue, q)) == Prepend([], Run(s, stream, State(Listening(0), [])));
    }
  }

  /** The phase before setup call `n`, and after the last one. */
  function SetupPhase(n: nat): Phase
    requires n <= 4
  {
    if n == 0 then LoadingKey
    else if n == 1 then LoadingCertChain
    else if n == 2 then CheckingKey
    else if n == 3 then Binding
    else CheckingQueue
  }

  /** Setup call `n` on its own: on success the next call is reached, on
      failure its diagnostic is written and the run ends at `cleanup:`. */
  lemma SetupCallAt(s: ServerScript, stream: bool, n: nat, q: seq<ErrorRecord>)
    requires n < 4
    ensures var call := SetupCalls(s)[n];
      Run(s, stream, State(SetupPhase(n), q)) ==
        if call.ok then Prepend(SetupCallEvents(n), Run(s, stream, State(SetupPhase(n + 1), q + call.errs)))
        else Prepend(SetupCallEvents(n) + Diagnose(stream, SetupDiagnostic(n)), Cleanup(stream, n == 3, q + call.errs))
  {
    var call := SetupCalls(s)[n];
    assert Step(s, stream, State(SetupPhase(n), q)) ==
      SetupCall(stream, q, call, SetupCallEvents(n), SetupDiagnostic(n), SetupPhase(n + 1), n == 3);
    SetupCallRun(s, stream, SetupPhase(n), q, call, SetupCallEvents(n), SetupDiagnostic(n), SetupPhase(n + 1), n == 3);
  }

  /** When the first `n` setup calls succeed, the run reaches call `n` after
      their events, with their records pending. */
  lemma {:induction false} Reaches(s: ServerScript, stream: bool, q0: seq<ErrorRecord>, n: nat)
    requires n <= FirstFailure(s)
    ensures Serve(s, stream, q0) == Prepend(SetupTrace(n), Run(s, stream, State(SetupPhase(n), SetupErrs(s, n))))
  {
    if n == 0 {
      assert Serve(s, stream, q0) == Prepend([CtxNew], Run(s, stream, State(LoadingKey, [])));
    } else {
      var q := SetupErrs(s, n - 1);
      var call := SetupCalls(s)[n - 1];
      var rest := Run(s, stream, State(SetupPhase(n), q + call.errs));
      Reaches(s, stream, q0, n - 1);
      assert Run(s, stream, State(SetupPhase(n - 1), q)) == Prepend(SetupCallEvents(n - 1), rest) by {
        SetupCallAt(s, stream, n - 1, q);
      }
      PrependPrepend(SetupTrace(n - 1), SetupCallEvents(n - 1), rest);
      SetupTraceGrows(n);
    }
  }

  /** The first failing setup call ends the run. */
  lemma FailsAt(s: ServerScript, stream: bool, q0: seq<ErrorRecord>)
    requires FirstFailure(s) < 4
    ensures var f := FirstFailure(s);
      Serve(s, stream, q0) ==
        Prepend(SetupTrace(f + 1) + Diagnose(stream, SetupDiagnostic(f)), Cleanup(stream, f == 3, SetupErrs(s, f + 1)))
  {
    var f := FirstFailure(s);
    var d := Diagnose(stream, SetupDiagnostic(f));
    var t := Cleanup(stream, f == 3, SetupErrs(s, f + 1));
    var pre, ev := SetupTrace(f), SetupCallEvents(f);
    Reaches(s, stream, q0, f);
    SetupCallAt(s, stream, f, SetupErrs(s, f));
    assert SetupErrs(s, f) + SetupCalls(s)[f].errs == SetupErrs(s, f + 1);
    SetupTraceGrows(f + 1);
    PrependJoin(pre, ev, d, t);
  }

  /** Events in front of a transition that itself starts with `b + c`. */
  lemma PrependJoin(a: seq<Event>, b: seq<Event>, c: seq<Event>, t: Transition)
    ensures Prepend(a, Prepend(b + c, t)) == Prepend(a + b + c, t)
  {
    assert a + (b + c + t.out) == a + b + c + t.out;
  }

  lemma ServeIsSummary(s: ServerScript, stream: bool, q0: seq<ErrorRecord>)
    ensures Serve(s, stream, q0) == Summary(s, stream)
  {
    if FirstFailure(s) < 4 {
      FailsAt(s, stream, q0);
    } else {
      Reaches(s, stream, q0, 4);
      CheckingQueueRun(s, stream, SetupErrs(s, 4));
      if SetupErrs(s, 4) != [] {
        PrependPrepend(SetupTrace(4), Diagnose(stream, UnexpectedSetupError), Cleanup(stream, true, SetupErrs(s, 4)));
      }
    }
  }

  /** The setup as one transition: to `failure:` with the records pending
      there, or into the accept loop with an empty queue. */
  function Setup(s: ServerScript, stream: bool): Transition {
    var f := FirstFailure(s);
    if f < 4 then
      Transition(State(Failing(f == 3), SetupErrs(s, f + 1)), SetupTrace(f + 1) + Diagnose(stream, SetupDiagnostic(f)))
    else if SetupErrs(s, 4) != [] then
      Transition(State(Failing(true), SetupErrs(s, 4)), SetupTrace(4) + Diagnose(stream, UnexpectedSetupError))
    else
      Transition(State(Listening(0), []), SetupTrace(4))
  }

  /** A run of the server is its setup, then the run from where the setup
      leads, whatever records were pending when it was entered. */
  lemma ServeIsSetupThenRun(s: ServerScript, stream: bool, q0: seq<ErrorRecord>)
    ensures var u := Setup(s, stream); Serve(s, stream, q0) == Prepend(u.out, Run(s, stream, u.next))
  {
    var f := FirstFailure(s);
    if f < 4 {
      FailsAt(s, stream, q0);
      FailingRun(s, stream, f == 3, SetupErrs(s, f + 1));
    } else {
      var q := SetupErrs(s, 4);
      Reaches(s, stream, q0, 4);
      CheckingQueueRun(s, stream, q);
      if q != [] {
        FailingRun(s, stream, true, q);
        PrependPrepend(SetupTrace(4), Diagnose(stream, UnexpectedSetupError), Cleanup(stream, true, q));
      }
    }
  }

  /** What reached trace `t` and queue `q` from trace `t0` through the setup
      and then the run from where it leads reached them through `Serve`. */
  lemma ServeFromSetup(s: ServerScript, stream: bool, q0: seq<ErrorRecord>,
                       t0: seq<Event>, t: seq<Event>, q: seq<ErrorRecord>, p: Phase)
    requires var u := Setup(s, stream); var v := Run(s, stream, u.next);
      t == t0 + u.out + v.out && q == v.next.queue && v.next.phase == p
    ensures var r := Serve(s, stream, q0); t == t0 + r.out && q == r.next.queue && r.next.phase == p
  {
    var u := Setup(s, stream);
    var v := Run(s, stream, u.next);
    assert Serve(s, stream, q0) == Prepend(u.out, v) by { ServeIsSetupThenRun(s, stream, q0); }
    AfterPrepend(t0, u.out, v);
  }

  /** Appending the events `ev` and then `v`'s is appending `Prepend(ev, v)`'s. */
  lemma AfterPrepend(t0: seq<Event>, ev: seq<Event>, v: Transition)
    ensures t0 + ev + v.out == t0 + Prepend(ev, v).out && Prepend(ev, v).next == v.next
  {
    assert t0 + ev + v.out == t0 + (ev + v.out);
  }

  /** Setup call `n`, when the calls before it succeeded, leaves the trace
      `t` and the queue `q`: on success the setup has done its first `n + 1`
      calls, on failure it is over. */
  lemma SetupAdvance(s: ServerScript, stream: bool, n: nat, t0: seq<Event>, t: seq<Event>, q: seq<ErrorRecord>)
    requires n < 4 && n <= FirstFailure(s)
    requires var call := SetupCalls(s)[n];
      t == t0 + SetupTrace(n) + SetupCallEvents(n) + (if call.ok then [] else Diagnose(stream, SetupDiagnostic(n))) &&
      q == SetupErrs(s, n) + call.errs
    ensures if SetupCalls(s)[n].ok then
        n + 1 <= FirstFailure(s) && t == t0 + SetupTrace(n + 1) && q == SetupErrs(s, n + 1)
      else
        var u := Setup(s, stream); t == t0 + u.out && q == u.next.queue && u.next.phase == Failing(n == 3)
  {
    var call := SetupCalls(s)[n];
    SetupTraceGrows(n + 1);
    if call.ok {
      assert SetupCallEvents(n) + [] == SetupCallEvents(n);
    } else {
      assert (t0 + SetupTrace(n + 1)) + Diagnose(stream, SetupDiagnostic(n)) == t0 + (SetupTrace(n + 1) + Diagnose(stream, SetupDiagnostic(n)));
    }
  }

  /** The check of the queue after the four calls have succeeded. */
  lemma SetupChecked(s: ServerScript, stream: bool, t0: seq<Event>, t: seq<Event>, q: seq<ErrorRecord>)
    requires FirstFailure(s) == 4 && t == t0 + SetupTrace(4) && q == SetupErrs(s, 4)
    ensures var u := Setup(s, stream);
      if q != [] then
        t + Diagnose(stream, UnexpectedSetupError) == t0 + u.out && q == u.next.queue && u.next.phase == Failing(true)
      else t == t0 + u.out && u.next == State(Listening(0), [])
  {
    assert (t0 + SetupTrace(4)) + Diagnose(stream, UnexpectedSetupError) == t0 + (SetupTrace(4) + Diagnose(stream, UnexpectedSetupError));
  }

  /** One iteration of the accept loop keeps the events done so far and the
      run still to come adding up to the same whole, or ends it blocked. */
  lemma ListeningStep(s: ServerScript, stream: bool, k: nat, q: seq<ErrorRecord>, done: seq<Event>, whole: Transition,
                      t: seq<Event>, q1: seq<ErrorRecord>, waiting: bool)
    requires k < |s.accepts| && Prepend(done, Run(s, stream, State(Listening(k), q))) == whole
    requires var a := Attempt(s, stream, k, q);
      t == done + a.out && q1 == a.next.queue && a.next.phase == (if waiting then Waiting else Listening(k + 1))
    ensures if waiting then t == whole.out && q1 == whole.next.queue && whole.next.phase == Waiting
      else Prepend(t, Run(s, stream, State(Listening(k + 1), q1))) == whole
  {
    var a := Attempt(s, stream, k, q);
    StepThenRun(s, stream, done, State(Listening(k), q));
    assert a.next == State(a.next.phase, q1);
  }

  /** Past the last accept the script holds the loop waits: the events done
      are the whole run. */
  lemma ListeningEnd(s: ServerScript, stream: bool, k: nat, q: seq<ErrorRecord>, done: seq<Event>, whole: Transition)
    requires k == |s.accepts| && Prepend(done, Run(s, stream, State(Listening(k), q))) == whole
    ensures done == whole.out && q == whole.next.queue && whole.next.phase == Waiting
  {
    assert done + [] == done;
  }

  // ---------------------------------------------------------------------------
  // What the trace shows

  predicate IsSetupCall(e: Event) {
    e.LoadKey? || e.LoadCertChain? || e.CheckKey? || e.Bind?
  }

  /** The setup calls among `ev`, in order. */
  function SetupCallsIn(ev: seq<Event>): seq<Event> {
    if ev == [] then [] else (if IsSetupCall(ev[0]) then [ev[0]] else []) + SetupCallsIn(ev[1..])
  }

  lemma {:induction false} SetupCallsInAppend(a: seq<Event>, b: seq<Event>)
    ensures SetupCallsIn(a + b) == SetupCallsIn(a) + SetupCallsIn(b)
  {
    if a == [] {
      assert a + b == b;
    } else {
      assert (a + b)[0] == a[0];
      assert (a + b)[1..] == a[1..] + b;
      SetupCallsInAppend(a[1..], b);
    }
  }

  /** The events one iteration of the accept loop can produce. */
  predicate LoopEvent(e: Event) {
    HandlerEvent(e) || e == Accept || e == SslBioNew
  }

  lemma {:induction false} LoopEventsMakeNoSetupCall(ev: seq<Event>)
    requires forall e :: e in ev ==> LoopEvent(e)
    ensures SetupCallsIn(ev) == []
  {
    if ev != [] {
      assert ev[0] in ev;
      assert forall e :: e in ev[1..] ==> e in ev;
      LoopEventsMakeNoSetupCall(ev[1..]);
    }
  }

  lemma LoopEventsConcat(a: seq<Event>, b: seq<Event>)
    requires forall e :: e in a ==> LoopEvent(e)
    requires forall e :: e in b ==> LoopEvent(e)
    ensures forall e :: e in a + b ==> LoopEvent(e)
  {
  }

  lemma SetupCallEventsCalls(i: nat)
    requires i < 4
    ensures SetupCallsIn(SetupCallEvents(i)) == [SetupSteps[i]] && Dumped(SetupCallEvents(i)) == []
  {
    var t := SetupCallEvents(i);
    if i == 3 {
      assert t == [AcceptBioNew, Bind];
      assert t[1..] == [Bind] && t[1..][1..] == [];
      assert SetupCallsIn(t[1..]) == [Bind] && Dumped(t[1..]) == [];
    } else if i == 0 {
      assert t == [LoadKey] && t[1..] == [] && SetupSteps[i] == LoadKey;
    } else if i == 1 {
      assert t == [LoadCertChain] && t[1..] == [] && SetupSteps[i] == LoadCertChain;
    } else {
      assert t == [CheckKey] && t[1..] == [] && SetupSteps[i] == CheckKey;
    }
  }

  lemma SetupCallEventsResources(i: nat)
    requires i < 4
    ensures var t := SetupCallEvents(i);
      multiset(t)[CtxNew] == 0 && multiset(t)[AcceptBioNew] == (if i == 3 then 1 else 0) &&
      CtxFree !in t && AcceptBioFree !in t && Accept !in t && SslBioNew !in t
  {
    var t := SetupCallEvents(i);
    if i == 3 {
      assert t == [AcceptBioNew, Bind];
      assert multiset(t) == multiset{AcceptBioNew, Bind};
    } else {
      assert IsSetupCall(SetupSteps[i]);
      assert t == [SetupSteps[i]];
      assert multiset(t) == multiset{SetupSteps[i]};
    }
  }

  /** The setup trace up to call `n` makes the first `n` setup calls, in
      order, and dumps nothing. */
  lemma {:induction false} SetupTraceCalls(n: nat)
    requires n <= 4
    ensures SetupCallsIn(SetupTrace(n)) == SetupSteps[..n] && Dumped(SetupTrace(n)) == []
  {
    if n == 0 {
      var t := SetupTrace(0);
      assert t == [CtxNew] && t[1..] == [];
    } else {
      var pre := SetupTrace(n - 1);
      var last := SetupCallEvents(n - 1);
      SetupTraceGrows(n);
      SetupTraceCalls(n - 1);
      SetupCallEventsCalls(n - 1);
      assert SetupCallsIn(pre + last) == SetupCallsIn(pre) + SetupCallsIn(last) by {
        SetupCallsInAppend(pre, last);
      }
      assert Dumped(pre + last) == [] by {
        DumpedAppend(pre, last);
      }
      var steps := SetupSteps;
      assert steps[..n] == steps[..n - 1] + [steps[n - 1]];
    }
  }

  /** The setup trace allocates the context once, the accept BIO once the
      bind is reached, and frees nothing. */
  lemma {:induction false} SetupTraceResources(n: nat)
    requires n <= 4
    ensures var t := SetupTrace(n);
      multiset(t)[CtxNew] == 1 && multiset(t)[AcceptBioNew] == (if n == 4 then 1 else 0) &&
      CtxFree !in t && AcceptBioFree !in t && Accept !in t && SslBioNew !in t
  {
    if n == 0 {
      assert SetupTrace(0) == [CtxNew];
    } else {
      SetupTraceResources(n - 1);
      SetupCallEventsResources(n - 1);
      SetupTraceGrows(n);
      assert multiset(SetupTrace(n - 1) + SetupCallEvents(n - 1)) ==
        multiset(SetupTrace(n - 1)) + multiset(SetupCallEvents(n - 1));
    }
  }

  /** Diagnostics make no setup call and neither allocate nor free. */
  lemma {:induction false} DiagnosticsOnly(t: seq<Event>)
    requires forall e :: e in t ==> e.Diag?
    ensures SetupCallsIn(t) == []
    ensures CtxNew !in t && AcceptBioNew !in t && CtxFree !in t && AcceptBioFree !in t && Accept !in t && SslBioNew !in t
  {
    if t != [] {
      assert t[0] in t;
      assert forall e :: e in t[1..] ==> e in t;
      DiagnosticsOnly(t[1..]);
    }
  }

  /** The frees at `cleanup:`. */
  lemma FreesFacts(acceptBio: bool)
    ensures var t := (if acceptBio then [AcceptBioFree] else []) + [CtxFree];
      SetupCallsIn(t) == [] && Dumped(t) == [] &&
      multiset(t)[CtxFree] == 1 && multiset(t)[AcceptBioFree] == (if acceptBio then 1 else 0) &&
      CtxNew !in t && AcceptBioNew !in t && Accept !in t && SslBioNew !in t
  {
    var t := (if acceptBio then [AcceptBioFree] else []) + [CtxFree];
    if acceptBio {
      assert t == [AcceptBioFree, CtxFree];
      assert t[1..] == [CtxFree] && t[1..][1..] == [];
      assert SetupCallsIn(t[1..]) == [] && Dumped(t[1..]) == [];
      assert multiset(t) == multiset{AcceptBioFree, CtxFree};
    } else {
      assert t == [CtxFree] && t[1..] == [];
      assert multiset(t) == multiset{CtxFree};
    }
  }

  /** The events from a setup failure's diagnostic to the return make no
      setup call and dump the records `q` once. */
  lemma FailureTailCalls(stream: bool, d: Diagnostic, acceptBio: bool, q: seq<ErrorRecord>, tail: seq<Event>)
    requires !d.QueueDump?
    requires tail == Diagnose(stream, d) + Cleanup(stream, acceptBio, q).out
    ensures SetupCallsIn(tail) == [] && Dumped(tail) == (if stream then q else [])
  {
    var diag := Diagnose(stream, d);
    var free := (if acceptBio then [AcceptBioFree] else []) + [CtxFree];
    var dq := DrainQueue(stream, q);
    assert tail == diag + free + dq;
    FreesFacts(acceptBio);
    assert SetupCallsIn(tail) == [] by {
      assert forall e :: e in diag ==> e.Diag?;
      assert forall e :: e in dq ==> e.Diag?;
      DiagnosticsOnly(diag);
      DiagnosticsOnly(dq);
      SetupCallsInAppend(diag, free);
      SetupCallsInAppend(diag + free, dq);
    }
    assert Dumped(diag) == [] by {
      if stream {
        DumpedSingle(Diag(d));
      }
    }
    DumpedAppend(diag, free);
    DumpedAppend(diag + free, dq);
  }

  /** The events from a setup failure's diagnostic to the return report the
      failure, allocate nothing, accept nothing and free the context once and
      the accept BIO once if it was allocated. */
  lemma FailureTailResources(stream: bool, d: Diagnostic, acceptBio: bool, q: seq<ErrorRecord>, tail: seq<Event>)
    requires tail == Diagnose(stream, d) + Cleanup(stream, acceptBio, q).out
    ensures CtxNew !in tail && AcceptBioNew !in tail && Accept !in tail && SslBioNew !in tail
    ensures multiset(tail)[CtxFree] == 1 && multiset(tail)[AcceptBioFree] == (if acceptBio then 1 else 0)
    ensures stream ==> Diag(d) in tail
  {
    var diag := Diagnose(stream, d);
    var free := (if acceptBio then [AcceptBioFree] else []) + [CtxFree];
    var dq := DrainQueue(stream, q);
    assert tail == diag + free + dq;
    assert forall e :: e in diag ==> e.Diag?;
    assert forall e :: e in dq ==> e.Diag?;
    DiagnosticsOnly(diag);
    DiagnosticsOnly(dq);
    FreesFacts(acceptBio);
    CountIn3(diag, free, dq, CtxFree);
    CountIn3(diag, free, dq, AcceptBioFree);
  }

  lemma CountIn3(a: seq<Event>, b: seq<Event>, c: seq<Event>, x: Event)
    requires x !in a && x !in c
    ensures multiset(a + b + c)[x] == multiset(b)[x]
  {
    assert multiset(a + b + c) == multiset(a) + multiset(b) + multiset(c);
  }

  /** A failed setup in two parts: the setup trace up to the failing call,
      then its diagnostic and the cleanup. */
  lemma FailedSetupParts(s: ServerScript, stream: bool, q0: seq<ErrorRecord>) returns (pre: seq<Event>, tail: seq<Event>)
    requires FirstFailure(s) < 4 || SetupErrs(s, 4) != []
    ensures var f := FirstFailure(s);
      pre == SetupTrace(if f < 4 then f + 1 else 4) &&
      tail == Diagnose(stream, if f < 4 then SetupDiagnostic(f) else UnexpectedSetupError) +
              Cleanup(stream, f >= 3, SetupErrs(s, if f < 4 then f + 1 else 4)).out
    ensures Serve(s, stream, q0) == Transition(State(Exited(1), []), pre + tail)
  {
    var f := FirstFailure(s);
    pre := SetupTrace(if f < 4 then f + 1 else 4);
    var d := Diagnose(stream, if f < 4 then SetupDiagnostic(f) else UnexpectedSetupError);
    var cleanup := Cleanup(stream, f >= 3, SetupErrs(s, if f < 4 then f + 1 else 4));
    tail := d + cleanup.out;
    assert Serve(s, stream, q0) == Prepend(pre, Prepend(d, cleanup)) by {
      ServeIsSummary(s, stream, q0);
      PrependPrepend(pre, d, cleanup);
    }
  }

  /** The first setup call that fails decides the run: the calls before it
      and itself are made in order and no later one, no connection is
      accepted, its diagnostic is written, the records left by the calls are
      dumped and the exit code is 1. A setup whose calls all succeed but
      leave records on the queue ends the same way after the bind, with its
      own diagnostic. */
  lemma SetupFailureStops(s: ServerScript, stream: bool, q0: seq<ErrorRecord>)
    requires FirstFailure(s) < 4 || SetupErrs(s, 4) != []
    ensures var f := FirstFailure(s); var n := if f < 4 then f + 1 else 4; var t := Serve(s, stream, q0);
      t.next == State(Exited(1), []) &&
      SetupCallsIn(t.out) == SetupSteps[..n] &&
      Accept !in t.out && SslBioNew !in t.out &&
      (stream ==> Diag(if f < 4 then SetupDiagnostic(f) else UnexpectedSetupError) in t.out) &&
      Dumped(t.out) == (if stream then SetupErrs(s, n) else [])
  {
    var f := FirstFailure(s);
    var n := if f < 4 then f + 1 else 4;
    var d := if f < 4 then SetupDiagnostic(f) else UnexpectedSetupError;
    var pre, tail := FailedSetupParts(s, stream, q0);
    assert SetupCallsIn(pre + tail) == SetupSteps[..n] by {
      SetupTraceCalls(n);
      FailureTailCalls(stream, d, f >= 3, SetupErrs(s, n), tail);
      SetupCallsInAppend(pre, tail);
    }
    assert Dumped(pre + tail) == (if stream then SetupErrs(s, n) else []) by {
      SetupTraceCalls(n);
      FailureTailCalls(stream, d, f >= 3, SetupErrs(s, n), tail);
      DumpedAppend(pre, tail);
    }
    assert Accept !in pre + tail && SslBioNew !in pre + tail && (stream ==> Diag(d) in pre + tail) by {
      SetupTraceResources(n);
      FailureTailResources(stream, d, f >= 3, SetupErrs(s, n), tail);
    }
  }

  /** A failed setup frees the context exactly once, and the accept BIO
      exactly once when it was allocated, that is when the bind was reached. */
  lemma SetupFailureFrees(s: ServerScript, stream: bool, q0: seq<ErrorRecord>)
    requires FirstFailure(s) < 4 || SetupErrs(s, 4) != []
    ensures var t := Serve(s, stream, q0); var m := multiset(t.out); var bio := if FirstFailure(s) >= 3 then 1 else 0;
      m[CtxNew] == 1 && m[CtxFree] == 1 && m[AcceptBioNew] == bio && m[AcceptBioFree] == bio
  {
    var f := FirstFailure(s);
    var n := if f < 4 then f + 1 else 4;
    var d := if f < 4 then SetupDiagnostic(f) else UnexpectedSetupError;
    var pre, tail := FailedSetupParts(s, stream, q0);
    SetupTraceResources(n);
    FailureTailResources(stream, d, f >= 3, SetupErrs(s, n), tail);
    assert multiset(pre + tail) == multiset(pre) + multiset(tail);
  }

  /** A failed accept never reaches the handler: it is reported, the queue
      is dumped and left empty, and the loop goes on with the next accept. */
  lemma AcceptFailureRetries(s: ServerScript, stream: bool, k: nat, q: seq<ErrorRecord>) returns (ev: seq<Event>)
    requires k < |s.accepts| && s.accepts[k].AcceptFailed?
    ensures Run(s, stream, State(Listening(k), q)) == Prepend(ev, Run(s, stream, State(Listening(k + 1), [])))
    ensures SslBioNew !in ev && InBufAlloc !in ev
    ensures forall e :: e in ev ==> LoopEvent(e)
    ensures stream ==> Diag(AcceptError) in ev
    ensures Dumped(ev) == (if stream then q + s.accepts[k].errs else [])
  {
    ev := [Accept] + Diagnose(stream, AcceptError) + DrainQueue(stream, q + s.accepts[k].errs);
    FailedAcceptEvents(stream, q + s.accepts[k].errs, ev);
  }

  lemma FailedAcceptEvents(stream: bool, q: seq<ErrorRecord>, ev: seq<Event>)
    requires ev == [Accept] + Diagnose(stream, AcceptError) + DrainQueue(stream, q)
    ensures SslBioNew !in ev && InBufAlloc !in ev
    ensures forall e :: e in ev ==> LoopEvent(e)
    ensures stream ==> Diag(AcceptError) in ev
    ensures Dumped(ev) == (if stream then q else [])
  {
    var d := Diagnose(stream, AcceptError);
    var dq := DrainQueue(stream, q);
    assert forall e: Event :: e in d + dq ==> e.Diag? by {
      assert dq == [] || dq == [Diag(QueueDump(q))];
    }
    assert Dumped(d + dq) == Dumped(dq) by {
      DumpedAppend(d, dq);
      if stream {
        DumpedSingle(Diag(AcceptError));
      }
    }
    assert ev == [Accept] + (d + dq);
    AcceptThenDiagnostics(d + dq, ev);
  }

  lemma AcceptThenDiagnostics(rest: seq<Event>, ev: seq<Event>)
    requires ev == [Accept] + rest
    requires forall e :: e in rest ==> e.Diag?
    ensures SslBioNew !in ev && InBufAlloc !in ev
    ensures forall e :: e in ev ==> LoopEvent(e)
    ensures Dumped(ev) == Dumped(rest)
  {
    assert ev[0] == Accept && ev[1..] == rest;
  }

  /** A successful accept runs the handler, which starts from a cleared
      queue, and its result is ignored: whatever exit code it returns, the
      loop goes on with the next accept and an empty queue. A handler blocked
      for ever blocks the server. */
  lemma AcceptedRunsHandler(s: ServerScript, stream: bool, k: nat, q: seq<ErrorRecord>)
    requires k < |s.accepts| && s.accepts[k].Accepted?
    ensures var h := Connection.Handle(s.accepts[k].conn, stream, []);
      var t := Run(s, stream, State(Listening(k), q));
      (h.next.phase.Closed? ==>
         t == Prepend([Accept, SslBioNew] + h.out, Run(s, stream, State(Listening(k + 1), [])))) &&
      (h.next.phase.Blocked? ==>
         t.next.phase == Waiting && t.out == [Accept, SslBioNew] + h.out)
  {
    var c := s.accepts[k].conn;
    var h := Connection.Handle(c, stream, []);
    assert Connection.Handle(c, stream, q + s.accepts[k].errs) == h by {
      Connection.HandleIgnoresEarlierErrors(c, stream, q + s.accepts[k].errs);
    }
    assert h.next.phase.Closed? ==> h.next.queue == [] by {
      Connection.CleanupOnEveryReturn(c, stream, []);
    }
    var a := Attempt(s, stream, k, q);
    assert a == Transition(State(if h.next.phase.Closed? then Listening(k + 1) else Waiting, h.next.queue),
                           [Accept, SslBioNew] + h.out);
    assert Run(s, stream, State(Listening(k), q)) == Prepend(a.out, Run(s, stream, a.next));
    if h.next.phase.Blocked? {
      assert Run(s, stream, State(Waiting, h.next.queue)) == Transition(State(Waiting, h.next.queue), []);
    }
  }

  /** Once listening, the server never returns: it ends blocked in an accept
      or in a handler, and it never frees the context or the accept BIO nor
      repeats a setup call. */
  lemma {:induction false} ListeningNeverExits(s: ServerScript, stream: bool, k: nat, q: seq<ErrorRecord>)
    ensures var t := Run(s, stream, State(Listening(k), q));
      t.next.phase == Waiting && forall e :: e in t.out ==> LoopEvent(e)
    decreases if k < |s.accepts| then |s.accepts| - k else 0
  {
    if k < |s.accepts| {
      var rest := Run(s, stream, State(Listening(k + 1), []));
      if s.accepts[k].AcceptFailed? {
        var ev := AcceptFailureRetries(s, stream, k, q);
        ListeningNeverExits(s, stream, k + 1, []);
        LoopEventsConcat(ev, rest.out);
      } else {
        var h := Connection.Handle(s.accepts[k].conn, stream, []);
        AcceptedRunsHandler(s, stream, k, q);
        Connection.HandleEventsOnly(s.accepts[k].conn, stream, []);
        assert forall e :: e in [Accept, SslBioNew] + h.out ==> LoopEvent(e);
        if h.next.phase.Closed? {
          ListeningNeverExits(s, stream, k + 1, []);
          LoopEventsConcat([Accept, SslBioNew] + h.out, rest.out);
        }
      }
    }
  }

  /** A setup that succeeds with an empty queue leads into the accept loop
      after exactly the four setup calls, and the server never returns. */
  lemma SetupSucceedsListens(s: ServerScript, stream: bool, q0: seq<ErrorRecord>)
    requires FirstFailure(s) == 4 && SetupErrs(s, 4) == []
    ensures var t := Serve(s, stream, q0); var m := multiset(t.out);
      t.next.phase == Waiting && SetupCallsIn(t.out) == SetupSteps &&
      m[CtxNew] == 1 && m[AcceptBioNew] == 1 && m[CtxFree] == 0 && m[AcceptBioFree] == 0
  {
    var t := Serve(s, stream, q0);
    var loop := Run(s, stream, State(Listening(0), []));
    assert t == Prepend(SetupTrace(4), loop) by {
      ServeIsSummary(s, stream, q0);
    }
    ListeningNeverExits(s, stream, 0, []);
    var pre := SetupTrace(4);
    assert SetupCallsIn(pre) == SetupSteps by {
      SetupTraceCalls(4);
      assert SetupSteps[..|SetupSteps|] == SetupSteps;
    }
    SetupTraceResources(4);
    ThenLoop(pre, loop.out);
  }

  /** A trace followed by events of the accept loop: the loop makes no setup
      call and neither allocates nor frees the context or the accept BIO. */
  lemma ThenLoop(pre: seq<Event>, loop: seq<Event>)
    requires forall e :: e in loop ==> LoopEvent(e)
    ensures var m := multiset(pre + loop); var m0 := multiset(pre);
      SetupCallsIn(pre + loop) == SetupCallsIn(pre) &&
      m[CtxNew] == m0[CtxNew] && m[AcceptBioNew] == m0[AcceptBioNew] &&
      m[CtxFree] == m0[CtxFree] && m[AcceptBioFree] == m0[AcceptBioFree]
  {
    assert SetupCallsIn(pre + loop) == SetupCallsIn(pre) by {
      LoopEventsMakeNoSetupCall(loop);
      SetupCallsInAppend(pre, loop);
    }
    LoopCounts(pre, loop);
  }

  lemma LoopCounts(pre: seq<Event>, loop: seq<Event>)
    requires forall e :: e in loop ==> LoopEvent(e)
    ensures var m := multiset(pre + loop); var m0 := multiset(pre);
      m[CtxNew] == m0[CtxNew] && m[AcceptBioNew] == m0[AcceptBioNew] &&
      m[CtxFree] == m0[CtxFree] && m[AcceptBioFree] == m0[AcceptBioFree]
  {
    assert !LoopEvent(CtxNew) && !LoopEvent(AcceptBioNew) && !LoopEvent(CtxFree) && !LoopEvent(AcceptBioFree);
    assert multiset(pre + loop) == multiset(pre) + multiset(loop);
  }

  /** `run_tls_server` returns only through `failure:`: it returns exactly
      when a setup call fails or the setup leaves records on the queue, and
      then with 1 and an empty queue. The `goto cleanup` after the loop is
      never reached, so it never returns 0. */
  lemma ServeReturnsOnlyOnFailure(s: ServerScript, stream: bool, q0: seq<ErrorRecord>)
    ensures var t := Serve(s, stream, q0);
      (t.next.phase.Exited? <==> FirstFailure(s) < 4 || SetupErrs(s, 4) != []) &&
      (t.next.phase.Exited? ==> t.next == State(Exited(1), [])) &&
      (!t.next.phase.Exited? ==> t.next.phase == Waiting)
  {
    if FirstFailure(s) < 4 || SetupErrs(s, 4) != [] {
      SetupFailureStops(s, stream, q0);
    } else {
      SetupSucceedsListens(s, stream, q0);
    }
  }

  /** Records pending before the call never influence it: the function starts
      with `ERR_clear_error()`. */
  lemma ServeIgnoresEarlierErrors(s: ServerScript, stream: bool, q0: seq<ErrorRecord>)
    ensures Serve(s, stream, q0) == Serve(s, stream, [])
  {
    Reaches(s, stream, q0, 0);
    Reaches(s, stream, [], 0);
  }
}
