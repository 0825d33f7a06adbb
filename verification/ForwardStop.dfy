/** What a stop leaves behind when it returns. */
module ForwardStop {
  import opened ForwardProtocol
  import opened ForwardSafety
  import opened ForwardShutdown

  lemma {:induction false} ExecAppend(s: System, a: seq<Step>, b: seq<Step>)
    ensures Exec(s, a + b) == Exec(Exec(s, a), b)
    decreases |a|
  {
    if a == [] {
      assert a + b == b;
    } else {
      assert (a + b)[0] == a[0] && (a + b)[1..] == a[1..] + b;
      ExecAppend(Next(s, a[0]), a[1..], b);
    }
  }

  lemma ExecThen(s: System, a: seq<Step>, step: Step)
    ensures Exec(s, a + [step]) == Next(Exec(s, a), step)
  {
    ExecAppend(s, a, [step]);
    assert Exec(Next(Exec(s, a), step), [step][1..]) == Next(Exec(s, a), step);
  }

  // ------------------------------------------------------------ from the clear

  /** The clear of line 749, in any reachable state, behind a worker past line
      513 leaves the system draining: `ShutdownIsBounded` applies from there. */
  lemma ClearStartsDrain(init: System, steps: seq<Step>, c: Choice)
    requires Initial(init)
    requires var s := Exec(init, steps);
      s.ctl.loc.StopClear? && 0 < s.h.thread <= |s.workers| && PastRaise(s.workers[s.h.thread - 1].loc)
    ensures var s' := Exec(init, steps + [ControllerStep(c)]);
      Inv(s') && s'.ctl.loc.StopState? && Draining(s', s'.h.thread - 1)
  {
    var s := Exec(init, steps);
    RunKeepsInv(init, steps);
    ExecThen(init, steps, ControllerStep(c));
    StepKeepsInv(s, ControllerStep(c));
  }

  /** Once the handle has forgotten a thread it never names it again, and a
      thread that has been created stays in the list. */
  lemma ThreadStaysForgotten(s: System, step: Step, i: nat)
    requires Inv(s) && i < |s.workers|
    ensures var s' := Next(s, step);
      && i < |s'.workers| && (s.h.thread != i + 1 ==> s'.h.thread != i + 1)
      && (s.h.thread != i + 1 ==> s'.workers[i] == s.workers[i])
  {
    assert ThreadOk(s, i);
    match step
    case ControllerStep(c) =>
    case WorkerStep(j, c) =>
      if j < |s.workers| {
        assert ThreadOk(s, j);
        ActFrame(s.h, s.mutex, s.workers[j], j, c);
      }
  }

  // --------------------------------------------------------- after the return

  /** From the call of a stop that will find a thread to its return. */
  predicate AtStop(loc: CLoc) { loc.StopTest? || InStop(loc) }

  /** The stop of thread `i + 1` is at or past its line 751 test. */
  predicate PastState(loc: CLoc) { InStop(loc) && !loc.StopClear? && !loc.StopState? }

  /** The same stop is done with the listening socket. */
  predicate PastListen(loc: CLoc) { PastState(loc) && !loc.StopListenTest? && !loc.StopListenClose? }

  /** The stop of thread `i + 1` has joined it and is about to forget it. */
  ghost predicate Returning(s: System, i: nat) { s.ctl.loc.StopDone? && s.h.thread == i + 1 }

  /** If the run returns from that stop, it does so with no socket stored. */
  ghost predicate ReturnsListenerless(s: System, steps: seq<Step>, i: nat) {
    Returning(Exec(s, steps), i) ==> Exec(s, steps).h.listenSock == -1
  }

  /** If the run returns from that stop, it does so in a final state. */
  ghost predicate ReturnsFinal(s: System, steps: seq<Step>, i: nat) {
    Returning(Exec(s, steps), i) ==> Final(Exec(s, steps).h.pfState)
  }

  lemma StopFindsThread(s: System, c: Choice)
    requires s.ctl.loc.StopTest? && s.h.thread != 0
    ensures ControllerNext(s, c) == At(s, StopClear)
  {
  }

  /** Until the stop of thread `i + 1` has returned: the worker stores no
      socket any more, and once the stop has passed line 755 none is stored and
      the worker's own listener, if it still has it, has been shut down. */
  ghost predicate ListenerClosing(s: System, i: nat) {
    && i < |s.workers| && PastStore(s.workers[i].loc)
    && (s.h.thread == i + 1 ==> AtStop(s.ctl.loc))
    && (s.h.thread == i + 1 && PastListen(s.ctl.loc) ==>
          s.h.listenSock == -1 && (HoldsListener(s.workers[i].loc) ==> s.workers[i].shut))
  }

  lemma SetupStores(h: Handle, mutex: Owner, w: Worker, c: Choice)
    requires InSetup(w.loc) && PastStore(w.loc)
    ensures var e := SetupAct(h, mutex, w, c);
      PastStore(e.w.loc) && e.h.listenSock == h.listenSock && e.w.shut == w.shut
  {
  }

  lemma ExitStores(h: Handle, mutex: Owner, w: Worker)
    requires InExit(w.loc)
    ensures var e := ExitAct(h, mutex, w);
      && InExit(e.w.loc) && (e.h.listenSock == h.listenSock || e.h.listenSock == -1)
      && e.w.shut == w.shut && (HoldsListener(e.w.loc) ==> HoldsListener(w.loc))
  {
  }

  lemma ActStores(h: Handle, mutex: Owner, w: Worker, i: nat, c: Choice)
    requires PastStore(w.loc)
    ensures var e := Act(h, mutex, w, i, c);
      && PastStore(e.w.loc) && (e.h.listenSock == h.listenSock || e.h.listenSock == -1)
      && e.w.shut == w.shut && (HoldsListener(e.w.loc) ==> HoldsListener(w.loc))
  {
    if InRound(w.loc) { RoundFrame(h.running, w, c); }
    else if InSetup(w.loc) { SetupStores(h, mutex, w, c); }
    else if InAccept(w.loc) { AcceptStays(h, mutex, w, i, c); }
    else if InServe(w.loc) { ServeStays(h, mutex, w, c); }
    else { ExitStores(h, mutex, w); }
  }

  /** Line 751 finds either the worker's listener, or that it is gone already. */
  lemma StopClosesListener(s: System, c: Choice, i: nat)
    requires Inv(s) && ListenerClosing(s, i) && s.h.thread == i + 1 && InStop(s.ctl.loc)
    ensures ListenerClosing(StopNext(s, c), i)
  {
    assert ListenOk(s.h, s.workers[i]);
  }

  lemma ControllerClosesListener(s: System, c: Choice, i: nat)
    requires Inv(s) && ListenerClosing(s, i)
    ensures ListenerClosing(ControllerNext(s, c), i)
  {
    if s.h.thread == i + 1 {
      if InStop(s.ctl.loc) { StopClosesListener(s, c, i); } else { StopFindsThread(s, c); }
    } else {
      hide ControllerNext;
      ThreadStaysForgotten(s, ControllerStep(c), i);
    }
  }

  lemma WorkerClosesListener(s: System, j: nat, c: Choice, i: nat)
    requires Inv(s) && ListenerClosing(s, i) && j < |s.workers|
    ensures ListenerClosing(WorkerNext(s, j, c), i)
  {
    hide Act;
    assert ThreadOk(s, j) && ThreadOk(s, i);
    ActFrame(s.h, s.mutex, s.workers[j], j, c);
    if j == i { ActStores(s.h, s.mutex, s.workers[i], i, c); }
  }

  lemma StepClosesListener(s: System, step: Step, i: nat)
    requires Inv(s) && ListenerClosing(s, i)
    ensures ListenerClosing(Next(s, step), i)
  {
    match step
    case ControllerStep(c) => ControllerClosesListener(s, c, i);
    case WorkerStep(j, c) => if j < |s.workers| { WorkerClosesListener(s, j, c, i); }
  }

  lemma {:induction false} RunClosesListener(s: System, steps: seq<Step>, i: nat)
    requires Inv(s) && ListenerClosing(s, i)
    ensures ListenerClosing(Exec(s, steps), i)
    decreases |steps|
  {
    if steps != [] {
      StepKeepsInv(s, steps[0]);
      StepClosesListener(s, steps[0], i);
      RunClosesListener(Next(s, steps[0]), steps[1..], i);
    }
  }

  /** A stop wakes the `accept` of its worker: if the worker has passed line 479
      at the line 751 test, then in every interleaving, from line 755 on, it
      never waits for a connection again. */
  lemma AcceptIsWoken(s: System, steps: seq<Step>, i: nat)
    requires Inv(s) && s.ctl.loc.StopListenTest? && s.h.thread == i + 1 && PastStore(s.workers[i].loc)
    ensures var s' := Exec(s, steps);
      && i < |s'.workers|
      && (s'.h.thread != i + 1 || PastListen(s'.ctl.loc) ==> !WaitsForConnection(s'.workers[i]))
  {
    RunClosesListener(s, steps, i);
    RunKeepsInv(s, steps);
    assert ThreadOk(Exec(s, steps), i);
  }

  /** Between line 447 and line 502 a worker writes no state. */
  predicate Quiet(loc: Loc) { loc.OpeningSocket? || loc.StoringSocket? || loc.Binding? || loc.Listening? }

  predicate Final(st: PfState) { st == StExit || st == StShuttingDown }

  /** Until the stop of thread `i + 1` has returned: from line 750 on, a worker
      that has ended left a final state, and a quiet one still finds the stop's. */
  ghost predicate StateSettling(s: System, i: nat) {
    && i < |s.workers| && !s.workers[i].loc.Starting?
    && (s.h.thread == i + 1 ==> AtStop(s.ctl.loc))
    && (s.h.thread == i + 1 && PastState(s.ctl.loc) ==>
          && (s.workers[i].loc.Ended? ==> Final(s.h.pfState))
          && (Quiet(s.workers[i].loc) ==> s.h.pfState == StShuttingDown))
  }

  /** A worker step ends the thread only quietly or by writing EXIT. */
  ghost predicate Settles(h: Handle, w: Worker, e: Effect) {
    && !e.w.loc.Starting?
    && (Quiet(e.w.loc) ==> Quiet(w.loc) && e.h.pfState == h.pfState)
    && (e.w.loc.Ended? ==> ((Quiet(w.loc) || w.loc.Ended?) && e.h.pfState == h.pfState) || e.h.pfState == StExit)
  }

  lemma SetupSettles(h: Handle, mutex: Owner, w: Worker, c: Choice)
    requires InSetup(w.loc) && !w.loc.Starting?
    ensures Settles(h, w, SetupAct(h, mutex, w, c))
  {
  }

  lemma ExitSettles(h: Handle, mutex: Owner, w: Worker)
    requires InExit(w.loc)
    ensures Settles(h, w, ExitAct(h, mutex, w))
  {
  }

  lemma ActSettles(h: Handle, mutex: Owner, w: Worker, i: nat, c: Choice)
    requires !w.loc.Starting?
    ensures Settles(h, w, Act(h, mutex, w, i, c))
  {
    if InRound(w.loc) { RoundFrame(h.running, w, c); }
    else if InSetup(w.loc) { SetupSettles(h, mutex, w, c); }
    else if InAccept(w.loc) { AcceptStays(h, mutex, w, i, c); }
    else if InServe(w.loc) { ServeStays(h, mutex, w, c); }
    else { ExitSettles(h, mutex, w); }
  }

  lemma StopSettlesState(s: System, c: Choice, i: nat)
    requires Inv(s) && StateSettling(s, i) && s.h.thread == i + 1 && InStop(s.ctl.loc)
    ensures StateSettling(StopNext(s, c), i)
  {
  }

  lemma ControllerSettlesState(s: System, c: Choice, i: nat)
    requires Inv(s) && StateSettling(s, i)
    ensures StateSettling(ControllerNext(s, c), i)
  {
    if s.h.thread == i + 1 {
      if InStop(s.ctl.loc) { StopSettlesState(s, c, i); } else { StopFindsThread(s, c); }
    } else {
      hide ControllerNext;
      ThreadStaysForgotten(s, ControllerStep(c), i);
    }
  }

  lemma WorkerSettlesState(s: System, j: nat, c: Choice, i: nat)
    requires Inv(s) && StateSettling(s, i) && j < |s.workers|
    ensures StateSettling(WorkerNext(s, j, c), i)
  {
    hide Act;
    assert ThreadOk(s, j) && ThreadOk(s, i);
    ActFrame(s.h, s.mutex, s.workers[j], j, c);
    if j == i { ActSettles(s.h, s.mutex, s.workers[i], i, c); }
  }

  lemma StepSettlesState(s: System, step: Step, i: nat)
    requires Inv(s) && StateSettling(s, i)
    ensures StateSettling(Next(s, step), i)
  {
    match step
    case ControllerStep(c) => ControllerSettlesState(s, c, i);
    case WorkerStep(j, c) => if j < |s.workers| { WorkerSettlesState(s, j, c, i); }
  }

  lemma {:induction false} RunSettlesState(s: System, steps: seq<Step>, i: nat)
    requires Inv(s) && StateSettling(s, i)
    ensures StateSettling(Exec(s, steps), i)
    decreases |steps|
  {
    if steps != [] {
      StepKeepsInv(s, steps[0]);
      StepSettlesState(s, steps[0], i);
      RunSettlesState(Next(s, steps[0]), steps[1..], i);
    }
  }

  /** What a stop leaves behind whenever it returns, if its worker had stored
      its socket (line 479) before the clear, as every worker past line 513 has:
      the thread has ended and been joined once, no other is alive, no socket is
      stored, the state is final, and the thread is then forgotten; a disconnect
      goes on to its lock. */
  lemma StopPostcondition(s: System, steps: seq<Step>, i: nat, c: Choice)
    requires Inv(s) && (s.ctl.loc.StopTest? || s.ctl.loc.StopClear?)
    requires s.h.thread == i + 1 && PastStore(s.workers[i].loc)
    ensures var s' := Exec(s, steps);
      Returning(s', i) ==>
        && s'.h.listenSock == -1 && Final(s'.h.pfState)
        && (forall j :: 0 <= j < |s'.workers| ==> s'.workers[j].loc.Ended? && s'.workers[j].joins == 1)
        && ControllerNext(s', c) == At(s'.(h := s'.h.(thread := 0)), if s'.ctl.disconnecting then DisLock else Idle)
  {
    RunKeepsInv(s, steps);
    RunClosesListener(s, steps, i);
    RunSettlesState(s, steps, i);
    var s' := Exec(s, steps);
    if Returning(s', i) {
      forall j | 0 <= j < |s'.workers| ensures s'.workers[j].loc.Ended? && s'.workers[j].joins == 1 {
        assert ThreadOk(s', j);
      }
    }
  }

  // --------------------------------------------------- the stops that leave more

  /** The descriptor of a listener in the runs built below. */
  const LISTENER_FD := 5

  /** How many steps a worker is short of having raised the flag. */
  function ToRaise(loc: Loc): nat {
    match loc
    case Starting => 8
    case OpeningSocket => 7
    case StoringSocket => 6
    case Binding => 5
    case Listening => 4
    case Announcing => 3
    case AnnouncingAgain => 2
    case RaisingFlag => 1
    case _ => 0
  }


  /** With the controller in the blocking join, a worker that has not bound its
      socket yet can store it, fail to bind and end. */
  lemma {:induction false} StoreThenFail(s: System, i: nat) returns (steps: seq<Step>)
    requires Inv(s) && s.ctl.loc == Join && s.h.thread == i + 1
    requires !PastStore(s.workers[i].loc) || (s.workers[i].loc == Binding && s.h.listenSock >= 0)
    ensures var s' := Exec(s, steps); Returning(s', i) && s'.h.listenSock >= 0
    decreases ToRaise(s.workers[i].loc)
  {
    var binding := s.workers[i].loc == Binding;
    var go := WorkerStep(i, Choice(!binding, LISTENER_FD));
    var s1 := Next(s, go);
    StepKeepsInv(s, go);
    var rest;
    if binding {
      rest := [ControllerStep(Choice(true, 0))];
      assert rest[1..] == [];
      assert Exec(s1, rest) == Next(s1, rest[0]);
    } else {
      rest := StoreThenFail(s1, i);
    }
    steps := [go] + rest;
    assert steps[1..] == rest;
  }

  /** Runs the controller from line 751 to the blocking join. */
  lemma ToBlockingJoin(s: System) returns (steps: seq<Step>)
    requires Inv(s) && s.ctl.loc.StopListenTest?
    ensures var s' := Exec(s, steps);
      && Inv(s') && s'.ctl.loc == Join && s'.h == s.h.(listenSock := -1)
      && |s'.workers| == |s.workers|
      && s'.workers[s.h.thread - 1].loc == s.workers[s.h.thread - 1].loc
  {
    var go := ControllerStep(Choice(false, 0));
    var s1 := Next(s, go);
    if s.h.listenSock >= 0 {
      steps := [go, go];
      assert steps[1..] == [go] && [go][1..] == [];
      assert Exec(s1, [go]) == Next(s1, go);
      assert Exec(s, steps) == Exec(s1, [go]);
    } else {
      steps := [go];
      assert steps[1..] == [];
      assert Exec(s, steps) == s1;
    }
    RunKeepsInv(s, steps);
  }

  /** Exactly when a stop is sure to leave no listening socket stored: when, at
      its line 751 test, the worker has passed line 479.  Otherwise some run
      returns with a stale descriptor in the handle. */
  lemma ListenerAfterStopIff(s: System, i: nat)
    requires Inv(s) && s.ctl.loc.StopListenTest? && s.h.thread == i + 1
    ensures (forall steps :: ReturnsListenerless(s, steps, i))
            <==> PastStore(s.workers[i].loc)
  {
    if PastStore(s.workers[i].loc) {
      forall steps ensures ReturnsListenerless(s, steps, i) {
        RunClosesListener(s, steps, i);
      }
    } else {
      var a := ToBlockingJoin(s);
      var b := StoreThenFail(Exec(s, a), i);
      ExecAppend(s, a, b);
      assert !ReturnsListenerless(s, a + b, i);
    }
  }

  /** The worker writes STARTING, fails to open its socket and ends. */
  lemma StartThenFail(s: System, i: nat) returns (steps: seq<Step>)
    requires Inv(s) && s.ctl.loc == Join && s.h.thread == i + 1 && s.workers[i].loc == Starting
    ensures var s' := Exec(s, steps); Returning(s', i) && s'.h.pfState == StStarting
  {
    var go, fail := WorkerStep(i, Choice(true, 0)), WorkerStep(i, Choice(false, 0));
    var join := ControllerStep(Choice(true, 0));
    steps := [go, fail, join];
    var s1 := Next(s, go);
    var s2 := Next(s1, fail);
    assert steps[1..] == [fail, join] && [fail, join][1..] == [join] && [join][1..] == [];
    assert Exec(s2, [join]) == Next(s2, join);
    assert Exec(s1, [fail, join]) == Exec(s2, [join]);
    assert Exec(s, steps) == Exec(s1, [fail, join]);
  }

  /** Exactly when a stop is sure to leave EXIT or SHUTTING_DOWN as the state:
      when, at its line 750 write, the worker has executed its first line. */
  lemma StateAfterStopIff(s: System, i: nat)
    requires Inv(s) && s.ctl.loc.StopState? && s.h.thread == i + 1
    ensures (forall steps :: ReturnsFinal(s, steps, i))
            <==> !s.workers[i].loc.Starting?
  {
    if !s.workers[i].loc.Starting? {
      forall steps ensures ReturnsFinal(s, steps, i) {
        RunSettlesState(s, steps, i);
        RunKeepsInv(s, steps);
      }
    } else {
      var go := ControllerStep(Choice(true, 0));
      var s1 := Next(s, go);
      StepKeepsInv(s, go);
      var a := ToBlockingJoin(s1);
      var b := StartThenFail(Exec(s1, a), i);
      ExecAppend(s1, a, b);
      var steps := [go] + (a + b);
      assert steps[1..] == a + b;
      assert Exec(s, steps) == Exec(s1, a + b);
      assert !ReturnsFinal(s, steps, i);
    }
  }
}
