/** What the calls of the controller achieve: a setup creates the thread, and a
    disconnect frees session and handle. */
module ForwardCalls {
  import opened ForwardProtocol
  import opened ForwardSafety
  import opened ForwardShutdown
  import opened ForwardStop
  import opened ForwardReturn
  import opened ForwardService

  /** With no thread to speak of, only the controller moves. */
  lemma NobodyElseMoves(s: System, i: nat, c: Choice)
    requires Inv(s) && s.h.thread == 0 && i < |s.workers|
    ensures WorkerNext(s, i, c) == s
  {
    assert ThreadOk(s, i);
  }

  lemma NobodyOwnsMutex(s: System, i: nat)
    requires Inv(s) && s.h.thread == 0
    ensures s.mutex != ByWorker(i)
  {
    if i < |s.workers| { assert ThreadOk(s, i); }
  }

  /** From idle every call can be made: a setup, a stop, and either disconnect. */
  lemma EveryCallCanBeMade(s: System, disconnecting: bool, viaJni: bool)
    requires s.ctl.loc.Idle? && (viaJni ==> disconnecting)
    ensures exists c :: ControllerNext(s, c) == At(s, SetupTest)
    ensures exists c :: ControllerNext(s, c) == s.(ctl := Controller(StopTest, disconnecting, viaJni))
  {
    assert ControllerNext(s, Choice(true, 0)) == At(s, SetupTest);
    var call := Choice(true, if viaJni then 3 else if disconnecting then 2 else 1);
    assert ControllerNext(s, call) == s.(ctl := Controller(StopTest, disconnecting, viaJni));
  }

  // ------------------------------------------------------------------- setup

  lemma {:induction false} SetupReachesCreate(s: System, steps: seq<Step>)
    requires Inv(s) && s.h.thread == 0
    requires s.ctl.loc.SetupTest? || s.ctl.loc.SetupClear? || s.ctl.loc.SetupCreate?
    requires ControllerSteps(steps) == if s.ctl.loc.SetupTest? then 2 else if s.ctl.loc.SetupClear? then 1 else 0
    ensures Exec(s, steps) == At(s.(h := s.h.(running := false)), SetupCreate)
    decreases |steps|
  {
    if steps != [] {
      StepKeepsInv(s, steps[0]);
      match steps[0] {
        case ControllerStep(c) =>
        case WorkerStep(i, c) => if i < |s.workers| { NobodyElseMoves(s, i, c); }
      }
      SetupReachesCreate(Next(s, steps[0]), steps[1..]);
    }
  }

  /** A setup returns after three controller steps.  It has created exactly one
      thread, which is then the current one and finds the flag down, if none was
      there and the creation succeeded; a failed one leaves no thread. */
  lemma SetupCreatesIff(s: System, steps: seq<Step>, c: Choice)
    requires Inv(s) && s.ctl.loc.SetupTest? && s.h.thread == 0 && ControllerSteps(steps) == 2
    ensures var s' := Exec(s, steps + [ControllerStep(c)]);
      && s'.ctl.loc.Idle? && !s'.h.running
      && s'.workers == s.workers + (if c.ok then [NewWorker()] else [])
      && s'.h.thread == if c.ok then |s'.workers| else 0
  {
    SetupReachesCreate(s, steps);
    ExecThen(s, steps, ControllerStep(c));
  }

  /** If there is a thread already, the setup returns at once and touches
      neither it nor the handle. */
  lemma SetupFindsThread(s: System, c: Choice)
    requires Inv(s) && s.ctl.loc.SetupTest?
    ensures var s' := ControllerNext(s, c);
      s'.ctl.loc.Idle? && s'.h == s.h && s'.workers == s.workers && s'.mutex == s.mutex <==> s.h.thread != 0
  {
  }

  // ----------------------------------------------------------------- polling

  /** Where a stop is that has taken `n` steps since it began to poll, if the
      thread goes on: two to a poll, fifty polls, and then the blocking join. */
  function PollAt(n: nat): CLoc {
    if n > 100 then Join else if n % 2 == 0 then TryJoin(n / 2) else TryState(n / 2)
  }

  /** The thread is not done, and has not said that it is. */
  ghost predicate GoesOn(s: System, i: nat) { Alive(s, i) && !s.h.pfState.StExit? }

  lemma PollStep(s: System, c: Choice, i: nat, n: nat)
    requires Inv(s) && GoesOn(s, i) && s.ctl.loc == PollAt(n)
    ensures var s' := ControllerNext(s, c); s' == At(s, PollAt(n + 1))
  {
    assert ThreadOk(s, i);
  }

  lemma SetupNeverExits(h: Handle, mutex: Owner, w: Worker, c: Choice)
    requires InSetup(w.loc) && !h.pfState.StExit?
    ensures !SetupAct(h, mutex, w, c).h.pfState.StExit?
  {
  }

  lemma AcceptNeverExits(h: Handle, mutex: Owner, w: Worker, i: nat, c: Choice)
    requires InAccept(w.loc) && !h.pfState.StExit?
    ensures !AcceptAct(h, mutex, w, i, c).h.pfState.StExit?
  {
  }

  lemma ServeNeverExits(h: Handle, mutex: Owner, w: Worker, c: Choice)
    requires InServe(w.loc) && !h.pfState.StExit?
    ensures !ServeAct(h, mutex, w, c).h.pfState.StExit?
  {
  }

  /** EXIT is the last thing that a thread says. */
  lemma ExitIsLast(h: Handle, mutex: Owner, w: Worker, i: nat, c: Choice)
    requires !h.pfState.StExit?
    ensures var e := Act(h, mutex, w, i, c); e.h.pfState.StExit? ==> e.w.loc.Ended?
  {
    hide RoundAct, SetupAct, AcceptAct, ServeAct;
    if InSetup(w.loc) { SetupNeverExits(h, mutex, w, c); }
    else if InAccept(w.loc) { AcceptNeverExits(h, mutex, w, i, c); }
    else if InServe(w.loc) { ServeNeverExits(h, mutex, w, c); }
  }

  lemma WorkerEndsIfExit(s: System, j: nat, c: Choice, i: nat)
    requires Inv(s) && GoesOn(s, i) && j < |s.workers|
    ensures var s' := WorkerNext(s, j, c); s'.ctl == s.ctl && (Alive(s', i) ==> GoesOn(s', i))
  {
    hide Act;
    assert ThreadOk(s, j) && ThreadOk(s, i);
    ActFrame(s.h, s.mutex, s.workers[j], j, c);
    if j == i { ExitIsLast(s.h, s.mutex, s.workers[i], i, c); }
  }

  /** With glibc a stop polls the thread fifty times, no more and no fewer, before
      it blocks: in every interleaving that leaves the thread alive, it is exactly
      as far as its own steps say. */
  lemma {:induction false} PollsFiftyTimes(s: System, steps: seq<Step>, i: nat, n: nat)
    requires Inv(s) && GoesOn(s, i) && s.ctl.loc == PollAt(n)
    ensures Alive(Exec(s, steps), i) ==> Exec(s, steps).ctl.loc == PollAt(n + ControllerSteps(steps))
    decreases |steps|
  {
    if steps != [] {
      var s1 := Next(s, steps[0]);
      StepKeepsInv(s, steps[0]);
      match steps[0] {
        case ControllerStep(c) =>
          PollStep(s, c, i, n);
          PollsFiftyTimes(s1, steps[1..], i, n + 1);
        case WorkerStep(j, c) =>
          if j < |s.workers| { WorkerEndsIfExit(s, j, c, i); }
          if Alive(s1, i) { PollsFiftyTimes(s1, steps[1..], i, n); } else { RunStaysEnded(s1, steps[1..], i); }
      }
    }
  }

  /** Once the thread has ended in EXIT, a stop that looks at the state goes to
      the blocking join at its next step. */
  lemma {:induction false} ExitEndsPolling(s: System, steps: seq<Step>)
    requires Inv(s) && s.ctl.loc.TryState? && CurrentEnded(s) && s.h.pfState.StExit?
    requires ControllerSteps(steps) == 1
    ensures Exec(s, steps) == At(s, Join)
    decreases |steps|
  {
    match steps[0] {
      case ControllerStep(c) => EndedStaysPut(At(s, Join), steps[1..]) by { StepKeepsInv(s, steps[0]); }
      case WorkerStep(j, c) =>
        if j < |s.workers| { EndedWorkerStays(s, j, c); }
        ExitEndsPolling(s, steps[1..]);
    }
  }

  lemma EndedWorkerStays(s: System, j: nat, c: Choice)
    requires Inv(s) && CurrentEnded(s) && j < |s.workers|
    ensures WorkerNext(s, j, c) == s
  {
    assert ThreadOk(s, j);
  }

  lemma {:induction false} EndedStaysPut(s: System, steps: seq<Step>)
    requires Inv(s) && CurrentEnded(s) && ControllerSteps(steps) == 0
    ensures Exec(s, steps) == s
    decreases |steps|
  {
    if steps != [] {
      if steps[0].i < |s.workers| { EndedWorkerStays(s, steps[0].i, steps[0].c); }
      EndedStaysPut(s, steps[1..]);
    }
  }

  // -------------------------------------------------------------- disconnect

  /** The disconnect frees the handle: always on the command line, and with a
      session through JNI. */
  predicate Frees(s: System) {
    match s.ctl.loc
    case DisLock => s.h.session || !s.ctl.viaJni
    case DisSession => s.h.session || !s.ctl.viaJni
    case DisHandle => true
    case DisUnlock => s.h.handleFreed
    case Gone => true
    case _ => false
  }

  /** How many controller steps it still takes. */
  function ToDone(s: System): nat {
    match s.ctl.loc
    case DisLock => if Frees(s) then 4 else 3
    case DisSession => if Frees(s) then 3 else 2
    case DisHandle => 2
    case DisUnlock => 1
    case _ => 0
  }

  /** The state in which it returns. */
  function Outcome(s: System): System {
    var h := match s.ctl.loc
      case DisLock => s.h.(session := false, sessionFreed := s.h.session, handleFreed := Frees(s))
      case DisSession => s.h.(session := false, sessionFreed := s.h.session, handleFreed := Frees(s))
      case DisHandle => s.h.(handleFreed := true)
      case _ => s.h;
    At(s.(h := h, mutex := Free), if Frees(s) then Gone else Idle)
  }

  lemma DisconnectAdvances(s: System)
    requires Inv(s) && InDisconnect(s.ctl.loc)
    ensures var s' := DisconnectNext(s);
      && Outcome(s') == Outcome(s) && (InDisconnect(s'.ctl.loc) ==> Frees(s') == Frees(s))
      && ToDone(s') == Less(ToDone(s), 1) && (InDisconnect(s'.ctl.loc) || ToDone(s) == 1)
      && (ToDone(s) == 0 ==> s' == s) && s'.h.thread == 0
  {
    if s.mutex.ByWorker? { NobodyOwnsMutex(s, s.mutex.i); }
  }

  lemma {:induction false} DisconnectRuns(s: System, steps: seq<Step>)
    requires Inv(s) && s.h.thread == 0 && ControllerSteps(steps) >= ToDone(s)
    requires InDisconnect(s.ctl.loc) || (s.ctl.loc.Idle? && s == Outcome(s))
    requires ControllerSteps(steps) > ToDone(s) ==> Frees(s) && InDisconnect(s.ctl.loc)
    ensures Exec(s, steps) == Outcome(s)
    decreases |steps|
  {
    if steps == [] {
      if s.mutex.ByWorker? { NobodyOwnsMutex(s, s.mutex.i); }
    } else {
      StepKeepsInv(s, steps[0]);
      match steps[0] {
        case ControllerStep(c) => DisconnectAdvances(s);
        case WorkerStep(i, c) => if i < |s.workers| { NobodyElseMoves(s, i, c); }
      }
      DisconnectRuns(Next(s, steps[0]), steps[1..]);
    }
  }

  /** What a disconnect does once it is past its stop.  From the lock on, in
      every run that gives the controller the steps it needs, with anything in
      between, the mutex is free again, the session has been freed if and only
      if there was one, and the handle if and only if there was one or the call
      is the command line's; the controller is then gone for good, and otherwise
      idle with the handle as it was. */
  lemma DisconnectPostcondition(s: System, steps: seq<Step>)
    requires Inv(s) && s.ctl.loc.DisLock?
    requires if Frees(s) then ControllerSteps(steps) >= 4 else ControllerSteps(steps) == 3
    ensures var s' := Exec(s, steps); var frees := s.h.session || !s.ctl.viaJni;
      && s'.mutex == Free && s'.workers == s.workers
      && (s'.h.sessionFreed <==> s.h.session) && !s'.h.session
      && (s'.h.handleFreed <==> frees)
      && s'.ctl.loc == (if frees then Gone else Idle)
      && (!frees ==> s'.h == s.h)
  {
    DisconnectRuns(s, steps);
  }

  // ---------------------------------------------------------- from its call

  /** A disconnect that will free the handle, from its call on; `had` says
      whether it found a session. */
  ghost predicate Disconnecting(s: System, had: bool) {
    && s.ctl.disconnecting && (had || !s.ctl.viaJni)
    && match s.ctl.loc
       case DisHandle => !s.h.session && s.h.sessionFreed == had
       case DisUnlock => !s.h.session && s.h.sessionFreed == had && s.h.handleFreed
       case Gone => !s.h.session && s.h.sessionFreed == had && s.h.handleFreed
       case _ => (AtStop(s.ctl.loc) || InDisconnect(s.ctl.loc)) && s.h.session == had
  }

  /** How many controller steps it still takes once the thread has ended. */
  function ToGone(s: System): nat {
    if InDisconnect(s.ctl.loc) then ToDone(s)
    else if s.h.thread == 0 then 5
    else ToReturn(s.ctl.loc) + 4
  }

  lemma StopLeadsToDisconnect(s: System, c: Choice, had: bool)
    requires Inv(s) && Disconnecting(s, had) && AtStop(s.ctl.loc)
    ensures var s' := ControllerNext(s, c); Disconnecting(s', had) && (s'.h.thread == s.h.thread || s'.h.thread == 0)
  {
    if s.ctl.loc.StopTest? && s.h.thread != 0 { StopFindsThread(s, c); }
  }

  lemma StopNearsGone(s: System, c: Choice, had: bool)
    requires Inv(s) && Disconnecting(s, had) && AtStop(s.ctl.loc) && (s.h.thread == 0 || CurrentEnded(s))
    ensures var s' := ControllerNext(s, c);
      (s'.h.thread == 0 || CurrentEnded(s')) && ToGone(s') <= Less(ToGone(s), 1)
  {
    if s.ctl.loc.StopTest? {
      if s.h.thread != 0 { StopFindsThread(s, c); }
    } else {
      StopAdvances(s, c, s.h.thread - 1);
    }
  }

  lemma DisconnectLeadsToGone(s: System, had: bool)
    requires Inv(s) && Disconnecting(s, had) && InDisconnect(s.ctl.loc)
    ensures var s' := DisconnectNext(s);
      Disconnecting(s', had) && s'.h.thread == 0 && ToGone(s') <= Less(ToGone(s), 1)
  {
    DisconnectAdvances(s);
  }

  lemma WorkerKeepsDisconnecting(s: System, i: nat, c: Choice, had: bool)
    requires Inv(s) && Disconnecting(s, had) && i < |s.workers|
    ensures var s' := WorkerNext(s, i, c);
      && Disconnecting(s', had) && ToGone(s') == ToGone(s) && s'.h.thread == s.h.thread
      && (CurrentEnded(s) ==> CurrentEnded(s'))
  {
    hide Act;
    assert ThreadOk(s, i);
    ActFrame(s.h, s.mutex, s.workers[i], i, c);
  }

  lemma {:induction false} RunDisconnects(s: System, steps: seq<Step>, had: bool)
    requires Inv(s) && Disconnecting(s, had)
    ensures var s' := Exec(s, steps);
      && Disconnecting(s', had) && (s'.h.thread == s.h.thread || s'.h.thread == 0)
      && (s.h.thread == 0 || CurrentEnded(s) ==> ToGone(s') <= Less(ToGone(s), ControllerSteps(steps)))
    decreases |steps|
  {
    if steps != [] {
      StepKeepsInv(s, steps[0]);
      match steps[0] {
        case ControllerStep(c) =>
          if AtStop(s.ctl.loc) {
            StopLeadsToDisconnect(s, c, had);
            if s.h.thread == 0 || CurrentEnded(s) { StopNearsGone(s, c, had); }
          } else {
            DisconnectLeadsToGone(s, had);
          }
        case WorkerStep(i, c) => if i < |s.workers| { WorkerKeepsDisconnecting(s, i, c, had); }
      }
      RunDisconnects(Next(s, steps[0]), steps[1..], had);
    }
  }

  /** After the second segment there is no thread left to wait for. */
  lemma DisconnectEndsThread(s: System, a: seq<Step>, b: seq<Step>)
    requires Inv(s) && s.ctl.loc.StopTest?
    requires s.h.thread != 0 ==> !InSetup(s.workers[s.h.thread - 1].loc)
    requires s.h.thread != 0 ==> StepsOf(b, s.h.thread - 1) >= MAX_RANK
    requires ControllerSteps(a) >= SHUT_STEPS && Disconnecting(s, s.h.session)
    ensures var s2 := Exec(Exec(s, a), b); Inv(s2) && (s2.h.thread == 0 || CurrentEnded(s2))
  {
    var s1 := Exec(s, a);
    RunKeepsInv(s, a);
    RunKeepsInv(s1, b);
    RunDisconnects(s, a, s.h.session);
    RunDisconnects(s1, b, s.h.session);
    var s2 := Exec(s1, b);
    if s.h.thread == 0 {
      assert ToGone(s1) == 0;
    } else {
      var i := s.h.thread - 1;
      StopQuenches(s, a, i);
      RunKeepsStopping(s1, b, i);
      QuenchedWorkerEnds(s1, b, i);
    }
  }

  lemma GoneIsFinal(s: System, had: bool)
    requires Inv(s) && Disconnecting(s, had) && ToGone(s) == 0
    ensures s.ctl.loc == Gone && s.mutex == Free && s.h.sessionFreed == had && s.h.handleFreed
    ensures forall j :: 0 <= j < |s.workers| ==> s.workers[j].loc.Ended? && s.workers[j].joins == 1
  {
    if s.mutex.ByWorker? { NobodyOwnsMutex(s, s.mutex.i); }
    forall j | 0 <= j < |s.workers| ensures s.workers[j].loc.Ended? && s.workers[j].joins == 1 {
      assert ThreadOk(s, j);
    }
  }

  /** A whole disconnect, from its call in any reachable state: if there is no
      thread, or the thread is past line 513 or has ended, then in every fair run
      the thread is joined, and session and handle are freed once no thread is
      alive. */
  lemma DisconnectFrees(s: System, a: seq<Step>, b: seq<Step>, c: seq<Step>)
    requires Inv(s) && s.ctl.loc.StopTest? && s.ctl.disconnecting && (s.h.session || !s.ctl.viaJni)
    requires s.h.thread != 0 ==> !InSetup(s.workers[s.h.thread - 1].loc)
    requires ControllerSteps(a) >= SHUT_STEPS && ControllerSteps(c) >= RETURN_STEPS + 4
    requires s.h.thread != 0 ==> StepsOf(b, s.h.thread - 1) >= MAX_RANK
    ensures var s' := Exec(Exec(Exec(s, a), b), c);
      && s'.ctl.loc == Gone && s'.mutex == Free
      && (s'.h.sessionFreed <==> s.h.session) && s'.h.handleFreed
      && forall j :: 0 <= j < |s'.workers| ==> s'.workers[j].loc.Ended? && s'.workers[j].joins == 1
  {
    var had := s.h.session;
    assert Disconnecting(s, had);
    hide Exec, Disconnecting;
    DisconnectEndsThread(s, a, b);
    RunKeepsInv(s, a);
    RunDisconnects(s, a, had);
    var s1 := Exec(s, a);
    RunDisconnects(s1, b, had);
    var s2 := Exec(s1, b);
    RunDisconnects(s2, c, had);
    RunKeepsInv(s2, c);
    assert ToGone(s2) <= RETURN_STEPS + 4;
    GoneIsFinal(Exec(s2, c), had);
  }
}
