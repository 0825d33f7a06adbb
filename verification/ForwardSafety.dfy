/** What holds in every reachable state of worker and controller. */
module ForwardSafety {
  import opened ForwardProtocol

  /** Between line 527 and line 680 a worker owns the session mutex. */
  predicate InCritical(loc: Loc) { InRound(loc) || InServe(loc) }

  predicate OwnsMutex(loc: CLoc) { loc.DisSession? || loc.DisHandle? || loc.DisUnlock? }

  /** Where the controller has made sure that there is no thread. */
  predicate NoThread(loc: CLoc) {
    loc.SetupClear? || loc.SetupCreate? || loc.DisLock? || OwnsMutex(loc) || loc.Gone?
  }

  /** The stop has executed line 749. */
  predicate Cleared(loc: CLoc) { InStop(loc) && !loc.StopClear? }

  predicate Alive(s: System, i: nat) { i < |s.workers| && !s.workers[i].loc.Ended? }

  /** The worker has executed line 513 and is still running. */
  predicate PastRaise(loc: Loc) { !InSetup(loc) && !loc.Ended? }

  /** From line 479 until it has given its listener up. */
  predicate HoldsListener(loc: Loc) { PastStore(loc) && !loc.Exiting? && !loc.Ended? }

  predicate WellPlaced(loc: Loc) { loc.Opening? ==> 1 <= loc.attempt <= MAX_OPEN_ATTEMPTS }

  /** Thread `j` is the current one, or has ended and been joined once. */
  ghost predicate ThreadOk(s: System, j: nat)
    requires j < |s.workers|
  {
    var w := s.workers[j];
    && (s.h.thread != j + 1 ==> w.loc.Ended? && w.joins == 1)
    && (s.h.thread == j + 1 ==> w.joins == if s.ctl.loc.StopDone? then 1 else 0)
    && (InCritical(w.loc) <==> s.mutex == ByWorker(j))
    && WellPlaced(w.loc)
  }

  ghost predicate ControllerOk(s: System) {
    && (s.h.thread == 0 || s.h.thread == |s.workers|) && s.h.listenSock >= -1
    && (s.mutex.ByWorker? ==> s.mutex.i < |s.workers|)
    && (OwnsMutex(s.ctl.loc) <==> s.mutex == ByController)
    && (InStop(s.ctl.loc) ==> s.h.thread > 0)
    && (NoThread(s.ctl.loc) ==> s.h.thread == 0)
    && (s.ctl.loc.SetupCreate? ==> !s.h.running)
    && (s.ctl.loc.StopDone? ==> CurrentEnded(s))
    && (s.h.sessionFreed ==> s.ctl.loc.DisHandle? || s.ctl.loc.DisUnlock? || s.ctl.loc.Gone?)
    && (s.h.sessionFreed && !s.ctl.loc.DisHandle? ==> s.h.handleFreed)
    && (s.h.handleFreed ==> s.ctl.loc.DisUnlock? || s.ctl.loc.Gone?)
  }

  /** The flag follows the current thread: down until line 513, and up from
      there until a stop clears it, so that only a stop lets it leave its loop. */
  ghost predicate FlagOk(h: Handle, w: Worker, cleared: bool) {
    && (InSetup(w.loc) ==> !h.running)
    && (PastRaise(w.loc) && !cleared ==> h.running && !InExit(w.loc))
  }

  /** `listen_sock` is the current thread's listener, or that has been shut. */
  ghost predicate ListenOk(h: Handle, w: Worker) {
    HoldsListener(w.loc) ==> h.listenSock == w.fd || w.shut
  }

  ghost predicate CurrentOk(s: System) {
    0 < s.h.thread <= |s.workers| ==>
      var w := s.workers[s.h.thread - 1];
      FlagOk(s.h, w, Cleared(s.ctl.loc)) && ListenOk(s.h, w)
  }

  ghost predicate Inv(s: System) {
    && ControllerOk(s) && CurrentOk(s)
    && forall j :: 0 <= j < |s.workers| ==> ThreadOk(s, j)
  }

  // ------------------------------------------------------------ worker steps

  /** What a worker step can do beyond its own locals. */
  ghost predicate Framed(h: Handle, mutex: Owner, w: Worker, i: nat, e: Effect) {
    && e.w.joins == w.joins
    && (InCritical(e.w.loc) <==> e.mutex == ByWorker(i))
    && (e.mutex == mutex || (mutex == Free && e.mutex == ByWorker(i)) || (mutex == ByWorker(i) && e.mutex == Free))
    && e.h.thread == h.thread && e.h.session == h.session
    && e.h.sessionFreed == h.sessionFreed && e.h.handleFreed == h.handleFreed
    && (!w.loc.RaisingFlag? ==> e.h.running == h.running)
    && (w.loc.Ended? ==> e == Effect(h, mutex, w))
    && (WellPlaced(w.loc) ==> WellPlaced(e.w.loc))
    && (h.listenSock >= -1 ==> e.h.listenSock >= -1)
  }

  /** Where a step goes from each part of the worker, and what it leaves alone. */
  lemma RoundFrame(running: bool, w: Worker, c: Choice)
    requires InRound(w.loc)
    ensures var w' := RoundAct(running, w, c);
      && w'.joins == w.joins && w'.fd == w.fd && w'.shut == w.shut
      && (InRound(w'.loc) || w'.loc.TestingForward? || w'.loc.ClosingChannel?)
  {
  }

  lemma AcceptStays(h: Handle, mutex: Owner, w: Worker, i: nat, c: Choice)
    requires InAccept(w.loc)
    ensures var e := AcceptAct(h, mutex, w, i, c);
      && e.h == h.(pfState := e.h.pfState)
      && e.w.fd == w.fd && e.w.shut == w.shut && e.w.joins == w.joins
      && (if e.w.loc == CheckingSession then mutex == Free && e.mutex == ByWorker(i)
          else e.mutex == mutex && (InAccept(e.w.loc) || e.w.loc == ClosingListener))
  {
  }

  lemma ServeStays(h: Handle, mutex: Owner, w: Worker, c: Choice)
    requires InServe(w.loc)
    ensures var e := ServeAct(h, mutex, w, c);
      && e.h.listenSock == h.listenSock && e.w.fd == w.fd && e.w.shut == w.shut
      && (InServe(e.w.loc) || e.w.loc == Selecting || e.w.loc == ClosingClient)
  {
  }

  lemma SetupStays(h: Handle, mutex: Owner, w: Worker, c: Choice)
    requires InSetup(w.loc)
    ensures var e := SetupAct(h, mutex, w, c);
      && e.mutex == mutex && e.w.joins == w.joins
      && e.h == h.(running := e.h.running, listenSock := e.h.listenSock, pfState := e.h.pfState)
      && (w.loc != RaisingFlag ==> e.h.running == h.running)
      && (h.listenSock >= -1 ==> e.h.listenSock >= -1)
      && (InSetup(e.w.loc) || e.w.loc == TestingFlag || e.w.loc == Ended)
  {
  }

  lemma CriticalParts(loc: Loc)
    ensures InSetup(loc) || InAccept(loc) || InExit(loc) ==> !InCritical(loc) && WellPlaced(loc)
    ensures loc == CheckingSession ==> InCritical(loc) && WellPlaced(loc)
  {
  }

  lemma SetupFrame(h: Handle, mutex: Owner, w: Worker, i: nat, c: Choice)
    requires InSetup(w.loc) && mutex != ByWorker(i)
    ensures Framed(h, mutex, w, i, SetupAct(h, mutex, w, c))
  {
    hide SetupAct, InCritical, WellPlaced;
    SetupStays(h, mutex, w, c);
    CriticalParts(SetupAct(h, mutex, w, c).w.loc);
  }

  lemma AcceptFrame(h: Handle, mutex: Owner, w: Worker, i: nat, c: Choice)
    requires InAccept(w.loc) && mutex != ByWorker(i)
    ensures Framed(h, mutex, w, i, AcceptAct(h, mutex, w, i, c))
  {
    hide AcceptAct, InCritical, WellPlaced;
    AcceptStays(h, mutex, w, i, c);
    CriticalParts(AcceptAct(h, mutex, w, i, c).w.loc);
  }

  lemma ServeFrame(h: Handle, mutex: Owner, w: Worker, i: nat, c: Choice)
    requires InServe(w.loc) && mutex == ByWorker(i)
    ensures Framed(h, mutex, w, i, ServeAct(h, mutex, w, c))
  {
    ServeStays(h, mutex, w, c);
  }

  lemma ExitStays(h: Handle, mutex: Owner, w: Worker)
    requires InExit(w.loc)
    ensures var e := ExitAct(h, mutex, w);
      && e.mutex == mutex && e.w.joins == w.joins && InExit(e.w.loc)
      && e.h == h.(listenSock := e.h.listenSock, pfState := e.h.pfState)
      && (h.listenSock >= -1 ==> e.h.listenSock >= -1)
      && (w.loc.Ended? ==> e == Effect(h, mutex, w))
  {
  }

  lemma ExitFrame(h: Handle, mutex: Owner, w: Worker, i: nat)
    requires InExit(w.loc) && mutex != ByWorker(i)
    ensures Framed(h, mutex, w, i, ExitAct(h, mutex, w))
  {
    hide ExitAct, InCritical, WellPlaced;
    ExitStays(h, mutex, w);
    CriticalParts(ExitAct(h, mutex, w).w.loc);
  }

  lemma ActFrame(h: Handle, mutex: Owner, w: Worker, i: nat, c: Choice)
    requires InCritical(w.loc) <==> mutex == ByWorker(i)
    ensures Framed(h, mutex, w, i, Act(h, mutex, w, i, c))
  {
    if InRound(w.loc) { RoundFrame(h.running, w, c); }
    else if InSetup(w.loc) { SetupFrame(h, mutex, w, i, c); }
    else if InAccept(w.loc) { AcceptFrame(h, mutex, w, i, c); }
    else if InServe(w.loc) { ServeFrame(h, mutex, w, i, c); }
    else { ExitFrame(h, mutex, w, i); }
  }

  lemma SetupKeepsFlag(h: Handle, mutex: Owner, w: Worker, c: Choice, cleared: bool)
    requires InSetup(w.loc) && FlagOk(h, w, cleared)
    ensures var e := SetupAct(h, mutex, w, c); FlagOk(e.h, e.w, cleared)
  {
  }

  lemma AcceptServes(h: Handle, mutex: Owner, w: Worker, i: nat, c: Choice)
    requires InAccept(w.loc) && h.running
    ensures var e := AcceptAct(h, mutex, w, i, c); e.h.running && (InAccept(e.w.loc) || e.w.loc == CheckingSession)
  {
  }

  lemma ServeServes(h: Handle, mutex: Owner, w: Worker, c: Choice)
    requires InServe(w.loc) && h.running
    ensures var e := ServeAct(h, mutex, w, c);
      e.h.running && (InServe(e.w.loc) || e.w.loc == Selecting || e.w.loc == ClosingClient)
  {
  }

  /** With the flag up, no step of the accept loop leaves it. */
  lemma RaisedNeverExits(h: Handle, mutex: Owner, w: Worker, i: nat, c: Choice)
    requires h.running && !InSetup(w.loc) && !InExit(w.loc)
    ensures var e := Act(h, mutex, w, i, c); e.h.running && !InSetup(e.w.loc) && !InExit(e.w.loc)
  {
    if InRound(w.loc) { RoundFrame(true, w, c); }
    else if InAccept(w.loc) { AcceptServes(h, mutex, w, i, c); }
    else { ServeServes(h, mutex, w, c); }
  }

  /** A worker past line 513 never comes back to it. */
  lemma NeverBackInSetup(h: Handle, mutex: Owner, w: Worker, i: nat, c: Choice)
    requires !InSetup(w.loc)
    ensures !InSetup(Act(h, mutex, w, i, c).w.loc)
  {
    if InRound(w.loc) { RoundFrame(h.running, w, c); }
    else if InAccept(w.loc) { AcceptStays(h, mutex, w, i, c); }
    else if InServe(w.loc) { ServeStays(h, mutex, w, c); }
    else { assert InExit(ExitAct(h, mutex, w).w.loc); }
  }

  lemma ActKeepsFlag(h: Handle, mutex: Owner, w: Worker, i: nat, c: Choice, cleared: bool)
    requires FlagOk(h, w, cleared)
    ensures var e := Act(h, mutex, w, i, c); FlagOk(e.h, e.w, cleared)
  {
    if InSetup(w.loc) {
      SetupKeepsFlag(h, mutex, w, c, cleared);
    } else {
      NeverBackInSetup(h, mutex, w, i, c);
      if !cleared && PastRaise(w.loc) { RaisedNeverExits(h, mutex, w, i, c); }
    }
  }

  lemma SetupKeepsListen(h: Handle, mutex: Owner, w: Worker, c: Choice)
    requires InSetup(w.loc) && ListenOk(h, w)
    ensures var e := SetupAct(h, mutex, w, c); ListenOk(e.h, e.w)
  {
  }

  lemma ActKeepsListen(h: Handle, mutex: Owner, w: Worker, i: nat, c: Choice)
    requires ListenOk(h, w)
    ensures var e := Act(h, mutex, w, i, c); ListenOk(e.h, e.w)
  {
    if InRound(w.loc) { RoundFrame(h.running, w, c); }
    else if InSetup(w.loc) { SetupKeepsListen(h, mutex, w, c); }
    else if InAccept(w.loc) { AcceptStays(h, mutex, w, i, c); }
    else if InServe(w.loc) { ServeStays(h, mutex, w, c); }
  }

  lemma WorkerKeepsCurrent(s: System, i: nat, c: Choice)
    requires Inv(s) && i < |s.workers|
    ensures CurrentOk(WorkerNext(s, i, c))
  {
    assert ThreadOk(s, i);
    ActFrame(s.h, s.mutex, s.workers[i], i, c);
    if s.h.thread == i + 1 {
      ActKeepsFlag(s.h, s.mutex, s.workers[i], i, c, Cleared(s.ctl.loc));
      ActKeepsListen(s.h, s.mutex, s.workers[i], i, c);
    }
  }

  lemma WorkerKeepsInv(s: System, i: nat, c: Choice)
    requires Inv(s) && i < |s.workers|
    ensures Inv(WorkerNext(s, i, c))
  {
    assert ThreadOk(s, i);
    ActFrame(s.h, s.mutex, s.workers[i], i, c);
    WorkerKeepsCurrent(s, i, c);
    var s' := WorkerNext(s, i, c);
    forall j | 0 <= j < |s'.workers| ensures ThreadOk(s', j) {
      assert ThreadOk(s, j);
    }
  }

  // -------------------------------------------------------- controller steps

  /** A controller step leaves every worker alone but the one it joins or whose
      listener it shuts down, and adds at most one. */
  lemma ControllerKeepsThreads(s: System, c: Choice, j: nat)
    requires Inv(s) && j < |ControllerNext(s, c).workers|
    ensures ThreadOk(ControllerNext(s, c), j)
  {
    if j < |s.workers| { assert ThreadOk(s, j); }
  }

  lemma StopKeepsOk(s: System, c: Choice)
    requires ControllerOk(s) && InStop(s.ctl.loc)
    ensures ControllerOk(StopNext(s, c))
  {
  }

  lemma DisconnectKeepsOk(s: System)
    requires ControllerOk(s) && InDisconnect(s.ctl.loc)
    ensures ControllerOk(DisconnectNext(s))
  {
  }

  lemma ControllerKeepsOk(s: System, c: Choice)
    requires ControllerOk(s)
    ensures ControllerOk(ControllerNext(s, c))
  {
    if InStop(s.ctl.loc) { StopKeepsOk(s, c); }
    else if InDisconnect(s.ctl.loc) { DisconnectKeepsOk(s); }
  }

  lemma StopKeepsCurrent(s: System, c: Choice)
    requires ControllerOk(s) && CurrentOk(s) && InStop(s.ctl.loc)
    ensures CurrentOk(StopNext(s, c))
  {
  }

  lemma ControllerKeepsCurrent(s: System, c: Choice)
    requires ControllerOk(s) && CurrentOk(s)
    ensures CurrentOk(ControllerNext(s, c))
  {
    if InStop(s.ctl.loc) { StopKeepsCurrent(s, c); }
  }

  lemma ControllerKeepsInv(s: System, c: Choice)
    requires Inv(s)
    ensures Inv(ControllerNext(s, c))
  {
    ControllerKeepsOk(s, c);
    ControllerKeepsCurrent(s, c);
    var s' := ControllerNext(s, c);
    forall j | 0 <= j < |s'.workers| ensures ThreadOk(s', j) {
      ControllerKeepsThreads(s, c, j);
    }
  }

  lemma StepKeepsInv(s: System, step: Step)
    requires Inv(s)
    ensures Inv(Next(s, step))
  {
    match step
    case ControllerStep(c) => ControllerKeepsInv(s, c);
    case WorkerStep(i, c) => if i < |s.workers| { WorkerKeepsInv(s, i, c); }
  }

  lemma {:induction false} RunKeepsInv(s: System, steps: seq<Step>)
    requires Inv(s)
    ensures Inv(Exec(s, steps))
    decreases |steps|
  {
    if steps != [] {
      StepKeepsInv(s, steps[0]);
      RunKeepsInv(Next(s, steps[0]), steps[1..]);
    }
  }

  // ---------------------------------------------------------- over whole runs

  /** While a worker is alive, neither the session nor the handle it uses has
      been freed, and the handle names that thread. */
  lemma NoUseAfterFree(init: System, steps: seq<Step>, i: nat)
    requires Initial(init)
    ensures var s := Exec(init, steps);
      Alive(s, i) ==> !s.h.sessionFreed && !s.h.handleFreed && s.h.thread == i + 1
  {
    RunKeepsInv(init, steps);
    var s := Exec(init, steps);
    if Alive(s, i) { assert ThreadOk(s, i); }
  }

  /** At most one thread is alive; every thread is joined at most once, never
      before it has ended, and all but the current one have been. */
  lemma OneWorkerOneJoin(init: System, steps: seq<Step>, i: nat, j: nat)
    requires Initial(init)
    ensures var s := Exec(init, steps);
      && (Alive(s, i) && Alive(s, j) ==> i == j)
      && (i < |s.workers| ==> s.workers[i].joins <= 1)
      && (i < |s.workers| && s.workers[i].joins == 1 ==> s.workers[i].loc.Ended?)
      && (i < |s.workers| && i + 1 != s.h.thread ==> s.workers[i].joins == 1)
  {
    RunKeepsInv(init, steps);
    var s := Exec(init, steps);
    if i < |s.workers| { assert ThreadOk(s, i); }
    if j < |s.workers| { assert ThreadOk(s, j); }
  }

  /** Before a stop clears it, the flag tells how far the current thread is: an
      alive worker is short of line 513 exactly while the flag reads 0. */
  lemma FlagTellsProgress(init: System, steps: seq<Step>, i: nat)
    requires Initial(init)
    ensures var s := Exec(init, steps);
      Alive(s, i) && !Cleared(s.ctl.loc) ==> (InSetup(s.workers[i].loc) <==> !s.h.running)
  {
    RunKeepsInv(init, steps);
    var s := Exec(init, steps);
    if Alive(s, i) { assert ThreadOk(s, i); }
  }

  /** A worker whose step can leave it as it was has ended, waits for a
      connection on a listener that is still up, or waits for the mutex. */
  lemma ActMoves(h: Handle, mutex: Owner, w: Worker, i: nat, c: Choice)
    requires Act(h, mutex, w, i, c).w == w
    ensures w.loc.Ended? || (w.loc.Accepting? && !w.shut) || (w.loc.Locking? && !mutex.Free?)
  {
    if InRound(w.loc) { RoundMoves(h.running, w, c); }
    else if InServe(w.loc) { ServeMoves(h, mutex, w, c); }
  }

  lemma RoundMoves(running: bool, w: Worker, c: Choice)
    requires InRound(w.loc)
    ensures RoundAct(running, w, c).loc != w.loc
  {
  }

  lemma ServeMoves(h: Handle, mutex: Owner, w: Worker, c: Choice)
    requires InServe(w.loc)
    ensures ServeAct(h, mutex, w, c).w.loc != w.loc
  {
  }

  lemma MutexIsFree(s: System, i: nat)
    requires Inv(s)
    ensures s.ctl.loc.TryJoin? || s.ctl.loc.TryState? || s.ctl.loc.Join? ==> s.mutex != ByController
    ensures i < |s.workers| && s.workers[i].loc.Ended? ==> s.mutex != ByWorker(i)
    ensures s.ctl.loc.DisLock? ==> s.mutex == Free
    ensures i < |s.workers| && s.workers[i].loc.Locking? ==> s.mutex == Free
    ensures s.ctl.loc.Join? ==> 0 < s.h.thread <= |s.workers|
  {
    if s.mutex.ByWorker? { assert ThreadOk(s, s.mutex.i); }
    if i < |s.workers| { assert ThreadOk(s, i); }
  }

  lemma WorkerWaits(s: System, i: nat, c: Choice)
    requires Inv(s) && Alive(s, i) && WorkerNext(s, i, c).workers[i] == s.workers[i]
    ensures s.workers[i].loc.Accepting? && !s.workers[i].shut
  {
    hide Act;
    MutexIsFree(s, i);
    ActMoves(s.h, s.mutex, s.workers[i], i, c);
  }

  /** Nobody waits for the mutex while waiting to be joined: the controller
      never owns it in a join, an ended thread never owns it, and when the
      controller or a worker comes to take it, it is free.  A step that leaves
      its thread where it was is therefore one of two waits: the controller's
      for a thread that is still alive, or a worker's for a connection on a
      listener that nobody has shut down. */
  lemma NoWaitCycle(init: System, steps: seq<Step>, i: nat, c: Choice)
    requires Initial(init)
    ensures var s := Exec(init, steps);
      && (s.ctl.loc.TryJoin? || s.ctl.loc.TryState? || s.ctl.loc.Join? ==> s.mutex != ByController)
      && (i < |s.workers| && s.workers[i].loc.Ended? ==> s.mutex != ByWorker(i))
      && (s.ctl.loc.DisLock? ==> s.mutex == Free)
      && (i < |s.workers| && s.workers[i].loc.Locking? ==> s.mutex == Free)
      && (ControllerNext(s, c).ctl == s.ctl && !s.ctl.loc.Gone? ==>
            s.ctl.loc.Join? && s.h.thread > 0 && Alive(s, s.h.thread - 1))
      && (Alive(s, i) && WorkerNext(s, i, c).workers[i] == s.workers[i] ==>
            s.workers[i].loc.Accepting? && !s.workers[i].shut)
  {
    hide Exec, Inv, Act, ControllerNext;
    RunKeepsInv(init, steps);
    var s := Exec(init, steps);
    MutexIsFree(s, i);
    if Alive(s, i) && WorkerNext(s, i, c).workers[i] == s.workers[i] { WorkerWaits(s, i, c); }
    if ControllerNext(s, c).ctl == s.ctl { ControllerMoves(s, c); }
  }

  lemma ControllerMoves(s: System, c: Choice)
    requires Inv(s) && ControllerNext(s, c).ctl == s.ctl
    ensures s.ctl.loc.Gone? || (s.ctl.loc.DisLock? && !s.mutex.Free?) || (s.ctl.loc.Join? && !CurrentEnded(s))
  {
  }

  /** A joined thread is never joined again: the controller joins only the
      thread the handle names, and its count is then still 0. */
  lemma JoinsOnlyOnce(s: System, c: Choice)
    requires Inv(s) && ControllerNext(s, c).ctl.loc.StopDone? && !s.ctl.loc.StopDone?
    ensures CurrentEnded(s) && s.workers[s.h.thread - 1].joins == 0
  {
    assert ThreadOk(s, s.h.thread - 1);
  }
}
