/** What a stop achieves, and exactly when it can hang. */
module ForwardShutdown {
  import opened Limits
  import opened ForwardProtocol
  import opened ForwardSafety

  /** The flag has been cleared behind a worker that no longer raises it. */
  ghost predicate Draining(s: System, i: nat) {
    && i < |s.workers| && !InSetup(s.workers[i].loc)
    && (s.workers[i].loc.Ended? || !s.h.running)
  }

  // ---------------------------------------------------------------- ranking

  function Slack(pending: nat): nat { if pending <= BACKPRESSURE then BACKPRESSURE + 1 - pending else 0 }

  /** Just above the largest rank inside the receive loop. */
  const LOOP_TOP := 17 + 3 * (BACKPRESSURE + 1)

  function FlushRank(site: Site, pending: nat): nat {
    match site
    case Last => 10
    case AfterRead => 13
    case OnSession => 15
    case AfterRecv => 17 + 3 * Slack(pending) + 1
    case TickDown => LOOP_TOP + 5
    case TickUp => LOOP_TOP + 7
  }

  /** How many more steps a worker can take once the flag is down. */
  function Rank(w: Worker): nat {
    match w.loc
    case Ended => 0
    case Exiting => 1
    case ClearingListener => 2
    case TestingListener => 3
    case ClosingListener => 4
    case TestingFlag => 5
    case ClosingClient => 6
    case Unlocking => 7
    case ClosingChannel => 8
    case TestingForward => 9
    case CheckingChannel => 10
    case FlushTest(site) => FlushRank(site, w.pending) + 1
    case FinalFlush => 12
    case TestingRead => 13
    case Reading => 15
    case ServingSession => 17
    case CheckingPending => 17 + 3 * Slack(w.pending) + 1
    case Receiving => 17 + 3 * (if Slack(w.pending) == 0 then 1 else Slack(w.pending))
    case ServingClient => LOOP_TOP + 5
    case TickingDown => LOOP_TOP + 7
    case TickingUp => LOOP_TOP + 9
    case Ticking => LOOP_TOP + 10
    case Selecting => LOOP_TOP + 11
    case WritingState => LOOP_TOP + 12
    case ReadingState => LOOP_TOP + 13
    case FlushWrite(site) => FlushRank(site, 0) + 2
    case Opening(attempt) => 9 + if attempt <= MAX_OPEN_ATTEMPTS then MAX_OPEN_ATTEMPTS + 1 - attempt else 0
    case CheckingSession => 20
    case Locking => 21
    case Accepted => 22
    case Accepting => 23
    case Waiting => 24
    case _ => 0
  }

  const MAX_RANK := LOOP_TOP + 13

  lemma TickDescends(w: Worker, c: Choice)
    requires InTick(w.loc)
    ensures Rank(TickAct(w, c)) < Rank(w)
  {
  }

  lemma ReceivingDescends(w: Worker, c: Choice)
    requires w.loc.Receiving?
    ensures Rank(ReceiveAct(w, c)) < Rank(w)
  {
    var w' := ReceiveAct(w, c);
    if w'.loc.FlushTest? {
      assert w'.loc.site == AfterRecv && w'.pending > w.pending;
    } else {
      assert w'.loc == ServingSession;
    }
  }

  lemma ReceiveDescends(w: Worker, c: Choice)
    requires InReceive(w.loc)
    ensures Rank(ReceiveAct(w, c)) < Rank(w)
  {
    if w.loc.Receiving? { ReceivingDescends(w, c); }
  }

  lemma ReadDescends(w: Worker, c: Choice)
    requires InRead(w.loc)
    ensures Rank(ReadAct(false, w, c)) < Rank(w)
  {
  }

  lemma AfterFlushDescends(w: Worker, site: Site)
    ensures Rank(w.(loc := AfterFlush(site))) <= FlushRank(site, w.pending) <= FlushRank(site, 0)
  {
  }

  lemma FlushTestDescends(w: Worker, c: Choice)
    requires w.loc.FlushTest?
    ensures Rank(FlushAct(false, w, c)) < Rank(w)
  {
    AfterFlushDescends(w, w.loc.site);
    assert FlushAct(false, w, c) == w.(loc := AfterFlush(w.loc.site));
  }

  lemma FlushWriteDescends(w: Worker, c: Choice)
    requires w.loc.FlushWrite?
    ensures Rank(FlushAct(false, w, c)) < Rank(w)
  {
    var w' := FlushAct(false, w, c);
    AfterFlushDescends(w', w.loc.site);
    if w'.loc.FlushTest? {
      assert Rank(w') == FlushRank(w.loc.site, w'.pending) + 1;
    } else {
      assert w' == w'.(loc := AfterFlush(w.loc.site));
    }
  }

  lemma FlushDescends(w: Worker, c: Choice)
    requires InFlush(w.loc)
    ensures Rank(FlushAct(false, w, c)) < Rank(w)
  {
    if w.loc.FlushTest? { FlushTestDescends(w, c); } else { FlushWriteDescends(w, c); }
  }

  lemma ExitDescends(h: Handle, mutex: Owner, w: Worker)
    requires InExit(w.loc) && !w.loc.Ended?
    ensures Rank(ExitAct(h, mutex, w).w) < Rank(w)
  {
  }

  lemma AcceptDescends(h: Handle, mutex: Owner, w: Worker, i: nat, c: Choice)
    requires InAccept(w.loc) && !h.running && (w.loc.Locking? ==> mutex == Free) && (w.loc.Accepting? ==> w.shut)
    ensures Rank(AcceptAct(h, mutex, w, i, c).w) < Rank(w)
  {
  }

  lemma ServeDescends(h: Handle, mutex: Owner, w: Worker, c: Choice)
    requires InServe(w.loc) && !h.running && WellPlaced(w.loc)
    ensures Rank(ServeAct(h, mutex, w, c).w) < Rank(w)
  {
  }

  lemma ActDescends(h: Handle, mutex: Owner, w: Worker, i: nat, c: Choice)
    requires PastRaise(w.loc) && !h.running && WellPlaced(w.loc)
    requires (w.loc.Locking? ==> mutex == Free) && (w.loc.Accepting? ==> w.shut)
    ensures Rank(Act(h, mutex, w, i, c).w) < Rank(w)
  {
    if InTick(w.loc) { TickDescends(w, c); }
    else if InReceive(w.loc) { ReceiveDescends(w, c); }
    else if InRead(w.loc) { ReadDescends(w, c); }
    else if InFlush(w.loc) { FlushDescends(w, c); }
    else if InAccept(w.loc) { AcceptDescends(h, mutex, w, i, c); }
    else if InServe(w.loc) { ServeDescends(h, mutex, w, c); }
    else { ExitDescends(h, mutex, w); }
  }

  lemma RankBounded(w: Worker)
    requires WellPlaced(w.loc)
    ensures Rank(w) <= MAX_RANK
    ensures PastRaise(w.loc) ==> Rank(w) > 0
  {
    if w.loc.FlushTest? || w.loc.FlushWrite? { AfterFlushDescends(w, w.loc.site); }
  }

  // ---------------------------------------------------------------- budgets

  function StateWritesLeft(loc: Loc): nat {
    match loc
    case Waiting => 2
    case Accepting => 1
    case Accepted => 1
    case ReadingState => 1
    case WritingState => 1
    case _ => 0
  }

  function AcceptsLeft(loc: Loc): nat { if loc.Waiting? || loc.Accepting? then 1 else 0 }

  function OpensLeft(loc: Loc): nat {
    match loc
    case Waiting => MAX_OPEN_ATTEMPTS
    case Accepting => MAX_OPEN_ATTEMPTS
    case Accepted => MAX_OPEN_ATTEMPTS
    case Locking => MAX_OPEN_ATTEMPTS
    case CheckingSession => MAX_OPEN_ATTEMPTS
    case Opening(attempt) => if attempt <= MAX_OPEN_ATTEMPTS then MAX_OPEN_ATTEMPTS + 1 - attempt else 0
    case _ => 0
  }

  function SinkWritesLeft(loc: Loc): nat { if loc.FlushWrite? then 1 else 0 }

  /** Going from `w` to `w'` has cost no more than its location allowed. */
  predicate Spent(w: Worker, w': Worker) {
    && w'.stateWrites + StateWritesLeft(w'.loc) <= w.stateWrites + StateWritesLeft(w.loc)
    && w'.accepts + AcceptsLeft(w'.loc) <= w.accepts + AcceptsLeft(w.loc)
    && w'.opens + OpensLeft(w'.loc) <= w.opens + OpensLeft(w.loc)
    && w'.sinkWrites + SinkWritesLeft(w'.loc) <= w.sinkWrites + SinkWritesLeft(w.loc)
    && w'.rounds <= w.rounds
  }

  lemma TickSpends(w: Worker, c: Choice)
    requires InTick(w.loc)
    ensures Spent(w, TickAct(w, c)) && !InSetup(TickAct(w, c).loc)
  {
  }

  lemma ReceiveSpends(w: Worker, c: Choice)
    requires InReceive(w.loc)
    ensures Spent(w, ReceiveAct(w, c)) && !InSetup(ReceiveAct(w, c).loc)
  {
  }

  lemma ReadSpends(w: Worker, c: Choice)
    requires InRead(w.loc)
    ensures Spent(w, ReadAct(false, w, c)) && !InSetup(ReadAct(false, w, c).loc)
  {
  }

  lemma FlushSpends(w: Worker, c: Choice)
    requires InFlush(w.loc)
    ensures Spent(w, FlushAct(false, w, c)) && !InSetup(FlushAct(false, w, c).loc)
  {
  }

  lemma RoundSpends(w: Worker, c: Choice)
    requires InRound(w.loc)
    ensures var w' := RoundAct(false, w, c); Spent(w, w') && !InSetup(w'.loc)
  {
    if InTick(w.loc) { TickSpends(w, c); }
    else if InReceive(w.loc) { ReceiveSpends(w, c); }
    else if InRead(w.loc) { ReadSpends(w, c); }
    else { FlushSpends(w, c); }
  }

  lemma AcceptSpends(h: Handle, mutex: Owner, w: Worker, i: nat, c: Choice)
    requires InAccept(w.loc) && !h.running
    ensures var w' := AcceptAct(h, mutex, w, i, c).w; Spent(w, w') && !InSetup(w'.loc)
  {
  }

  lemma OpeningSpends(h: Handle, mutex: Owner, w: Worker, c: Choice)
    requires w.loc.Opening? && WellPlaced(w.loc)
    ensures var w' := ServeAct(h, mutex, w, c).w; Spent(w, w') && !InSetup(w'.loc)
  {
    var w' := ServeAct(h, mutex, w, c).w;
    assert w'.loc == TestingForward || w'.loc == Opening(w.loc.attempt + 1) || w'.loc == ClosingChannel;
  }

  lemma ServeSpends(h: Handle, mutex: Owner, w: Worker, c: Choice)
    requires InServe(w.loc) && !h.running && WellPlaced(w.loc)
    ensures var w' := ServeAct(h, mutex, w, c).w; Spent(w, w') && !InSetup(w'.loc)
  {
    if w.loc.Opening? {
      OpeningSpends(h, mutex, w, c);
    }
  }

  lemma ExitSpends(h: Handle, mutex: Owner, w: Worker)
    requires InExit(w.loc)
    ensures var w' := ExitAct(h, mutex, w).w; Spent(w, w') && !InSetup(w'.loc)
  {
  }

  lemma ActSpends(h: Handle, mutex: Owner, w: Worker, i: nat, c: Choice)
    requires !InSetup(w.loc) && WellPlaced(w.loc) && (w.loc.Ended? || !h.running)
    ensures var w' := Act(h, mutex, w, i, c).w; Spent(w, w') && !InSetup(w'.loc)
  {
    hide RoundAct, AcceptAct, ServeAct, ExitAct, Spent;
    if InRound(w.loc) { RoundSpends(w, c); }
    else if InAccept(w.loc) { AcceptSpends(h, mutex, w, i, c); }
    else if InServe(w.loc) { ServeSpends(h, mutex, w, c); }
    else { ExitSpends(h, mutex, w); }
  }

  // -------------------------------------------------------------- draining

  /** The worker waits for a connection on a listener that is still up. */
  predicate WaitsForConnection(w: Worker) { w.loc.Accepting? && !w.shut }

  /** Draining, and the worker's listener is shut down or given up, so that its
      `accept` cannot wait any more. */
  ghost predicate Quenched(s: System, i: nat) {
    Draining(s, i) && (HoldsListener(s.workers[i].loc) ==> s.workers[i].shut)
  }

  lemma OnlyCurrentMoves(s: System, i: nat, j: nat)
    requires Inv(s) && Alive(s, i) && j < |s.workers| && j != i
    ensures s.workers[j].loc.Ended?
  {
    assert ThreadOk(s, i) && ThreadOk(s, j);
  }

  lemma ControllerDrains(s: System, c: Choice, i: nat)
    requires Inv(s) && Draining(s, i)
    ensures var s' := ControllerNext(s, c);
      && Draining(s', i)
      && s'.workers[i] == s.workers[i].(joins := s'.workers[i].joins, shut := s'.workers[i].shut)
      && (s.workers[i].shut ==> s'.workers[i].shut)
  {
  }

  /** A worker gives its listener up for good. */
  lemma ListenerStaysGone(h: Handle, mutex: Owner, w: Worker, i: nat, c: Choice)
    requires !InSetup(w.loc)
    ensures var w' := Act(h, mutex, w, i, c).w;
      w'.shut == w.shut && (HoldsListener(w'.loc) ==> HoldsListener(w.loc))
  {
    if InRound(w.loc) { RoundFrame(h.running, w, c); }
    else if InAccept(w.loc) { AcceptStays(h, mutex, w, i, c); }
    else if InServe(w.loc) { ServeStays(h, mutex, w, c); }
  }

  /** The worker's own step. */
  lemma OwnStepDrains(s: System, c: Choice, i: nat)
    requires Inv(s) && Draining(s, i)
    ensures var w := s.workers[i]; var w' := WorkerNext(s, i, c).workers[i];
      && Draining(WorkerNext(s, i, c), i) && Spent(w, w')
      && w'.shut == w.shut && (HoldsListener(w'.loc) ==> HoldsListener(w.loc))
      && (Alive(s, i) && !WaitsForConnection(w) ==> Rank(w') < Rank(w))
      && (WaitsForConnection(w) ==> Rank(w') <= Rank(w))
      && (!Alive(s, i) ==> w' == w)
  {
    hide Act;
    assert ThreadOk(s, i);
    var w := s.workers[i];
    ActFrame(s.h, s.mutex, w, i, c);
    ActSpends(s.h, s.mutex, w, i, c);
    ListenerStaysGone(s.h, s.mutex, w, i, c);
    if Alive(s, i) {
      if WaitsForConnection(w) {
        WaitDescends(s.h, s.mutex, w, i, c);
      } else {
        if s.mutex.ByWorker? { assert ThreadOk(s, s.mutex.i); }
        ActDescends(s.h, s.mutex, w, i, c);
      }
    }
  }

  lemma WaitDescends(h: Handle, mutex: Owner, w: Worker, i: nat, c: Choice)
    requires WaitsForConnection(w)
    ensures Rank(Act(h, mutex, w, i, c).w) <= Rank(w)
  {
    assert Act(h, mutex, w, i, c) == AcceptAct(h, mutex, w, i, c);
  }

  /** Another thread has ended, or is the only one alive. */
  lemma OtherStepDrains(s: System, j: nat, c: Choice, i: nat)
    requires Inv(s) && Draining(s, i) && j < |s.workers| && j != i
    ensures Draining(WorkerNext(s, j, c), i) && WorkerNext(s, j, c).workers[i] == s.workers[i]
  {
    assert ThreadOk(s, j);
    ActFrame(s.h, s.mutex, s.workers[j], j, c);
    if Alive(s, i) { OnlyCurrentMoves(s, i, j); }
  }

  /** How many steps of a run are worker `i`'s. */
  function StepsOf(steps: seq<Step>, i: nat): nat {
    if steps == [] then 0
    else (if steps[0].WorkerStep? && steps[0].i == i then 1 else 0) + StepsOf(steps[1..], i)
  }

  /** Every step of such a worker but a wait for a connection lowers its rank,
      and no step of anybody raises it. */
  lemma StepDrains(s: System, step: Step, i: nat)
    requires Inv(s) && Draining(s, i)
    ensures var s' := Next(s, step); var w := s.workers[i];
      && Draining(s', i) && (Quenched(s, i) ==> Quenched(s', i))
      && Spent(w, s'.workers[i]) && Rank(s'.workers[i]) <= Rank(w)
      && (step.WorkerStep? && step.i == i && Alive(s, i) && !WaitsForConnection(w) ==> Rank(s'.workers[i]) < Rank(w))
      && (!Alive(s, i) ==> !Alive(s', i))
  {
    hide Act, ControllerNext;
    match step
    case ControllerStep(c) => ControllerDrains(s, c, i);
    case WorkerStep(j, c) =>
      if j == i {
        OwnStepDrains(s, c, i);
      } else if j < |s.workers| {
        OtherStepDrains(s, j, c, i);
      }
  }

  lemma {:induction false} RunDrains(s: System, steps: seq<Step>, i: nat)
    requires Inv(s) && Draining(s, i)
    ensures var s' := Exec(s, steps);
      && Draining(s', i) && Spent(s.workers[i], s'.workers[i])
      && (!Alive(s, i) ==> !Alive(s', i))
    decreases |steps|
  {
    if steps != [] {
      StepKeepsInv(s, steps[0]);
      StepDrains(s, steps[0], i);
      RunDrains(Next(s, steps[0]), steps[1..], i);
    }
  }

  lemma {:induction false} RunEnds(s: System, steps: seq<Step>, i: nat)
    requires Inv(s) && Quenched(s, i)
    ensures var s' := Exec(s, steps);
      && Quenched(s', i)
      && (Alive(s', i) ==> Rank(s'.workers[i]) + StepsOf(steps, i) <= Rank(s.workers[i]))
    decreases |steps|
  {
    if steps != [] {
      var s1 := Next(s, steps[0]);
      StepKeepsInv(s, steps[0]);
      StepDrains(s, steps[0], i);
      RunEnds(s1, steps[1..], i);
      if !Alive(s1, i) { RunDrains(s1, steps[1..], i); }
    }
  }

  /** Once the flag has been cleared behind a worker past line 513, then in
      every interleaving from there on that worker starts no round, accepts at
      most one more connection, makes at most ten open attempts, at most one
      write to a sink and at most two state writes before EXIT. */
  lemma ShutdownIsBounded(s: System, steps: seq<Step>, i: nat)
    requires Inv(s) && Draining(s, i)
    ensures var s' := Exec(s, steps);
      && Draining(s', i)
      && var w := s.workers[i]; var w' := s'.workers[i];
      && w'.rounds <= w.rounds
      && w'.accepts <= w.accepts + 1
      && w'.opens <= w.opens + 10
      && w'.sinkWrites <= w.sinkWrites + 1
      && w'.stateWrites <= w.stateWrites + 2
  {
    RunDrains(s, steps, i);
    assert ThreadOk(s, i);
  }

  /** Once its listener has been shut down too, that worker waits for nothing,
      and it has ended when it has taken MAX_RANK steps. */
  lemma QuenchedWorkerEnds(s: System, steps: seq<Step>, i: nat)
    requires Inv(s) && Quenched(s, i) && StepsOf(steps, i) >= MAX_RANK
    ensures !Alive(Exec(s, steps), i)
  {
    RunEnds(s, steps, i);
    RunKeepsInv(s, steps);
    var s' := Exec(s, steps);
    assert ThreadOk(s, i) && ThreadOk(s', i);
    RankBounded(s.workers[i]);
    RankBounded(s'.workers[i]);
  }
}
