/** When a stop returns, and when it never does. */
module ForwardReturn {
  import opened ForwardProtocol
  import opened ForwardSafety
  import opened ForwardShutdown
  import opened ForwardStop

  // -------------------------------------------------------------- lost stops

  /** The controller waits in a stop whose clear has been overwritten: the flag
      is up again and the worker is somewhere in its accept loop. */
  ghost predicate Stuck(s: System, i: nat) {
    && i < |s.workers| && s.h.thread == i + 1 && s.h.running
    && !InSetup(s.workers[i].loc) && !InExit(s.workers[i].loc)
    && Cleared(s.ctl.loc) && !s.ctl.loc.StopDone?
  }

  lemma StepKeepsStuck(s: System, step: Step, i: nat)
    requires Inv(s) && Stuck(s, i)
    ensures Stuck(Next(s, step), i)
  {
    match step
    case ControllerStep(c) =>
    case WorkerStep(j, c) =>
      if j < |s.workers| {
        hide Act;
        assert ThreadOk(s, j);
        ActFrame(s.h, s.mutex, s.workers[j], j, c);
        if j == i {
          RaisedNeverExits(s.h, s.mutex, s.workers[i], i, c);
        } else {
          OnlyCurrentMoves(s, i, j);
        }
      }
  }

  /** A stuck stop never returns: along every continuation the worker stays
      alive, so the join is never enabled. */
  lemma {:induction false} StuckForEver(s: System, steps: seq<Step>, i: nat)
    requires Inv(s) && Stuck(s, i)
    ensures var s' := Exec(s, steps);
      Stuck(s', i) && Alive(s', i) && !CurrentEnded(s')
    decreases |steps|
  {
    if steps != [] {
      StepKeepsInv(s, steps[0]);
      StepKeepsStuck(s, steps[0], i);
      StuckForEver(Next(s, steps[0]), steps[1..], i);
    }
  }

  /** A worker still short of line 513 can run on and raise the flag again. */
  lemma {:induction false} RaiseOverClear(s: System, i: nat) returns (steps: seq<Step>)
    requires Inv(s) && i < |s.workers| && s.h.thread == i + 1 && InSetup(s.workers[i].loc)
    requires Cleared(s.ctl.loc) && !s.ctl.loc.StopDone?
    ensures Stuck(Exec(s, steps), i)
    decreases ToRaise(s.workers[i].loc)
  {
    var go := WorkerStep(i, Choice(true, LISTENER_FD));
    var s1 := Next(s, go);
    StepKeepsInv(s, go);
    if InSetup(s1.workers[i].loc) {
      assert ToRaise(s1.workers[i].loc) < ToRaise(s.workers[i].loc);
      var rest := RaiseOverClear(s1, i);
      steps := [go] + rest;
      assert steps[1..] == rest;
    } else {
      steps := [go];
      assert steps[1..] == [];
    }
  }

  ghost predicate LeadsToStuck(s: System, steps: seq<Step>, i: nat) { Stuck(Exec(s, steps), i) }

  /** A setup on a fresh handle, to the point where its thread exists. */
  lemma ReachSpawn() returns (init: System, steps: seq<Step>)
    ensures Initial(init)
    ensures var s := Exec(init, steps);
      s.ctl.loc == Idle && s.h.thread == 1 && s.workers == [NewWorker()]
  {
    init := System(Handle(0, false, 0, StNone, true, false, false), Free, [], Controller(Idle, false, false));
    var go := ControllerStep(Choice(true, 0));
    steps := [];
    assert Exec(init, steps) == init;
    ExecThen(init, steps, go);
    steps := steps + [go];
    ExecThen(init, steps, go);
    steps := steps + [go];
    ExecThen(init, steps, go);
    steps := steps + [go];
    assert Exec(init, steps).ctl.loc == SetupCreate && Exec(init, steps).workers == [];
    ExecThen(init, steps, go);
    steps := steps + [go];
  }

  /** Such a stop is reachable: set up, then stop before the new thread has run. */
  lemma LostStopIsReachable()
    ensures exists init, steps :: Initial(init) && LeadsToStuck(init, steps, 0)
  {
    var init, a := ReachSpawn();
    var stop := ControllerStep(Choice(true, 1));
    ExecThen(init, a, stop);
    ExecThen(init, a + [stop], stop);
    ExecThen(init, a + [stop] + [stop], stop);
    var b := a + [stop] + [stop] + [stop];
    RunKeepsInv(init, b);
    var c := RaiseOverClear(Exec(init, b), 0);
    ExecAppend(init, b, c);
    assert LeadsToStuck(init, b + c, 0);
  }

  // ------------------------------------------------------------- the return

  /** How many of a run's steps are the controller's. */
  function ControllerSteps(steps: seq<Step>): nat {
    if steps == [] then 0
    else (if steps[0].ControllerStep? then 1 else 0) + ControllerSteps(steps[1..])
  }

  /** How many controller steps a stop is short of having shut the listener. */
  function ToShut(loc: CLoc): nat {
    match loc
    case StopTest => 5
    case StopClear => 4
    case StopState => 3
    case StopListenTest => 2
    case StopListenClose => 1
    case _ => 0
  }

  /** How many controller steps a stop is short of its return once its worker
      has ended. */
  function ToReturn(loc: CLoc): nat {
    match loc
    case StopTest => 2 * TRY_JOINS + 8
    case StopClear => 2 * TRY_JOINS + 7
    case StopState => 2 * TRY_JOINS + 6
    case StopListenTest => 2 * TRY_JOINS + 5
    case StopListenClose => 2 * TRY_JOINS + 4
    case TryJoin(attempt) => if attempt < TRY_JOINS then 2 * (TRY_JOINS - attempt) + 3 else 3
    case TryState(attempt) => if attempt < TRY_JOINS then 2 * (TRY_JOINS - attempt) + 2 else 4
    case Join => 2
    case StopDone => 1
    case _ => 0
  }

  const SHUT_STEPS := 5
  const RETURN_STEPS := 2 * TRY_JOINS + 8

  function Less(a: nat, b: nat): nat { if a > b then a - b else 0 }

  /** The stop of thread `i + 1`, or what follows it: the worker is past line
      513 or has ended, and no longer finds the flag up once it is cleared. */
  ghost predicate Stopping(s: System, i: nat) {
    && i < |s.workers| && !InSetup(s.workers[i].loc)
    && (s.h.thread == i + 1 ==> AtStop(s.ctl.loc))
    && (s.h.thread == i + 1 && Cleared(s.ctl.loc) ==> s.workers[i].loc.Ended? || !s.h.running)
  }

  lemma StopKeepsStopping(s: System, c: Choice, i: nat)
    requires Inv(s) && Stopping(s, i) && s.h.thread == i + 1 && InStop(s.ctl.loc)
    ensures var s' := StopNext(s, c); Stopping(s', i) && (s.workers[i].loc.Ended? ==> s'.workers[i].loc.Ended?)
  {
  }

  /** Each controller step takes a stop nearer to the shutdown of the listener,
      and, once the worker has ended, nearer to the return. */
  lemma StopAdvances(s: System, c: Choice, i: nat)
    requires Inv(s) && s.h.thread == i + 1 && InStop(s.ctl.loc)
    ensures var s' := StopNext(s, c);
      s'.h.thread == i + 1 ==>
        && ToShut(s'.ctl.loc) <= Less(ToShut(s.ctl.loc), 1)
        && (i < |s.workers| && s.workers[i].loc.Ended? ==> ToReturn(s'.ctl.loc) <= Less(ToReturn(s.ctl.loc), 1))
  {
  }

  lemma WorkerKeepsStopping(s: System, j: nat, c: Choice, i: nat)
    requires Inv(s) && Stopping(s, i) && j < |s.workers|
    ensures Stopping(WorkerNext(s, j, c), i)
    ensures s.workers[i].loc.Ended? ==> WorkerNext(s, j, c).workers[i].loc.Ended?
  {
    hide Act;
    assert ThreadOk(s, i) && ThreadOk(s, j);
    ActFrame(s.h, s.mutex, s.workers[j], j, c);
    if j == i {
      NeverBackInSetup(s.h, s.mutex, s.workers[i], i, c);
    } else if Alive(s, i) {
      OnlyCurrentMoves(s, i, j);
    }
  }

  lemma StepKeepsStopping(s: System, step: Step, i: nat)
    requires Inv(s) && Stopping(s, i)
    ensures var s' := Next(s, step); var k := if step.ControllerStep? then 1 else 0;
      && Stopping(s', i)
      && (s.h.thread != i + 1 ==> s'.h.thread != i + 1)
      && (s'.h.thread == i + 1 ==> ToShut(s'.ctl.loc) <= Less(ToShut(s.ctl.loc), k))
      && (s.workers[i].loc.Ended? ==>
            s'.workers[i].loc.Ended?
            && (s'.h.thread == i + 1 ==> ToReturn(s'.ctl.loc) <= Less(ToReturn(s.ctl.loc), k)))
  {
    ThreadStaysForgotten(s, step, i);
    match step
    case ControllerStep(c) =>
      if s.h.thread == i + 1 {
        if InStop(s.ctl.loc) { StopKeepsStopping(s, c, i); StopAdvances(s, c, i); } else { StopFindsThread(s, c); }
      } else {
        assert ThreadOk(s, i);
      }
    case WorkerStep(j, c) => if j < |s.workers| { WorkerKeepsStopping(s, j, c, i); }
  }

  lemma {:induction false} RunKeepsStopping(s: System, steps: seq<Step>, i: nat)
    requires Inv(s) && Stopping(s, i)
    ensures var s' := Exec(s, steps); var k := ControllerSteps(steps);
      && Stopping(s', i)
      && (s.h.thread != i + 1 ==> s'.h.thread != i + 1)
      && (s'.h.thread == i + 1 ==> ToShut(s'.ctl.loc) <= Less(ToShut(s.ctl.loc), k))
      && (s.workers[i].loc.Ended? && s'.h.thread == i + 1 ==> ToReturn(s'.ctl.loc) <= Less(ToReturn(s.ctl.loc), k))
    decreases |steps|
  {
    if steps != [] {
      StepKeepsInv(s, steps[0]);
      StepKeepsStopping(s, steps[0], i);
      RunKeepsStopping(Next(s, steps[0]), steps[1..], i);
    }
  }

  /** A run that is fair to a stop: the controller gets as far as shutting the
      listener down, then the worker gets MAX_RANK steps, then the controller
      its polls and its join.  Anything may happen in between. */
  ghost predicate Fair(a: seq<Step>, b: seq<Step>, c: seq<Step>, i: nat) {
    ControllerSteps(a) >= SHUT_STEPS && StepsOf(b, i) >= MAX_RANK && ControllerSteps(c) >= RETURN_STEPS
  }

  /** The stop of thread `i + 1` has returned: joined once, and forgotten. */
  ghost predicate Returned(s: System, i: nat) {
    i < |s.workers| && s.workers[i].joins == 1 && s.h.thread != i + 1
  }

  ghost predicate ReturnsIfFair(s: System, a: seq<Step>, b: seq<Step>, c: seq<Step>, i: nat) {
    Fair(a, b, c, i) ==> Returned(Exec(Exec(Exec(s, a), b), c), i)
  }

  /** After the first segment the worker's listener is shut and the flag down,
      or the thread forgotten. */
  lemma StopQuenches(s: System, a: seq<Step>, i: nat)
    requires Inv(s) && Stopping(s, i) && (s.ctl.loc.StopTest? || s.ctl.loc.StopClear?)
    requires s.h.thread == i + 1 && ControllerSteps(a) >= SHUT_STEPS
    ensures var s1 := Exec(s, a); Inv(s1) && Stopping(s1, i) && Quenched(s1, i)
  {
    RunKeepsInv(s, a);
    RunKeepsStopping(s, a, i);
    RunClosesListener(s, a, i);
    assert ThreadOk(Exec(s, a), i);
  }

  /** In the last segment the worker has ended, and the stop joins it. */
  lemma EndedIsJoined(s: System, c: seq<Step>, i: nat)
    requires Inv(s) && Stopping(s, i) && s.workers[i].loc.Ended? && ControllerSteps(c) >= RETURN_STEPS
    ensures Returned(Exec(s, c), i)
  {
    RunKeepsInv(s, c);
    RunKeepsStopping(s, c, i);
    assert ThreadOk(Exec(s, c), i);
  }

  /** A stop whose worker is past line 513, or has ended, returns in every fair
      run, from its call as well as from the clear. */
  lemma StopReturns(s: System, a: seq<Step>, b: seq<Step>, c: seq<Step>, i: nat)
    requires Inv(s) && (s.ctl.loc.StopTest? || s.ctl.loc.StopClear?)
    requires s.h.thread == i + 1 && !InSetup(s.workers[i].loc)
    requires Fair(a, b, c, i)
    ensures Returned(Exec(Exec(Exec(s, a), b), c), i)
  {
    hide Exec, Quenched;
    StopQuenches(s, a, i);
    var s1 := Exec(s, a);
    RunKeepsInv(s1, b);
    RunKeepsStopping(s1, b, i);
    QuenchedWorkerEnds(s1, b, i);
    EndedIsJoined(Exec(s1, b), c, i);
  }

  // ----------------------------------------------------------- the condition

  lemma {:induction false} CountsAppend(a: seq<Step>, b: seq<Step>)
    ensures ControllerSteps(a + b) == ControllerSteps(a) + ControllerSteps(b)
    decreases |a|
  {
    if a == [] {
      assert a + b == b;
    } else {
      assert (a + b)[0] == a[0] && (a + b)[1..] == a[1..] + b;
      CountsAppend(a[1..], b);
    }
  }

  lemma {:induction false} Repeated(step: Step, n: nat) returns (steps: seq<Step>)
    ensures step.ControllerStep? ==> ControllerSteps(steps) == n
    ensures step.WorkerStep? ==> StepsOf(steps, step.i) == n
    decreases n
  {
    if n == 0 {
      steps := [];
    } else {
      var rest := Repeated(step, n - 1);
      steps := [step] + rest;
      assert steps[1..] == rest;
    }
  }

  /** A run into a lost stop extends to a fair one that does not return. */
  lemma StuckNeverReturns(s: System, steps: seq<Step>, i: nat) returns (a: seq<Step>, b: seq<Step>, c: seq<Step>)
    requires Inv(s) && LeadsToStuck(s, steps, i)
    ensures !ReturnsIfFair(s, a, b, c, i)
  {
    var go := Choice(true, 0);
    var more := Repeated(ControllerStep(go), SHUT_STEPS);
    a := steps + more;
    b := Repeated(WorkerStep(i, go), MAX_RANK);
    c := Repeated(ControllerStep(go), RETURN_STEPS);
    CountsAppend(steps, more);
    ExecAppend(s, steps, more);
    RunKeepsInv(s, steps);
    var t := Exec(s, steps);
    ExecAppend(t, more, b);
    ExecAppend(t, more + b, c);
    StuckForEver(t, more + b + c, i);
  }

  /** Exactly when a stop is sure to return.  When the controller is about to
      clear the flag, the stop returns in every fair run if and only if the flag
      is up or the thread has ended.  While the flag is still down and the
      thread alive, some run loses the clear, and then no continuation of it
      returns (`StuckForEver`). */
  lemma StopCanHangIff(s: System, i: nat)
    requires Inv(s) && s.ctl.loc.StopClear? && s.h.thread == i + 1
    ensures (forall a, b, c :: ReturnsIfFair(s, a, b, c, i)) <==> s.h.running || !Alive(s, i)
    ensures (exists steps :: LeadsToStuck(s, steps, i)) <==> !s.h.running && Alive(s, i)
  {
    assert FlagOk(s.h, s.workers[i], false);
    if s.h.running || !Alive(s, i) {
      forall a, b, c ensures ReturnsIfFair(s, a, b, c, i) {
        if Fair(a, b, c, i) { StopReturns(s, a, b, c, i); }
      }
      forall steps ensures !LeadsToStuck(s, steps, i) {
        if LeadsToStuck(s, steps, i) {
          var a, b, c := StuckNeverReturns(s, steps, i);
          assert false;
        }
      }
    } else {
      var go := ControllerStep(Choice(true, 0));
      var s1 := Next(s, go);
      StepKeepsInv(s, go);
      var rest := RaiseOverClear(s1, i);
      var steps := [go] + rest;
      assert steps[1..] == rest;
      assert LeadsToStuck(s, steps, i);
      var a, b, c := StuckNeverReturns(s, steps, i);
    }
  }
}
