/** What the worker does for its clients: it comes up, reports where it is,
    opens a channel for a connection, serves it and lets it go. */
module ForwardService {
  import opened Limits
  import opened ForwardProtocol
  import opened ForwardSafety
  import opened ForwardShutdown
  import opened ForwardStop

  predicate IsOwn(step: Step, i: nat) { step.WorkerStep? && step.i == i }

  /** What the environment answers in worker `i`'s own steps. */
  function OwnChoices(steps: seq<Step>, i: nat): seq<Choice> {
    if steps == [] then []
    else (if IsOwn(steps[0], i) then [steps[0].c] else []) + OwnChoices(steps[1..], i)
  }

  /** Nobody else touches an alive worker but to shut its listener down. */
  lemma OthersLeaveWorker(s: System, step: Step, i: nat)
    requires Inv(s) && Alive(s, i) && !IsOwn(step, i)
    ensures var s' := Next(s, step);
      && Alive(s', i) && s'.workers[i] == s.workers[i].(shut := s'.workers[i].shut)
      && s'.h.thread == s.h.thread && s'.h.session == s.h.session
  {
    assert ThreadOk(s, i);
    match step
    case ControllerStep(c) =>
    case WorkerStep(j, c) =>
      if j < |s.workers| {
        assert ThreadOk(s, j);
        ActFrame(s.h, s.mutex, s.workers[j], j, c);
      }
  }

  // --------------------------------------------------------------- coming up

  /** A worker that is `t` steps short of line 514 is refused what it asks for:
      its socket, its port or its backlog. */
  predicate Refused(t: nat, cs: seq<Choice>)
    decreases |cs|
  {
    cs != [] && t > 0 && (((t == 7 || t == 5 || t == 4) && !cs[0].ok) || Refused(t - 1, cs[1..]))
  }

  lemma SetupAdvances(h: Handle, mutex: Owner, w: Worker, c: Choice)
    requires InSetup(w.loc)
    ensures var t := ToRaise(w.loc); var e := SetupAct(h, mutex, w, c);
      && t > 0
      && if (t == 7 || t == 5 || t == 4) && !c.ok then e.w.loc.Ended? && e.h == h
         else ToRaise(e.w.loc) == t - 1 && (if t == 1 then e.w.loc == TestingFlag && e.h.running else InSetup(e.w.loc))
  {
  }

  lemma EndedStays(s: System, step: Step, i: nat)
    requires Inv(s) && i < |s.workers| && s.workers[i].loc.Ended?
    ensures var s' := Next(s, step); i < |s'.workers| && s'.workers[i].loc.Ended?
  {
    assert ThreadOk(s, i);
    match step
    case ControllerStep(c) =>
    case WorkerStep(j, c) =>
  }

  lemma {:induction false} RunStaysEnded(s: System, steps: seq<Step>, i: nat)
    requires Inv(s) && i < |s.workers| && s.workers[i].loc.Ended?
    ensures var s' := Exec(s, steps); i < |s'.workers| && s'.workers[i].loc.Ended?
    decreases |steps|
  {
    if steps != [] {
      StepKeepsInv(s, steps[0]);
      EndedStays(s, steps[0], i);
      RunStaysEnded(Next(s, steps[0]), steps[1..], i);
    }
  }

  /** Where a worker is that is `t` steps short of line 514. */
  ghost predicate ShortBy(loc: Loc, t: nat) {
    if t == 0 then loc == TestingFlag else InSetup(loc) && ToRaise(loc) == t
  }

  lemma SetupStep(s: System, c: Choice, i: nat, t: nat)
    requires i < |s.workers| && ShortBy(s.workers[i].loc, t) && t > 0
    ensures var s' := WorkerNext(s, i, c); var loc := s'.workers[i].loc;
      && i < |s'.workers|
      && if (t == 7 || t == 5 || t == 4) && !c.ok then loc.Ended? else ShortBy(loc, t - 1) && !loc.Ended?
  {
    SetupAdvances(s.h, s.mutex, s.workers[i], c);
  }

  lemma OwnChoicesUnfold(steps: seq<Step>, i: nat)
    requires steps != []
    ensures var all, rest := OwnChoices(steps, i), OwnChoices(steps[1..], i);
      if IsOwn(steps[0], i) then all == [steps[0].c] + rest && all[1..] == rest else all == rest
  {
  }

  lemma NotEnded(loc: Loc, t: nat)
    requires ShortBy(loc, t)
    ensures !loc.Ended?
  {
  }

  lemma NoneRefused(t: nat)
    ensures !Refused(t, OwnChoices([], 0))
    ensures forall i: nat :: OwnChoices([], i) == []
  {
  }

  lemma RefusedFirst(t: nat, steps: seq<Step>, i: nat)
    requires steps != [] && StepsOf(steps, i) <= t
    ensures var rest := OwnChoices(steps[1..], i);
      Refused(t, OwnChoices(steps, i)) <==>
        if IsOwn(steps[0], i) then ((t == 7 || t == 5 || t == 4) && !steps[0].c.ok) || Refused(t - 1, rest)
        else Refused(t, rest)
  {
    OwnChoicesUnfold(steps, i);
  }

  /** Exactly when a thread comes up.  In every interleaving a worker short of
      line 514 has ended if and only if one of its calls to `socket`, `bind` or
      `listen` was refused; otherwise it is as many steps further as it has
      taken, the last of which brings it to its accept loop. */
  lemma {:induction false} ComesUpIff(s: System, steps: seq<Step>, i: nat, t: nat)
    requires Inv(s) && i < |s.workers| && ShortBy(s.workers[i].loc, t) && StepsOf(steps, i) <= t
    ensures var s' := Exec(s, steps);
      && i < |s'.workers|
      && (s'.workers[i].loc.Ended? <==> Refused(t, OwnChoices(steps, i)))
      && (!s'.workers[i].loc.Ended? ==> ShortBy(s'.workers[i].loc, t - StepsOf(steps, i)))
    decreases |steps|
  {
    hide Inv, Next, ShortBy, Refused, OwnChoices;
    NotEnded(s.workers[i].loc, t);
    if steps == [] {
      NoneRefused(t);
    } else {
      var s1 := Next(s, steps[0]);
      StepKeepsInv(s, steps[0]);
      RefusedFirst(t, steps, i);
      if IsOwn(steps[0], i) {
        NextIsOwn(s, steps[0], i);
        SetupStep(s, steps[0].c, i, t);
        if s1.workers[i].loc.Ended? { RunStaysEnded(s1, steps[1..], i); } else { ComesUpIff(s1, steps[1..], i, t - 1); }
      } else {
        OthersLeaveWorker(s, steps[0], i);
        ComesUpIff(s1, steps[1..], i, t);
      }
    }
  }

  // ---------------------------------------------------------- what it reports

  predicate Announced(loc: Loc) { loc.AnnouncingAgain? || loc.RaisingFlag? }

  predicate AtAccept(loc: Loc) { loc.Accepting? || loc.Accepted? }

  predicate BeforeChannel(loc: Loc) { loc.Locking? || loc.CheckingSession? || loc.Opening? }

  /** What `pf_state` shows while the worker is at `loc`. */
  predicate Shows(loc: Loc, st: PfState) {
    && (Quiet(loc) ==> st.StStarting?)
    && (Announced(loc) ==> st.StListenReady?)
    && (AtAccept(loc) ==> st.StWaitingAccept?)
    && (BeforeChannel(loc) ==> st.StClientAccepted?)
    && (InRound(loc) ==> st.StForwardLoop?)
  }

  /** Until a stop writes its own state. */
  ghost predicate StateShows(s: System) {
    0 < s.h.thread <= |s.workers| && !PastState(s.ctl.loc) ==> Shows(s.workers[s.h.thread - 1].loc, s.h.pfState)
  }

  lemma SetupPlaces(loc: Loc)
    requires InSetup(loc) || loc == TestingFlag || loc == Ended
    ensures !AtAccept(loc) && !BeforeChannel(loc) && !InRound(loc)
  {
  }

  lemma AcceptPlaces(loc: Loc)
    requires InAccept(loc) || loc == CheckingSession || loc == ClosingListener
    ensures !Quiet(loc) && !Announced(loc) && !InRound(loc)
  {
  }

  lemma ServePlaces(loc: Loc)
    requires InServe(loc) || loc == Selecting || loc == ClosingClient
    ensures !Quiet(loc) && !Announced(loc) && !AtAccept(loc)
  {
  }

  lemma OtherPlaces(loc: Loc)
    requires InExit(loc) || loc == TestingForward || loc == ClosingChannel
    ensures forall st :: Shows(loc, st)
  {
  }

  lemma RoundPlaces(loc: Loc, st: PfState)
    requires InRound(loc)
    ensures Shows(loc, st) <==> st.StForwardLoop?
  {
  }

  lemma SetupReportsStarting(h: Handle, mutex: Owner, w: Worker, c: Choice)
    requires InSetup(w.loc) && (Quiet(w.loc) ==> h.pfState.StStarting?)
    ensures var e := SetupAct(h, mutex, w, c); Quiet(e.w.loc) ==> e.h.pfState.StStarting?
  {
  }

  lemma SetupReportsReady(h: Handle, mutex: Owner, w: Worker, c: Choice)
    requires InSetup(w.loc) && (Announced(w.loc) ==> h.pfState.StListenReady?)
    ensures var e := SetupAct(h, mutex, w, c); Announced(e.w.loc) ==> e.h.pfState.StListenReady?
  {
  }

  lemma AcceptReports(h: Handle, mutex: Owner, w: Worker, i: nat, c: Choice)
    requires InAccept(w.loc)
    requires (AtAccept(w.loc) ==> h.pfState.StWaitingAccept?) && (BeforeChannel(w.loc) ==> h.pfState.StClientAccepted?)
    ensures var e := AcceptAct(h, mutex, w, i, c);
      (AtAccept(e.w.loc) ==> e.h.pfState.StWaitingAccept?) && (BeforeChannel(e.w.loc) ==> e.h.pfState.StClientAccepted?)
  {
  }

  lemma ServeReports(h: Handle, mutex: Owner, w: Worker, c: Choice)
    requires InServe(w.loc) && (BeforeChannel(w.loc) ==> h.pfState.StClientAccepted?)
    ensures var e := ServeAct(h, mutex, w, c);
      && (BeforeChannel(e.w.loc) ==> e.h.pfState.StClientAccepted?)
      && (e.w.loc.Selecting? ==> e.h.pfState.StForwardLoop?)
      && (InServe(e.w.loc) || e.w.loc == Selecting || e.w.loc == ClosingClient)
  {
  }

  lemma SelectingInRound(loc: Loc)
    requires InServe(loc) || loc == Selecting || loc == ClosingClient
    ensures InRound(loc) <==> loc == Selecting
  {
  }

  lemma PlacesCover(loc: Loc)
    ensures InRound(loc) || InSetup(loc) || InAccept(loc) || InServe(loc) || InExit(loc)
  {
  }

  lemma ActShows(h: Handle, mutex: Owner, w: Worker, i: nat, c: Choice)
    requires Shows(w.loc, h.pfState)
    ensures var e := Act(h, mutex, w, i, c); Shows(e.w.loc, e.h.pfState)
  {
    hide RoundAct, SetupAct, AcceptAct, ServeAct, ExitAct, Quiet, Announced, AtAccept, BeforeChannel,
      InRound, InSetup, InAccept, InServe, InExit;
    var e := Act(h, mutex, w, i, c);
    if InRound(w.loc) {
      RoundFrame(h.running, w, c);
      if InRound(e.w.loc) { RoundPlaces(e.w.loc, e.h.pfState); } else { OtherPlaces(e.w.loc); }
    } else if InSetup(w.loc) {
      SetupReportsStarting(h, mutex, w, c);
      SetupReportsReady(h, mutex, w, c);
      SetupStays(h, mutex, w, c);
      SetupPlaces(e.w.loc);
    } else if InAccept(w.loc) {
      AcceptReports(h, mutex, w, i, c);
      AcceptStays(h, mutex, w, i, c);
      AcceptPlaces(e.w.loc);
    } else if InServe(w.loc) {
      ServeReports(h, mutex, w, c);
      ServePlaces(e.w.loc);
      SelectingInRound(e.w.loc);
    } else {
      PlacesCover(w.loc);
      assert InExit(e.w.loc) by { ExitStores(h, mutex, w); }
      OtherPlaces(e.w.loc);
    }
  }

  lemma StepKeepsShowing(s: System, step: Step)
    requires Inv(s) && StateShows(s)
    ensures StateShows(Next(s, step))
  {
    hide Act, Shows;
    match step
    case ControllerStep(c) => ControllerKeepsShowing(s, c);
    case WorkerStep(i, c) =>
      if i < |s.workers| {
        assert ThreadOk(s, i);
        ActFrame(s.h, s.mutex, s.workers[i], i, c);
        if s.h.thread == i + 1 && !PastState(s.ctl.loc) { ActShows(s.h, s.mutex, s.workers[i], i, c); }
      }
  }

  lemma ControllerKeepsShowing(s: System, c: Choice)
    requires Inv(s) && StateShows(s)
    ensures StateShows(ControllerNext(s, c))
  {
    hide Shows;
    FreshShows(s.h.pfState);
  }

  lemma FreshShows(st: PfState)
    ensures Shows(NewWorker().loc, st)
  {
  }

  lemma {:induction false} RunKeepsShowing(s: System, steps: seq<Step>)
    requires Inv(s) && StateShows(s)
    ensures StateShows(Exec(s, steps))
    decreases |steps|
  {
    if steps != [] {
      StepKeepsInv(s, steps[0]);
      StepKeepsShowing(s, steps[0]);
      RunKeepsShowing(Next(s, steps[0]), steps[1..]);
    }
  }

  /** `pf_state` tells where the worker is.  In every reachable state, until a
      stop writes its own, it is STARTING while the socket is set up, LISTEN_READY
      until the flag is raised, WAITING_ACCEPT at `accept`, CLIENT_ACCEPTED until
      the channel is open, and FORWARD_LOOP in every round. */
  lemma StateTellsProgress(init: System, steps: seq<Step>, i: nat)
    requires Initial(init)
    ensures var s := Exec(init, steps);
      i < |s.workers| && s.h.thread == i + 1 && !PastState(s.ctl.loc) ==> Shows(s.workers[i].loc, s.h.pfState)
  {
    RunKeepsShowing(init, steps);
  }

  // ----------------------------------------------------------------- leaving

  /** `n` steps on the way out. */
  function LeaveBy(h: Handle, mutex: Owner, w: Worker, n: nat): Effect
    requires InExit(w.loc)
    decreases n
  {
    var e := ExitAct(h, mutex, w);
    if n == 0 then Effect(h, mutex, w) else if !InExit(e.w.loc) then e else LeaveBy(e.h, e.mutex, e.w, n - 1)
  }

  /** A worker that leaves undisturbed has ended after four steps.  It has cleared
      `listen_sock` exactly if that was its own listener, and its last word is
      EXIT. */
  lemma LeavesInOrder(h: Handle, mutex: Owner, w: Worker)
    requires w.loc.ClosingListener?
    ensures var mine := h.listenSock == w.fd;
      LeaveBy(h, mutex, w, 4)
      == Effect(h.(listenSock := if mine then -1 else h.listenSock, pfState := StExit), mutex, w.(loc := Ended))
  {
    var w1 := w.(loc := TestingListener);
    assert LeaveBy(h, mutex, w, 4) == LeaveBy(h, mutex, w1, 3);
    if h.listenSock == w.fd {
      assert LeaveBy(h, mutex, w1, 3) == LeaveBy(h, mutex, w.(loc := ClearingListener), 2);
      var h' := h.(listenSock := -1);
      assert LeaveBy(h, mutex, w.(loc := ClearingListener), 2) == LeaveBy(h', mutex, w.(loc := Exiting), 1);
      assert LeaveBy(h', mutex, w.(loc := Exiting), 1) == ExitAct(h', mutex, w.(loc := Exiting));
    } else {
      var h' := h.(pfState := StExit);
      assert LeaveBy(h, mutex, w1, 3) == LeaveBy(h, mutex, w.(loc := Exiting), 2);
      assert LeaveBy(h, mutex, w.(loc := Exiting), 2) == LeaveBy(h', mutex, w.(loc := Ended), 1);
    }
  }

  // ------------------------------------------------------- opening a channel

  /** No open attempt succeeds. */
  predicate AllFail(cs: seq<Choice>) { cs == [] || (!cs[0].ok && AllFail(cs[1..])) }

  /** Where a worker is that has failed `attempt - 1` times. */
  function Attempt(attempt: nat): Loc { if attempt <= 10 then Opening(attempt) else ClosingChannel }

  lemma OpeningPlaced(s: System, i: nat)
    requires Inv(s) && i < |s.workers| && s.workers[i].loc.Opening?
    ensures s.workers[i].loc.attempt <= 10 && s.workers[i].loc == Attempt(s.workers[i].loc.attempt)
  {
    assert ThreadOk(s, i);
  }

  lemma OpenFails(s: System, c: Choice, i: nat)
    requires i < |s.workers| && s.workers[i].loc.Opening? && !c.ok
    ensures var w := s.workers[i]; var w' := WorkerNext(s, i, c).workers[i];
      && w'.opens == w.opens + 1 && w'.rounds == w.rounds
      && w'.loc == Attempt(w.loc.attempt + 1)
  {
  }

  lemma OwnFirst(steps: seq<Step>, i: nat)
    requires steps != [] && AllFail(OwnChoices(steps, i))
    ensures AllFail(OwnChoices(steps[1..], i)) && (IsOwn(steps[0], i) ==> !steps[0].c.ok)
  {
    OwnChoicesUnfold(steps, i);
  }

  /** A channel is tried ten times, no more and no fewer: in every interleaving,
      while every attempt fails, the worker makes one attempt a step, and it gives
      the channel up at the tenth. */
  lemma {:induction false} GivesUpAfterTen(s: System, steps: seq<Step>, i: nat)
    requires Inv(s) && i < |s.workers| && s.workers[i].loc.Opening? && AllFail(OwnChoices(steps, i))
    requires s.workers[i].loc.attempt + StepsOf(steps, i) <= 11
    ensures var s' := Exec(s, steps); var n := StepsOf(steps, i);
      && i < |s'.workers|
      && s'.workers[i].opens == s.workers[i].opens + n && s'.workers[i].rounds == s.workers[i].rounds
      && s'.workers[i].loc == Attempt(s.workers[i].loc.attempt + n)
    decreases |steps|
  {
    hide Next, Inv, AllFail, OwnChoices;
    OpeningPlaced(s, i);
    if steps != [] {
      var s1 := Next(s, steps[0]);
      StepKeepsInv(s, steps[0]);
      OwnFirst(steps, i);
      if IsOwn(steps[0], i) {
        OpenFails(s, steps[0].c, i);
        NextIsOwn(s, steps[0], i);
        if s1.workers[i].loc.Opening? { GivesUpAfterTen(s1, steps[1..], i); } else { NoOwnSteps(s1, steps[1..], i); }
      } else {
        OthersLeaveWorker(s, steps[0], i);
        GivesUpAfterTen(s1, steps[1..], i);
      }
    }
  }

  lemma NextIsOwn(s: System, step: Step, i: nat)
    requires IsOwn(step, i) && i < |s.workers|
    ensures Next(s, step) == WorkerNext(s, i, step.c) && |Next(s, step).workers| == |s.workers|
  {
  }

  lemma {:induction false} NoOwnSteps(s: System, steps: seq<Step>, i: nat)
    requires Inv(s) && Alive(s, i) && StepsOf(steps, i) == 0
    ensures var s' := Exec(s, steps);
      Alive(s', i) && s'.workers[i] == s.workers[i].(shut := s'.workers[i].shut)
    decreases |steps|
  {
    if steps != [] {
      StepKeepsInv(s, steps[0]);
      OthersLeaveWorker(s, steps[0], i);
      NoOwnSteps(Next(s, steps[0]), steps[1..], i);
    }
  }

  // ------------------------------------------------------ serving a connection

  /** How many own steps a worker is short of its next round, if all goes well. */
  function ToRound(w: Worker): nat {
    match w.loc
    case TestingFlag => 8
    case Waiting => 7
    case Accepting => 6
    case Accepted => 5
    case Locking => 4
    case CheckingSession => 3
    case Opening(_) => 2
    case TestingForward => if w.active then 1 else 0
    case _ => 0
  }

  /** A stop of thread `i + 1` has cleared the flag, or returned. */
  ghost predicate StopBegun(s: System, i: nat) { s.h.thread != i + 1 || Cleared(s.ctl.loc) }

  ghost predicate Open(s: System, i: nat) {
    Alive(s, i) && !StopBegun(s, i) && s.h.session && s.h.running && !s.workers[i].shut
  }

  lemma AcceptServesOn(h: Handle, mutex: Owner, w: Worker, i: nat, c: Choice)
    requires InAccept(w.loc) && h.running && !w.shut && c.ok && ToRound(w) > 0 && (w.loc.Locking? ==> mutex.Free?)
    ensures var w' := AcceptAct(h, mutex, w, i, c).w; w'.rounds == w.rounds && ToRound(w') == ToRound(w) - 1
  {
  }

  lemma ServeServesOn(h: Handle, mutex: Owner, w: Worker, c: Choice)
    requires InServe(w.loc) && h.running && h.session && c.ok && ToRound(w) > 0
    ensures var w' := ServeAct(h, mutex, w, c).w;
      w'.rounds > w.rounds || (w'.rounds == w.rounds && ToRound(w') == ToRound(w) - 1 > 0)
  {
  }

  lemma ToRoundPlaces(w: Worker)
    ensures ToRound(w) > 0 ==> InAccept(w.loc) || InServe(w.loc)
    ensures InAccept(w.loc) && ToRound(w) > 0 ==> ToRound(w) > 3
  {
  }

  lemma ServesOnOwnStep(s: System, c: Choice, i: nat)
    requires Inv(s) && Open(s, i) && ToRound(s.workers[i]) > 0 && c.ok
    ensures var s' := WorkerNext(s, i, c); var w, w' := s.workers[i], s'.workers[i];
      && Open(s', i)
      && (w'.rounds > w.rounds || (w'.rounds == w.rounds && ToRound(w') == ToRound(w) - 1 > 0))
  {
    hide ToRound, AcceptAct, ServeAct;
    assert ThreadOk(s, i);
    MutexIsFree(s, i);
    var w := s.workers[i];
    ToRoundPlaces(w);
    if InAccept(w.loc) {
      AcceptStays(s.h, s.mutex, w, i, c);
      AcceptServesOn(s.h, s.mutex, w, i, c);
      AcceptServes(s.h, s.mutex, w, i, c);
    } else {
      ServeStays(s.h, s.mutex, w, c);
      ServeServesOn(s.h, s.mutex, w, c);
      ServeFrame(s.h, s.mutex, w, i, c);
      ServeServes(s.h, s.mutex, w, c);
    }
  }

  lemma RoundKeepsCounts(running: bool, w: Worker, c: Choice)
    requires InRound(w.loc)
    ensures var w' := RoundAct(running, w, c);
      && w'.rounds == w.rounds && w'.accepts == w.accepts && w'.opens == w.opens && w'.stateWrites == w.stateWrites
      && w'.sinkWrites == w.sinkWrites + if w.loc.FlushWrite? then 1 else 0
  {
  }

  /** Whether the step changed the state, other than to EXIT, accepted, tried to
      open a channel or began a round. */
  ghost predicate Counted(h: Handle, w: Worker, e: Effect) {
    && (e.h.pfState != h.pfState && !w.loc.Exiting? ==> e.w.stateWrites == w.stateWrites + 1)
    && e.w.stateWrites >= w.stateWrites
    && e.w.accepts == w.accepts + (if w.loc.Accepting? && e.w.loc.Accepted? then 1 else 0)
    && e.w.opens == w.opens + (if w.loc.Opening? then 1 else 0)
    && e.w.rounds == w.rounds + (if w.loc.TestingForward? && e.w.loc.ReadingState? then 1 else 0)
  }

  lemma SetupCounts(h: Handle, mutex: Owner, w: Worker, c: Choice)
    requires InSetup(w.loc)
    ensures Counted(h, w, SetupAct(h, mutex, w, c)) && SetupAct(h, mutex, w, c).w.sinkWrites == w.sinkWrites
  {
  }

  lemma ServeCounts(h: Handle, mutex: Owner, w: Worker, c: Choice)
    requires InServe(w.loc)
    ensures Counted(h, w, ServeAct(h, mutex, w, c)) && ServeAct(h, mutex, w, c).w.sinkWrites == w.sinkWrites
  {
  }

  lemma AcceptCounts(h: Handle, mutex: Owner, w: Worker, i: nat, c: Choice)
    requires InAccept(w.loc)
    ensures Counted(h, w, AcceptAct(h, mutex, w, i, c)) && AcceptAct(h, mutex, w, i, c).w.sinkWrites == w.sinkWrites
  {
  }

  lemma ExitCounts(h: Handle, mutex: Owner, w: Worker)
    requires InExit(w.loc)
    ensures Counted(h, w, ExitAct(h, mutex, w)) && ExitAct(h, mutex, w).w.sinkWrites == w.sinkWrites
  {
  }

  /** The counters that the budgets are about count what they say, in every step
      of the worker. */
  lemma CountersAreTrue(h: Handle, mutex: Owner, w: Worker, i: nat, c: Choice)
    ensures var e := Act(h, mutex, w, i, c);
      Counted(h, w, e) && e.w.sinkWrites == w.sinkWrites + if w.loc.FlushWrite? then 1 else 0
  {
    hide RoundAct, SetupAct, AcceptAct, ServeAct, ExitAct;
    if InRound(w.loc) { RoundKeepsCounts(h.running, w, c); }
    else if InSetup(w.loc) { SetupCounts(h, mutex, w, c); }
    else if InAccept(w.loc) { AcceptCounts(h, mutex, w, i, c); }
    else if InServe(w.loc) { ServeCounts(h, mutex, w, c); }
    else { ExitCounts(h, mutex, w); }
  }

  lemma RoundsOnlyGrow(s: System, step: Step, i: nat)
    requires Inv(s) && i < |s.workers|
    ensures var s' := Next(s, step);
      i < |s'.workers| && s.workers[i].rounds <= s'.workers[i].rounds && (StopBegun(s, i) ==> StopBegun(s', i))
  {
    ThreadStaysForgotten(s, step, i);
    match step
    case ControllerStep(c) =>
    case WorkerStep(j, c) =>
      if j < |s.workers| {
        hide Act;
        assert ThreadOk(s, j);
        ActFrame(s.h, s.mutex, s.workers[j], j, c);
        if j == i { CountersAreTrue(s.h, s.mutex, s.workers[i], i, c); }
      }
  }

  lemma {:induction false} RunRoundsOnlyGrow(s: System, steps: seq<Step>, i: nat)
    requires Inv(s) && i < |s.workers|
    ensures var s' := Exec(s, steps);
      i < |s'.workers| && s.workers[i].rounds <= s'.workers[i].rounds && (StopBegun(s, i) ==> StopBegun(s', i))
    decreases |steps|
  {
    if steps != [] {
      StepKeepsInv(s, steps[0]);
      RoundsOnlyGrow(s, steps[0], i);
      RunRoundsOnlyGrow(Next(s, steps[0]), steps[1..], i);
    }
  }

  lemma OthersLeaveOpen(s: System, step: Step, i: nat)
    requires Inv(s) && Open(s, i) && !IsOwn(step, i)
    ensures var s' := Next(s, step);
      StopBegun(s', i) || (Open(s', i) && s'.workers[i] == s.workers[i])
  {
    OthersLeaveWorker(s, step, i);
    match step
    case ControllerStep(c) =>
    case WorkerStep(j, c) =>
      if j < |s.workers| {
        hide Act;
        assert ThreadOk(s, j) && ThreadOk(s, i);
        ActFrame(s.h, s.mutex, s.workers[j], j, c);
      }
  }

  /** A connection is served.  With the flag up, the listener up and a session,
      if all that the worker asks for is granted, then in every interleaving it
      has begun a round of the forward loop once it has taken its eight steps or
      fewer, unless a stop has cleared the flag meanwhile. */
  lemma {:induction false} ConnectionIsServed(s: System, steps: seq<Step>, i: nat)
    requires Inv(s) && Open(s, i) && ToRound(s.workers[i]) > 0
    requires forall k :: 0 <= k < |steps| && IsOwn(steps[k], i) ==> steps[k].c.ok
    requires StepsOf(steps, i) >= ToRound(s.workers[i])
    ensures var s' := Exec(s, steps);
      i < |s'.workers| && (s'.workers[i].rounds > s.workers[i].rounds || StopBegun(s', i))
    decreases |steps|
  {
    var s1 := Next(s, steps[0]);
    StepKeepsInv(s, steps[0]);
    RunRoundsOnlyGrow(s1, steps[1..], i) by { RoundsOnlyGrow(s, steps[0], i); }
    if IsOwn(steps[0], i) {
      ServesOnOwnStep(s, steps[0].c, i);
      if s1.workers[i].rounds == s.workers[i].rounds { ConnectionIsServed(s1, steps[1..], i); }
    } else {
      OthersLeaveOpen(s, steps[0], i);
      if !StopBegun(s1, i) { ConnectionIsServed(s1, steps[1..], i); }
    }
  }

  // ------------------------------------------------------ failing accepts

  /** Where a worker is, `n` steps into an accept loop in which nothing comes. */
  function AcceptCycle(n: nat): Loc { if n % 3 == 0 then TestingFlag else if n % 3 == 1 then Waiting else Accepting }

  /** Every `accept` of worker `i` fails. */
  predicate AllErrors(steps: seq<Step>, i: nat) {
    steps == [] || ((IsOwn(steps[0], i) ==> !steps[0].c.ok && steps[0].c.n > 0) && AllErrors(steps[1..], i))
  }

  lemma FailedAcceptStep(h: Handle, mutex: Owner, w: Worker, i: nat, c: Choice, n: nat)
    requires h.running && w.loc == AcceptCycle(n) && !c.ok && c.n > 0
    ensures var e := Act(h, mutex, w, i, c);
      e.w.loc == AcceptCycle(n + 1) && e.w.accepts == w.accepts && e.h.running
  {
    assert Act(h, mutex, w, i, c) == AcceptAct(h, mutex, w, i, c);
  }

  lemma OthersKeepFlag(s: System, step: Step, i: nat)
    requires Inv(s) && Alive(s, i) && !StopBegun(s, i) && s.h.running && !IsOwn(step, i)
    ensures var s' := Next(s, step); StopBegun(s', i) || s'.h.running
  {
    assert ThreadOk(s, i);
    match step
    case ControllerStep(c) =>
    case WorkerStep(j, c) =>
      if j < |s.workers| {
        hide Act;
        assert ThreadOk(s, j);
        ActFrame(s.h, s.mutex, s.workers[j], j, c);
      }
  }

  lemma CycleAlive(n: nat)
    ensures !AcceptCycle(n).Ended?
  {
  }

  lemma OwnKeepsThread(s: System, c: Choice, i: nat)
    requires Inv(s) && i < |s.workers|
    ensures WorkerNext(s, i, c).h.thread == s.h.thread
  {
    hide Act;
    assert ThreadOk(s, i);
    ActFrame(s.h, s.mutex, s.workers[i], i, c);
  }

  ghost predicate Cycling(s: System, i: nat, n: nat) {
    Alive(s, i) && !StopBegun(s, i) && s.h.running && s.workers[i].loc == AcceptCycle(n)
  }

  lemma FailedAcceptOwn(s: System, c: Choice, i: nat, n: nat)
    requires Inv(s) && Cycling(s, i, n) && !c.ok && c.n > 0
    ensures var s' := WorkerNext(s, i, c); Cycling(s', i, n + 1) && s'.workers[i].accepts == s.workers[i].accepts
  {
    hide Act, AcceptCycle;
    FailedAcceptStep(s.h, s.mutex, s.workers[i], i, c, n);
    CycleAlive(n + 1);
    OwnKeepsThread(s, c, i);
  }

  lemma CyclingStep(s: System, step: Step, i: nat, n: nat)
    requires Inv(s) && Cycling(s, i, n) && (IsOwn(step, i) ==> !step.c.ok && step.c.n > 0)
    ensures var s' := Next(s, step);
      && i < |s'.workers|
      && (StopBegun(s', i) || (Cycling(s', i, n + if IsOwn(step, i) then 1 else 0)
                               && s'.workers[i].accepts == s.workers[i].accepts))
  {
    hide Act, AcceptCycle, ControllerNext;
    if IsOwn(step, i) {
      FailedAcceptOwn(s, step.c, i, n);
    } else {
      OthersLeaveWorker(s, step, i);
      OthersKeepFlag(s, step, i);
    }
  }

  /** A failed `accept` is not the end: in every interleaving, while every one of
      them fails, the worker goes round its accept loop, one place a step, until
      a stop clears the flag. */
  lemma {:induction false} FailedAcceptsGoOn(s: System, steps: seq<Step>, i: nat, n: nat)
    requires Inv(s) && Cycling(s, i, n) && AllErrors(steps, i)
    ensures var s' := Exec(s, steps);
      && i < |s'.workers|
      && (StopBegun(s', i) || (Cycling(s', i, n + StepsOf(steps, i))
                               && s'.workers[i].accepts == s.workers[i].accepts))
    decreases |steps|
  {
    assert i < |s.workers|;
    if steps != [] {
      hide Next, Inv, Cycling, StopBegun;
      StepKeepsInv(s, steps[0]);
      CyclingStep(s, steps[0], i, n);
      var s1 := Next(s, steps[0]);
      if StopBegun(s1, i) {
        RunRoundsOnlyGrow(s1, steps[1..], i);
      } else {
        FailedAcceptsGoOn(s1, steps[1..], i, n + if IsOwn(steps[0], i) then 1 else 0);
      }
    }
  }

  // -------------------------------------------------------- letting one go

  /** The connection at hand has ended. */
  predicate Closing(w: Worker) { !w.active && (InRound(w.loc) || w.loc.TestingForward?) }

  /** Without `connection_active` the flag makes no difference to a round. */
  lemma InactiveRound(running: bool, w: Worker, c: Choice)
    requires InRound(w.loc) && !w.active
    ensures RoundAct(running, w, c) == RoundAct(false, w, c) && !RoundAct(running, w, c).active
  {
  }

  lemma InactiveDescends(h: Handle, mutex: Owner, w: Worker, i: nat, c: Choice)
    requires Closing(w)
    ensures var w' := Act(h, mutex, w, i, c).w;
      && Rank(w') < Rank(w)
      && (Closing(w') || w'.loc == ClosingChannel)
      && w'.rounds == w.rounds && w'.accepts == w.accepts
      && w'.sinkWrites + SinkWritesLeft(w'.loc) <= w.sinkWrites + SinkWritesLeft(w.loc)
  {
    if InRound(w.loc) {
      hide RoundAct, TickAct, ReceiveAct, ReadAct, FlushAct;
      InactiveRound(h.running, w, c);
      RoundFrame(h.running, w, c);
      RoundKeepsCounts(h.running, w, c);
      RoundSpends(w, c);
      RoundDescends(w, c);
    }
  }

  lemma RoundDescends(w: Worker, c: Choice)
    requires InRound(w.loc)
    ensures Rank(RoundAct(false, w, c)) < Rank(w)
  {
    if InTick(w.loc) { TickDescends(w, c); }
    else if InReceive(w.loc) { ReceiveDescends(w, c); }
    else if InRead(w.loc) { ReadDescends(w, c); }
    else { FlushDescends(w, c); }
  }

  /** After `k` steps of the run the worker is closing the channel, without
      another round or connection and with at most one more sink write. */
  ghost predicate ClosesAt(s: System, steps: seq<Step>, i: nat, k: nat, budget: nat)
    requires i < |s.workers|
  {
    && k <= |steps|
    && var s' := Exec(s, steps[..k]);
    && i < |s'.workers|
    && var w, w' := s.workers[i], s'.workers[i];
    && w'.loc == ClosingChannel && w'.rounds == w.rounds && w'.accepts == w.accepts
    && w'.sinkWrites <= w.sinkWrites + budget
  }

  /** One step of anybody brings such a worker nearer to that, or leaves it. */
  lemma ClosingStep(s: System, step: Step, i: nat)
    requires Inv(s) && Alive(s, i) && Closing(s.workers[i])
    ensures var s' := Next(s, step); var k := if IsOwn(step, i) then 1 else 0;
      && Alive(s', i) && Inv(s')
      && var w, w' := s.workers[i], s'.workers[i];
      && (w'.loc == ClosingChannel || (Closing(w') && Rank(w') + k <= Rank(w)))
      && w'.rounds == w.rounds && w'.accepts == w.accepts
      && w'.sinkWrites + SinkWritesLeft(w'.loc) <= w.sinkWrites + SinkWritesLeft(w.loc)
  {
    hide Act, Rank, Inv, ControllerNext;
    StepKeepsInv(s, step);
    if IsOwn(step, i) {
      InactiveDescends(s.h, s.mutex, s.workers[i], i, step.c);
    } else {
      OthersLeaveWorker(s, step, i);
      ClosingRanks(s.workers[i], Next(s, step).workers[i].shut);
    }
  }

  lemma ClosingRanks(w: Worker, shut: bool)
    requires Closing(w)
    ensures Rank(w) > 0 && Rank(w.(shut := shut)) == Rank(w)
  {
  }

  /** A connection that has ended is let go: in every interleaving, and whatever
      the flag does, the worker comes to close its channel within a fixed number
      of its own steps, and starts no further round for it. */
  lemma {:induction false} EndedConnectionCloses(s: System, steps: seq<Step>, i: nat) returns (k: nat)
    requires Inv(s) && Alive(s, i) && Closing(s.workers[i]) && StepsOf(steps, i) >= Rank(s.workers[i])
    ensures ClosesAt(s, steps, i, k, SinkWritesLeft(s.workers[i].loc))
    decreases |steps|
  {
    hide Inv, Closing, Rank, Next, SinkWritesLeft;
    ClosingRanks(s.workers[i], true);
    var s1 := Next(s, steps[0]);
    ClosingStep(s, steps[0], i);
    if s1.workers[i].loc == ClosingChannel {
      k := 1;
      assert steps[..1][0] == steps[0] && steps[..1][1..] == [];
      assert Exec(s, steps[..1]) == s1;
    } else {
      var j := EndedConnectionCloses(s1, steps[1..], i);
      k := j + 1;
      assert steps[..k][0] == steps[0] && steps[..k][1..] == steps[1..][..j];
      assert Exec(s, steps[..k]) == Exec(s1, steps[1..][..j]);
    }
  }
}
