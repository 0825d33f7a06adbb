/** The worker thread and its controller as a transition system.

    One step is one access to shared state, in the order the code makes them:
    the handle's volatile fields, the session mutex, thread creation and join.
    The number at each location is its line in ssh_tunnel.c. */
module ForwardProtocol {
  import opened Limits

  datatype PfState = StNone | StStarting | StListenReady | StWaitingAccept | StClientAccepted
                   | StForwardLoop | StShuttingDown | StExit

  const MAX_OPEN_ATTEMPTS := 10
  const TRY_JOINS := 50

  /** The six calls of the two flush functions in a round. */
  datatype Site = TickUp | TickDown | AfterRecv | OnSession | AfterRead | Last

  datatype Loc =
    | Starting             // 447: state := STARTING
    | OpeningSocket        // 473
    | StoringSocket        // 479: listen_sock := fd
    | Binding              // 491
    | Listening            // 496
    | Announcing           // 502: state := LISTEN_READY
    | AnnouncingAgain      // 511: the same
    | RaisingFlag          // 513: running := 1
    | TestingFlag          // 514
    | Waiting              // 515: state := WAITING_ACCEPT
    | Accepting            // 518
    | Accepted             // 526: state := CLIENT_ACCEPTED
    | Locking              // 527
    | CheckingSession      // 528-530
    | Opening(attempt: nat) // 535
    | TestingForward       // 580
    | ReadingState         // 581
    | WritingState         // 582: state := FORWARD_LOOP
    | Selecting            // 589
    | Ticking              // 596-602
    | TickingUp            // 603
    | TickingDown          // 605
    | ServingClient        // 608
    | Receiving            // 610-626
    | CheckingPending      // 628
    | ServingSession       // 634-635
    | TestingRead          // 638
    | Reading              // 639-658
    | FinalFlush           // 660
    | CheckingChannel      // 662
    | FlushTest(site: Site)  // 397, 420
    | FlushWrite(site: Site) // 398, 421
    | ClosingChannel       // 667-677
    | Unlocking            // 680
    | ClosingClient        // 681
    | ClosingListener      // 684
    | TestingListener      // 685
    | ClearingListener     // 686: listen_sock := -1
    | Exiting              // 687: state := EXIT
    | Ended

  /** What one thread has of its own, and how often it has done what.  `shut`
      says that its listening socket has been shut down under it, and
      `stateWrites` does not count the write of EXIT. */
  datatype Worker = Worker(loc: Loc, fd: nat, shut: bool, active: bool, pending: nat, joins: nat,
                           stateWrites: nat, accepts: nat, opens: nat, sinkWrites: nat, rounds: nat)

  datatype Handle = Handle(thread: nat, running: bool, listenSock: int, pfState: PfState,
                           session: bool, sessionFreed: bool, handleFreed: bool)

  datatype Owner = Free | ByController | ByWorker(i: nat)

  datatype CLoc =
    | Idle
    | SetupTest            // 700
    | SetupClear           // 704: running := 0
    | SetupCreate          // 705-734
    | StopTest             // 747
    | StopClear            // 749: running := 0
    | StopState            // 750: state := SHUTTING_DOWN
    | StopListenTest       // 751
    | StopListenClose      // 753-755: shut it down; listen_sock := -1
    | TryJoin(attempt: nat)  // 762
    | TryState(attempt: nat) // 776
    | Join                 // 784
    | StopDone             // 786: port_forward_thread := 0
    | DisLock              // 1014, 1416
    | DisSession           // 1015-1020, 1418-1420
    | DisHandle            // 1022, 1423
    | DisUnlock            // 1026, 1427
    | Gone                 // the handle has been freed

  /** `disconnecting` says where a stop returns to, `viaJni` which of the two
      disconnects is running. */
  datatype Controller = Controller(loc: CLoc, disconnecting: bool, viaJni: bool)

  /** `workers[k]` is the thread whose id is `k + 1`; 0 is no thread. */
  datatype System = System(h: Handle, mutex: Owner, workers: seq<Worker>, ctl: Controller)

  /** What the environment decides in one step. */
  datatype Choice = Choice(ok: bool, n: nat)
  datatype Step = ControllerStep(c: Choice) | WorkerStep(i: nat, c: Choice)

  datatype Effect = Effect(h: Handle, mutex: Owner, w: Worker)

  function NewWorker(): Worker { Worker(Starting, 0, false, false, 0, 0, 0, 0, 0, 0, 0) }

  function Min(a: nat, b: nat): nat { if a <= b then a else b }

  function AfterFlush(site: Site): Loc {
    match site
    case TickUp => TickingDown
    case TickDown => ServingClient
    case AfterRecv => CheckingPending
    case OnSession => TestingRead
    case AfterRead => TestingRead
    case Last => CheckingChannel
  }

  predicate Upward(site: Site) { site.TickUp? || site.AfterRecv? || site.OnSession? }

  predicate InFlush(loc: Loc) { loc.FlushTest? || loc.FlushWrite? }

  predicate InTick(loc: Loc) { loc.Selecting? || loc.Ticking? || loc.TickingUp? || loc.TickingDown? }

  predicate InReceive(loc: Loc) {
    loc.ServingClient? || loc.Receiving? || loc.CheckingPending? || loc.ServingSession?
  }

  predicate InRead(loc: Loc) { loc.TestingRead? || loc.Reading? || loc.FinalFlush? || loc.CheckingChannel? }

  /** The locations inside the forward loop. */
  predicate InRound(loc: Loc) { InTick(loc) || InReceive(loc) || InRead(loc) || InFlush(loc) }

  function TickAct(w: Worker, c: Choice): Worker
    requires InTick(w.loc)
  {
    match w.loc
    case Selecting => w.(loc := if c.n == 0 then TestingForward else if c.n == 1 then ClosingChannel else Ticking)
    case Ticking => w.(loc := if c.n == 0 then ServingClient else if c.n == 1 then ClosingChannel else TickingUp)
    case TickingUp => w.(loc := if w.pending > 0 then FlushTest(TickUp) else TickingDown)
    case TickingDown => w.(loc := if c.ok then FlushTest(TickDown) else ServingClient)
  }

  function ReceiveAct(w: Worker, c: Choice): Worker
    requires InReceive(w.loc)
  {
    match w.loc
    case ServingClient => w.(loc := if c.ok then Receiving else ServingSession)
    case Receiving =>
      if c.n == 0 then w.(loc := ServingSession)
      else if c.n == 1 || !c.ok then w.(loc := ServingSession, active := false)
      else w.(loc := FlushTest(AfterRecv), pending := w.pending + Min(c.n - 1, SCRATCH_SIZE))
    case CheckingPending => w.(loc := if w.pending > BACKPRESSURE then ServingSession else Receiving)
    case ServingSession => w.(loc := if c.ok && w.pending > 0 then FlushTest(OnSession) else TestingRead)
  }

  function ReadAct(running: bool, w: Worker, c: Choice): Worker
    requires InRead(w.loc)
  {
    match w.loc
    case TestingRead => w.(loc := if running && w.active then Reading else FinalFlush)
    case Reading =>
      if c.n == 0 then w.(loc := FinalFlush)
      else if c.n == 1 then w.(loc := FinalFlush, active := false)
      else if c.n == 2 then w.(loc := TestingRead)
      else if c.ok then w.(loc := FlushTest(AfterRead))
      else w.(loc := FinalFlush, active := false)
    case FinalFlush => w.(loc := if c.ok then FlushTest(Last) else CheckingChannel)
    case CheckingChannel => w.(loc := if c.ok then TestingForward else ClosingChannel)
  }

  function FlushAct(running: bool, w: Worker, c: Choice): Worker
    requires InFlush(w.loc)
  {
    match w.loc
    case FlushTest(site) =>
      var some := if Upward(site) then w.pending > 0 else c.ok;
      w.(loc := if running && w.active && some then FlushWrite(site) else AfterFlush(site))
    case FlushWrite(site) =>
      var w1 := w.(sinkWrites := w.sinkWrites + 1);
      if c.n == 0 then w1.(loc := AfterFlush(site))
      else if c.n == 1 then w1.(loc := AfterFlush(site), active := false)
      else
        var left := if Upward(site) then w.pending - Min(c.n - 1, w.pending) else w.pending;
        w1.(loc := FlushTest(site), pending := left)
  }

  /** A step inside the forward loop: it reads the flag and changes only the
      worker's own state.  `n` 0 and 1 stand for the two kinds of non-data
      result, and larger values carry data. */
  function RoundAct(running: bool, w: Worker, c: Choice): Worker
    requires InRound(w.loc)
  {
    if InTick(w.loc) then TickAct(w, c)
    else if InReceive(w.loc) then ReceiveAct(w, c)
    else if InRead(w.loc) then ReadAct(running, w, c)
    else FlushAct(running, w, c)
  }

  /** Writes `st` to the handle and goes on to `loc`. */
  function Put(h: Handle, mutex: Owner, w: Worker, st: PfState, loc: Loc): Effect {
    Effect(h.(pfState := st), mutex, w.(loc := loc, stateWrites := w.stateWrites + 1))
  }

  /** From the thread's first line to the one that raises the flag. */
  predicate InSetup(loc: Loc) {
    loc.Starting? || loc.OpeningSocket? || loc.StoringSocket? || loc.Binding? || loc.Listening?
    || loc.Announcing? || loc.AnnouncingAgain? || loc.RaisingFlag?
  }

  predicate InExit(loc: Loc) {
    loc.ClosingListener? || loc.TestingListener? || loc.ClearingListener? || loc.Exiting? || loc.Ended?
  }

  function SetupAct(h: Handle, mutex: Owner, w: Worker, c: Choice): Effect
    requires InSetup(w.loc)
  {
    match w.loc
    case Starting => Put(h, mutex, w, StStarting, OpeningSocket)
    case OpeningSocket => Effect(h, mutex, if c.ok then w.(loc := StoringSocket, fd := c.n) else w.(loc := Ended))
    case StoringSocket => Effect(h.(listenSock := w.fd), mutex, w.(loc := Binding))
    case Binding => Effect(h, mutex, w.(loc := if c.ok then Listening else Ended))
    case Listening => Effect(h, mutex, w.(loc := if c.ok then Announcing else Ended))
    case Announcing => Put(h, mutex, w, StListenReady, AnnouncingAgain)
    case AnnouncingAgain => Put(h, mutex, w, StListenReady, RaisingFlag)
    case RaisingFlag => Effect(h.(running := true), mutex, w.(loc := TestingFlag))
  }

  /** A terminated thread does nothing. */
  function ExitAct(h: Handle, mutex: Owner, w: Worker): Effect
    requires InExit(w.loc)
  {
    match w.loc
    case ClosingListener => Effect(h, mutex, w.(loc := TestingListener))
    case TestingListener => Effect(h, mutex, w.(loc := if h.listenSock == w.fd then ClearingListener else Exiting))
    case ClearingListener => Effect(h.(listenSock := -1), mutex, w.(loc := Exiting))
    case Exiting => Effect(h.(pfState := StExit), mutex, w.(loc := Ended))
    case Ended => Effect(h, mutex, w)
  }

  predicate InAccept(loc: Loc) {
    loc.TestingFlag? || loc.Waiting? || loc.Accepting? || loc.Accepted? || loc.Locking? || loc.ClosingClient?
  }

  /** With the mutex held, around the rounds. */
  predicate InServe(loc: Loc) {
    loc.CheckingSession? || loc.Opening? || loc.TestingForward? || loc.ReadingState? || loc.WritingState?
    || loc.ClosingChannel? || loc.Unlocking?
  }

  /** The accept loop.  `Locking` waits while the mutex is taken.  `accept` is
      blocking: it fails at once on a listener that has been shut down, and
      otherwise waits until there is a connection or an error (`n` > 0). */
  function AcceptAct(h: Handle, mutex: Owner, w: Worker, i: nat, c: Choice): Effect
    requires InAccept(w.loc)
  {
    match w.loc
    case TestingFlag => Effect(h, mutex, w.(loc := if h.running then Waiting else ClosingListener))
    case Waiting => Put(h, mutex, w, StWaitingAccept, Accepting)
    case Accepting =>
      Effect(h, mutex, if w.shut then w.(loc := TestingFlag)
                       else if c.ok then w.(loc := Accepted, accepts := w.accepts + 1)
                       else if c.n > 0 then w.(loc := TestingFlag)
                       else w)
    case Accepted => Put(h, mutex, w, StClientAccepted, Locking)
    case Locking =>
      if mutex.Free? then Effect(h, ByWorker(i), w.(loc := CheckingSession)) else Effect(h, mutex, w)
    case ClosingClient => Effect(h, mutex, w.(loc := TestingFlag))
  }

  function ServeAct(h: Handle, mutex: Owner, w: Worker, c: Choice): Effect
    requires InServe(w.loc)
  {
    match w.loc
    case CheckingSession =>
      Effect(h, mutex, w.(loc := if h.session && c.ok then Opening(1) else Unlocking))
    case Opening(attempt) =>
      var w1 := w.(opens := w.opens + 1);
      Effect(h, mutex, if c.ok then w1.(loc := TestingForward, active := true, pending := 0)
                       else w1.(loc := if attempt < MAX_OPEN_ATTEMPTS then Opening(attempt + 1) else ClosingChannel))
    case TestingForward =>
      Effect(h, mutex, if h.running && w.active then w.(loc := ReadingState, rounds := w.rounds + 1)
                       else w.(loc := ClosingChannel))
    case ReadingState => Effect(h, mutex, w.(loc := if h.pfState.StForwardLoop? then Selecting else WritingState))
    case WritingState => Put(h, mutex, w, StForwardLoop, Selecting)
    case ClosingChannel => Effect(h, mutex, w.(loc := Unlocking))
    case Unlocking => Effect(h, Free, w.(loc := ClosingClient))
  }

  /** One step of worker `i`. */
  function Act(h: Handle, mutex: Owner, w: Worker, i: nat, c: Choice): Effect {
    if InRound(w.loc) then Effect(h, mutex, RoundAct(h.running, w, c))
    else if InSetup(w.loc) then SetupAct(h, mutex, w, c)
    else if InAccept(w.loc) then AcceptAct(h, mutex, w, i, c)
    else if InServe(w.loc) then ServeAct(h, mutex, w, c)
    else ExitAct(h, mutex, w)
  }

  function WorkerNext(s: System, i: nat, c: Choice): System
    requires i < |s.workers|
  {
    var e := Act(s.h, s.mutex, s.workers[i], i, c);
    s.(h := e.h, mutex := e.mutex, workers := s.workers[i := e.w])
  }

  /** The worker can no longer execute line 479. */
  predicate PastStore(loc: Loc) { !loc.Starting? && !loc.OpeningSocket? && !loc.StoringSocket? }

  /** `shutdown` and `close` of the descriptor `fd`: the current thread's
      listener goes down if it is that descriptor and has been opened. */
  function ShutDown(s: System, fd: int): System {
    if 0 < s.h.thread <= |s.workers| then
      var k := s.h.thread - 1;
      var w := s.workers[k];
      var hit := w.fd == fd && !w.loc.Starting? && !w.loc.OpeningSocket?;
      s.(workers := s.workers[k := w.(shut := w.shut || hit)])
    else s
  }

  function At(s: System, loc: CLoc): System { s.(ctl := s.ctl.(loc := loc)) }

  function AfterStop(s: System): System { At(s, if s.ctl.disconnecting then DisLock else Idle) }

  /** The wait of a stop: the polling loop first where the C library has
      `pthread_tryjoin_np`, else the blocking join at once. */
  function StartJoin(s: System, glibc: bool): System { At(s, if glibc then TryJoin(0) else Join) }

  predicate CurrentEnded(s: System) {
    0 < s.h.thread <= |s.workers| && s.workers[s.h.thread - 1].loc.Ended?
  }

  function Joined(s: System): System
    requires CurrentEnded(s)
  {
    var k := s.h.thread - 1;
    At(s.(workers := s.workers[k := s.workers[k].(joins := s.workers[k].joins + 1)]), StopDone)
  }

  /** Inside a stop, after the test that found a thread. */
  predicate InStop(loc: CLoc) {
    loc.StopClear? || loc.StopState? || loc.StopListenTest? || loc.StopListenClose?
    || loc.TryJoin? || loc.TryState? || loc.Join? || loc.StopDone?
  }

  predicate InDisconnect(loc: CLoc) {
    loc.DisLock? || loc.DisSession? || loc.DisHandle? || loc.DisUnlock? || loc.Gone?
  }

  /** `Join` waits for the thread to end. */
  function StopNext(s: System, c: Choice): System
    requires InStop(s.ctl.loc)
  {
    match s.ctl.loc
    case StopClear => At(s.(h := s.h.(running := false)), StopState)
    case StopState => At(s.(h := s.h.(pfState := StShuttingDown)), StopListenTest)
    case StopListenTest => if s.h.listenSock >= 0 then At(s, StopListenClose) else StartJoin(s, c.ok)
    case StopListenClose =>
      var s1 := ShutDown(s, s.h.listenSock);
      StartJoin(s1.(h := s.h.(listenSock := -1)), c.ok)
    case TryJoin(attempt) =>
      if attempt >= TRY_JOINS then At(s, Join)
      else if CurrentEnded(s) then Joined(s)
      else At(s, TryState(attempt))
    case TryState(attempt) => At(s, if s.h.pfState.StExit? then Join else TryJoin(attempt + 1))
    case Join => if CurrentEnded(s) then Joined(s) else s
    case StopDone => AfterStop(s.(h := s.h.(thread := 0)))
  }

  /** `DisLock` waits for the mutex. */
  function DisconnectNext(s: System): System
    requires InDisconnect(s.ctl.loc)
  {
    match s.ctl.loc
    case DisLock => if s.mutex.Free? then At(s.(mutex := ByController), DisSession) else s
    case DisSession =>
      if s.h.session then At(s.(h := s.h.(session := false, sessionFreed := true)), DisHandle)
      else At(s, if s.ctl.viaJni then DisUnlock else DisHandle)
    case DisHandle => At(s.(h := s.h.(handleFreed := true)), DisUnlock)
    case DisUnlock => At(s.(mutex := Free), if s.h.handleFreed then Gone else Idle)
    case Gone => s
  }

  function SetupNext(s: System, c: Choice): System
    requires !InStop(s.ctl.loc) && !InDisconnect(s.ctl.loc)
  {
    match s.ctl.loc
    case Idle =>
      if c.n == 0 then At(s, SetupTest)
      else s.(ctl := Controller(StopTest, c.n > 1, c.n > 2))
    case StopTest => if s.h.thread != 0 then At(s, StopClear) else AfterStop(s)
    case SetupTest => At(s, if s.h.thread != 0 then Idle else SetupClear)
    case SetupClear => At(s.(h := s.h.(running := false)), SetupCreate)
    case SetupCreate =>
      if c.ok then At(s.(h := s.h.(thread := |s.workers| + 1), workers := s.workers + [NewWorker()]), Idle)
      else At(s, Idle)
  }

  /** One step of the controller, which runs setups, stops and disconnects in
      any order until a disconnect frees the handle. */
  function ControllerNext(s: System, c: Choice): System {
    if InStop(s.ctl.loc) then StopNext(s, c)
    else if InDisconnect(s.ctl.loc) then DisconnectNext(s)
    else SetupNext(s, c)
  }

  function Next(s: System, step: Step): System {
    match step
    case ControllerStep(c) => ControllerNext(s, c)
    case WorkerStep(i, c) => if i < |s.workers| then WorkerNext(s, i, c) else s
  }

  /** A run is any list of steps, that is, any interleaving. */
  function Exec(s: System, steps: seq<Step>): System
    decreases |steps|
  {
    if steps == [] then s else Exec(Next(s, steps[0]), steps[1..])
  }

  /** A handle as `calloc` leaves it: its `listen_sock` is 0. */
  ghost predicate Initial(s: System) {
    && s.h == Handle(0, false, 0, StNone, s.h.session, false, false)
    && s.mutex == Free && s.workers == [] && s.ctl.loc == Idle
  }
}
