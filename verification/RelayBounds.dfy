/** How far the client-to-channel queue can grow, and how long the receive loop
    can run. */
module RelayBounds {
  import opened Limits
  import opened Environment
  import opened RelayModel
  import opened RelayAccounting

  const CLEAR_ROUNDS := 48

  function Max(a: int, b: int): int { if a >= b then a else b }

  /** The loop cut off after at most `k` passes. */
  function Passes(p: Pump, k: nat): Pump
    decreases k
  {
    if k == 0 then p
    else
      var p1 := p.(w := SeeRunning(p.w));
      if p.w.runs == 0 || !p.active then p1
      else
        var pass := OnePass(p1);
        if pass.leave then pass.p else Passes(pass.p, k - 1)
  }

  /** Cutting off far enough out changes nothing. */
  lemma {:induction false} ForwardIsItsPasses(p: Pump, k: nat)
    requires k > p.w.runs
    ensures Forward(p) == Passes(p, k)
    decreases p.w.runs
  {
    if p.w.runs > 0 && p.active {
      var pass := OnePass(p.(w := SeeRunning(p.w)));
      if !pass.leave { ForwardIsItsPasses(pass.p, k - 1); }
    }
  }

  // ---------------------------------------------------------------- receiving

  /** One visit to the receive loop adds at most one chunk beyond the
      backpressure mark, and refuses nothing while that much still fits. */
  lemma {:induction false} ReceiveAllGrowth(p: Pump)
    ensures var r := ReceiveAll(p); var top := Max(|p.up|, BACKPRESSURE) + SCRATCH_SIZE;
      && |r.up| <= top
      && r.w.log.selects == p.w.log.selects
      && (top <= MAX_BUFFER_CAP && r.w.log.failedAllocs == p.w.log.failedAllocs ==> r.lostUp == p.lostUp)
    decreases p.w.runs, BACKPRESSURE + 1 - |p.up|
  {
    match p.w.script.recvs.Head()
    case RecvClosed =>
    case RecvFailed =>
    case RecvWouldBlock =>
    case RecvData(chunk) =>
      AppendLogs(SeeRecv(p.w), p.up, chunk);
      var a := Append(SeeRecv(p.w), p.up, chunk, MAX_BUFFER_CAP);
      if a.ok {
        FlushUpMovesPrefix(a.w, a.q, p.active);
        var f := FlushUp(a.w, a.q, p.active);
        if |f.q| <= BACKPRESSURE {
          ReceiveAllGrowth(p.(w := f.w, up := f.q, active := f.active));
        }
      }
  }

  /** Once the running flag is down or the connection is inactive, the receive
      loop makes only boundedly many more receives, whatever the client sends. */
  lemma {:induction false} ReceivesAfterStop(p: Pump)
    requires p.w.runs == 0 || !p.active
    ensures ReceiveAll(p).w.log.recvCalls - p.w.log.recvCalls <= Max(1, BACKPRESSURE + 1 - |p.up|)
    ensures ReceiveAll(p).w.log.toChannel == p.w.log.toChannel
    decreases p.w.runs, BACKPRESSURE + 1 - |p.up|
  {
    match p.w.script.recvs.Head()
    case RecvClosed =>
    case RecvFailed =>
    case RecvWouldBlock =>
    case RecvData(chunk) =>
      AppendLogs(SeeRecv(p.w), p.up, chunk);
      var a := Append(SeeRecv(p.w), p.up, chunk, MAX_BUFFER_CAP);
      if a.ok {
        FlushUpMovesPrefix(a.w, a.q, p.active);
        var f := FlushUp(a.w, a.q, p.active);
        assert f.q == a.q;
        if |f.q| <= BACKPRESSURE {
          ReceivesAfterStop(p.(w := f.w, up := f.q, active := f.active));
        }
      }
  }

  /** A client with finitely much to send ends the loop even if the flag never
      drops: the count does not depend on `runs`. */
  lemma {:induction false} ReceivesOfFiniteSource(p: Pump)
    requires !p.w.script.recvs.rest.RecvData?
    ensures ReceiveAll(p).w.log.recvCalls - p.w.log.recvCalls <= |p.w.script.recvs.script| + 1
    decreases p.w.runs, BACKPRESSURE + 1 - |p.up|
  {
    match p.w.script.recvs.Head()
    case RecvClosed =>
    case RecvFailed =>
    case RecvWouldBlock =>
    case RecvData(chunk) =>
      var a := Append(SeeRecv(p.w), p.up, chunk, MAX_BUFFER_CAP);
      AppendScript(SeeRecv(p.w), p.up, chunk);
      if a.ok {
        FlushUpScript(a.w, a.q, p.active);
        var f := FlushUp(a.w, a.q, p.active);
        if |f.q| <= BACKPRESSURE {
          ReceivesOfFiniteSource(p.(w := f.w, up := f.q, active := f.active));
        }
      }
  }

  /** The codes that end the channel read loop. */
  predicate EndsReading(r: ReadReply) {
    r.ReadCode? && (r.eof || r.rc == 0 || r.rc == SSH_AGAIN || r.rc == SSH_EOF || r.rc == SSH_ERROR)
  }

  /** The same for a channel that ends on one of libssh's own codes. */
  lemma {:induction false} ReadsOfFiniteSource(p: Pump)
    requires EndsReading(p.w.script.channelReads.rest)
    ensures ReadAll(p).w.log.readCalls - p.w.log.readCalls <= |p.w.script.channelReads.script| + 1
    decreases p.w.runs
  {
    if p.w.runs > 0 && p.active {
      var w2 := SeeRead(SeeRunning(p.w));
      match p.w.script.channelReads.Head()
      case ReadData(chunk) =>
        AppendScript(w2, p.down, chunk);
        var a := Append(w2, p.down, chunk, MAX_BUFFER_CAP);
        if a.ok {
          FlushDownScript(a.w, a.q, p.active);
          var f := FlushDown(a.w, a.q, p.active);
          ReadsOfFiniteSource(p.(w := f.w, down := f.q, active := f.active));
        }
      case ReadCode(rc, eof) =>
        if !(rc == 0 || rc == SSH_AGAIN || rc == SSH_EOF || eof || rc == SSH_ERROR) {
          ReadsOfFiniteSource(p.(w := w2));
        }
    }
  }

  /** Appends and flushes neither receive nor read. */
  lemma AppendScript(w: World, q: seq<byte>, chunk: seq<byte>)
    ensures var r := Append(w, q, chunk, MAX_BUFFER_CAP).w;
      && r.script == w.script.(allocs := r.script.allocs)
      && r.log == w.log.(failedAllocs := r.log.failedAllocs)
  {
  }

  lemma {:induction false} FlushUpScript(w: World, q: seq<byte>, active: bool)
    ensures var r := FlushUp(w, q, active).w;
      && r.script == w.script.(channelWrites := r.script.channelWrites)
      && r.log == w.log.(toChannel := r.log.toChannel)
    decreases |q|
  {
    FlushUpMovesPrefix(w, q, active);
    if w.runs > 0 && active && q != [] {
      var rc := Granted(w.script.channelWrites.Head(), |q|);
      if rc > 0 { FlushUpScript(SeeWrite(SeeRunning(w), q), q[rc..], active); }
    }
  }

  lemma {:induction false} FlushDownScript(w: World, q: seq<byte>, active: bool)
    ensures var r := FlushDown(w, q, active).w;
      && r.script == w.script.(sends := r.script.sends)
      && r.log == w.log.(toClient := r.log.toClient)
    decreases |q|
  {
    FlushDownMovesPrefix(w, q, active);
    if w.runs > 0 && active && q != [] && w.script.sends.Head().Sent? && w.script.sends.Head().n > 0 {
      FlushDownScript(SeeSend(SeeRunning(w), q), q[Granted(w.script.sends.Head().n, |q|)..], active);
    }
  }

  /** The flag is still down and neither sink has been written to. */
  ghost predicate NoWrite(p: Pump, r: Pump) {
    r.w.runs == 0 && r.w.log.toChannel == p.w.log.toChannel && r.w.log.toClient == p.w.log.toClient
  }

  lemma StoppedSteps(p: Pump)
    requires p.w.runs == 0
    ensures NoWrite(p, PushUp(p)) && NoWrite(p, PushDown(p)) && NoWrite(p, ReadAll(p))
  {
  }

  lemma {:induction false} StoppedReceive(p: Pump)
    requires p.w.runs == 0
    ensures NoWrite(p, ReceiveAll(p))
    decreases BACKPRESSURE + 1 - |p.up|
  {
    match p.w.script.recvs.Head()
    case RecvClosed =>
    case RecvFailed =>
    case RecvWouldBlock =>
    case RecvData(chunk) =>
      AppendScript(SeeRecv(p.w), p.up, chunk);
      var a := Append(SeeRecv(p.w), p.up, chunk, MAX_BUFFER_CAP);
      if a.ok {
        var f := FlushUp(a.w, a.q, p.active);
        assert f == Flushed(SeeRunning(a.w), a.q, p.active);
        if |f.q| <= BACKPRESSURE { StoppedReceive(p.(w := f.w, up := f.q, active := f.active)); }
      }
  }

  /** A pass during which the flag is down writes to neither sink. */
  lemma StoppedPassWritesNothing(p: Pump)
    requires p.w.runs == 0
    ensures NoWrite(p, OnePass(p).p)
  {
    hide ReceiveAll, ReadAll, PushUp, PushDown;
    var round := p.w.script.rounds.Head();
    var p1 := p.(w := SeeSelect(p.w));
    StoppedSteps(p1);
    StoppedSteps(PushUp(p1));
    var p2 := TickStage(p1, round);
    StoppedReceive(p2);
    var p3 := ClientStage(p2, round);
    StoppedSteps(p3);
    var p4 := SessionStage(p3, round);
    StoppedSteps(p4);
    StoppedSteps(ReadAll(p4));
  }

  // ------------------------------------------------------------------ rounds

  /** Nothing has been received from the client or written to the channel. */
  ghost predicate NoUpTraffic(p: Pump, r: Pump) {
    && r.w.log.fromClient == p.w.log.fromClient && r.w.log.recvCalls == p.w.log.recvCalls
    && r.w.log.toChannel == p.w.log.toChannel
    && r.w.script.recvs == p.w.script.recvs && r.w.script.channelWrites == p.w.script.channelWrites
  }

  lemma {:induction false} ReadAllLeavesUp(p: Pump)
    ensures var r := ReadAll(p);
      r.up == p.up && r.lostUp == p.lostUp && r.w.log.selects == p.w.log.selects && NoUpTraffic(p, r)
    decreases p.w.runs
  {
    if p.w.runs > 0 && p.active {
      var w2 := SeeRead(SeeRunning(p.w));
      match p.w.script.channelReads.Head()
      case ReadData(chunk) =>
        AppendScript(w2, p.down, chunk);
        var a := Append(w2, p.down, chunk, MAX_BUFFER_CAP);
        if a.ok {
          FlushDownScript(a.w, a.q, p.active);
          var f := FlushDown(a.w, a.q, p.active);
          ReadAllLeavesUp(p.(w := f.w, down := f.q, active := f.active));
        }
      case ReadCode(rc, eof) =>
        if !(rc == 0 || rc == SSH_AGAIN || rc == SSH_EOF || eof || rc == SSH_ERROR) {
          ReadAllLeavesUp(p.(w := w2));
        }
    }
  }

  lemma PushesShrink(p: Pump)
    ensures |PushUp(p).up| <= |p.up| && PushDown(p).up == p.up
    ensures PushUp(p).lostUp == p.lostUp && PushDown(p).lostUp == p.lostUp
    ensures PushUp(p).w.log.selects == p.w.log.selects && PushDown(p).w.log.selects == p.w.log.selects
    ensures NoUpTraffic(p, PushDown(p)) && PushUp(p).w.log.recvCalls == p.w.log.recvCalls
  {
    FlushUpScript(p.w, p.up, p.active);
    FlushDownScript(p.w, p.down, p.active);
  }

  lemma OnePassGrowth(p: Pump)
    ensures var r := OnePass(p).p; var top := Max(|p.up|, BACKPRESSURE) + SCRATCH_SIZE;
      && |r.up| <= top
      && r.w.log.selects == p.w.log.selects + 1
      && (top <= MAX_BUFFER_CAP && r.w.log.failedAllocs == p.w.log.failedAllocs ==> r.lostUp == p.lostUp)
  {
    hide ReceiveAll, ReadAll, PushUp, PushDown;
    var round := p.w.script.rounds.Head();
    var p1 := p.(w := SeeSelect(p.w));
    if round.select.Ready? && !(round.tick && !round.connected) {
      PushesShrink(p1);
      PushesShrink(PushUp(p1));
      var p2 := TickStage(p1, round);
      ReceiveAllGrowth(p2);
      var p3 := ClientStage(p2, round);
      PushesShrink(p3);
      var p4 := SessionStage(p3, round);
      ReadAllLeavesUp(p4);
      PushesShrink(ReadAll(p4));
    }
  }

  lemma {:induction false} PassesGrowth(p: Pump, k: nat)
    requires |p.up| <= BACKPRESSURE + SCRATCH_SIZE * p.w.log.selects
    ensures var r := Passes(p, k);
      && |r.up| <= BACKPRESSURE + SCRATCH_SIZE * r.w.log.selects
      && p.w.log.selects <= r.w.log.selects <= p.w.log.selects + k
      && p.w.log.failedAllocs <= r.w.log.failedAllocs
      && (r.w.log.selects <= CLEAR_ROUNDS && r.w.log.failedAllocs == p.w.log.failedAllocs ==> r.lostUp == p.lostUp)
    decreases k
  {
    hide OnePass;
    if k > 0 && p.w.runs > 0 && p.active {
      var p1 := p.(w := SeeRunning(p.w));
      OnePassGrowth(p1);
      var pass := OnePass(p1);
      if !pass.leave { PassesGrowth(pass.p, k - 1); }
    }
  }

  /** After `k` rounds the queue holds at most 64 KiB and `k` chunks, whatever
      the channel does. */
  lemma PendingBound(w: World, k: nat)
    requires Untouched(w)
    ensures |Passes(Start(w), k).up| <= BACKPRESSURE + SCRATCH_SIZE * k
  {
    PassesGrowth(Start(w), k);
  }

  /** With `realloc` never failing, the cap refuses no chunk in the first 48
      rounds of any connection. */
  lemma NoOverflowBeforeRound49(w: World)
    requires Untouched(w)
    ensures var end := Forward(Start(w));
      end.lostUp != [] && end.w.log.failedAllocs == 0 ==> end.w.log.selects > CLEAR_ROUNDS
  {
    ForwardIsItsPasses(Start(w), w.runs + 1);
    PassesGrowth(Start(w), w.runs + 1);
  }

  // --------------------------------------------------------------- tightness

  /** A client that always has a full chunk ready, and a channel that never
      takes a byte. */
  function FullChunk(): Chunk { seq(SCRATCH_SIZE, _ => 0) }

  function Stalled(): Script {
    Script(
      Tape([], Round(Ready, false, true, true, false, true)), Tape([], RecvData(FullChunk())),
      Tape([], SSH_AGAIN), Tape([], SendWouldBlock), Tape([], ReadCode(SSH_AGAIN, false)), Tape([], true))
  }

  function StalledWorld(): World { World(2000, false, Stalled(), Log([], [], [], [], 0, 0, 0, 0), Silent) }

  /** The queue holds `m` chunks, none of which has moved. */
  ghost predicate InStall(p: Pump, m: nat) {
    && p.w.script == Stalled() && p.active && p.down == [] && p.lostUp == []
    && p.w.log.failedAllocs == 0 && |p.up| == SCRATCH_SIZE * m
  }

  /** After `k` rounds: 64 KiB and `k` chunks, with flag reads to spare. */
  ghost predicate StalledRound(p: Pump, k: nat) {
    && p.w.log.selects == k <= CLEAR_ROUNDS
    && InStall(p, if k == 0 then 0 else 16 + k)
    && p.w.runs >= 20 * (50 - k)
  }

  lemma StalledChunk(p: Pump, m: nat) returns (next: Pump)
    requires InStall(p, m) && m < 64 && p.w.runs > 0
    ensures InStall(next, m + 1)
    ensures next.w.log.selects == p.w.log.selects && next.w.runs == p.w.runs - 1
    ensures ReceiveAll(p) == if m + 1 > 16 then next else ReceiveAll(next)
  {
    var w1 := SeeRecv(p.w);
    var w2 := SeeAlloc(w1);
    var q := p.up + FullChunk();
    assert Append(w1, p.up, FullChunk(), MAX_BUFFER_CAP) == Appended(w2, q, true);
    var w3 := SeeWrite(SeeRunning(w2), q);
    assert w3.script == p.w.script && w3.log == w1.log;
    assert FlushUp(w2, q, true) == Flushed(w3, q, true);
    next := p.(w := w3, up := q);
  }

  lemma {:induction false} StalledReceive(p: Pump, m: nat)
    requires InStall(p, m) && m < 64 && p.w.runs >= Max(m, 16) + 1 - m
    ensures var r := ReceiveAll(p);
      && InStall(r, Max(m, 16) + 1)
      && r.w.log.selects == p.w.log.selects
      && r.w.runs == p.w.runs - (Max(m, 16) + 1 - m)
    decreases 64 - m
  {
    var next := StalledChunk(p, m);
    if m < 16 { StalledReceive(next, m + 1); }
  }

  lemma StalledPass(p: Pump, k: nat)
    requires StalledRound(p, k) && k < CLEAR_ROUNDS
    ensures var pass := OnePass(p.(w := SeeRunning(p.w)));
      !pass.leave && StalledRound(pass.p, k + 1)
  {
    var p1 := p.(w := SeeSelect(SeeRunning(p.w)));
    var m := if k == 0 then 0 else 16 + k;
    StalledReceive(p1, m);
    var p3 := ReceiveAll(p1);
    assert ReadAll(p3) == p3.(w := SeeRead(SeeRunning(p3.w)));
  }

  /** One stalled pass, and what is left of a run after it. */
  lemma StalledAdvance(p: Pump, j: nat, k: nat) returns (next: Pump)
    requires StalledRound(p, j) && j < CLEAR_ROUNDS && k > 0
    ensures StalledRound(next, j + 1)
    ensures Passes(p, k) == Passes(next, k - 1) && Forward(p) == Forward(next)
  {
    StalledPass(p, j);
    next := OnePass(p.(w := SeeRunning(p.w))).p;
  }

  lemma {:induction false} StalledPasses(p: Pump, j: nat, k: nat) returns (r: Pump)
    requires StalledRound(p, j) && j + k <= CLEAR_ROUNDS
    ensures r == Passes(p, k) && StalledRound(r, j + k)
    decreases k
  {
    hide OnePass, StalledRound;
    if k == 0 {
      r := p;
    } else {
      var next := StalledAdvance(p, j, k);
      r := StalledPasses(next, j + 1, k - 1);
    }
  }

  /** `PendingBound` is met with equality in every round the cap allows. */
  lemma PendingBoundIsTight(k: nat)
    requires 0 < k <= CLEAR_ROUNDS
    ensures exists w :: Untouched(w) && |Passes(Start(w), k).up| == BACKPRESSURE + SCRATCH_SIZE * k
  {
    var r := StalledPasses(Start(StalledWorld()), 0, k);
  }

  lemma RefusedInRound49(p: Pump)
    requires StalledRound(p, CLEAR_ROUNDS)
    ensures var end := Forward(p);
      end.lostUp != [] && end.w.log.failedAllocs == 0 && end.w.log.selects == CLEAR_ROUNDS + 1
  {
    var p1 := p.(w := SeeSelect(SeeRunning(p.w)));
    assert Append(SeeRecv(p1.w), p1.up, FullChunk(), MAX_BUFFER_CAP) == Appended(SeeRecv(p1.w), p1.up, false);
    var p3 := p1.(w := SeeRecv(p1.w), active := false, lostUp := FullChunk());
    assert ReceiveAll(p1) == p3;
    assert OnePass(p.(w := SeeRunning(p.w))) == Pass(ReadAll(p3), false);
  }

  lemma {:induction false} StalledForward(p: Pump, j: nat)
    requires StalledRound(p, j)
    ensures var end := Forward(p);
      end.lostUp != [] && end.w.log.failedAllocs == 0 && end.w.log.selects == CLEAR_ROUNDS + 1
    decreases CLEAR_ROUNDS - j
  {
    if j < CLEAR_ROUNDS {
      var next := StalledAdvance(p, j, 1);
      StalledForward(next, j + 1);
    } else {
      RefusedInRound49(p);
    }
  }

  /** The 48 rounds are exact: an environment without any allocation failure
      does make the cap refuse a chunk in round 49. */
  lemma OverflowInRound49()
    ensures exists w :: (
      && Untouched(w)
      && var end := Forward(Start(w));
         end.lostUp != [] && end.w.log.failedAllocs == 0 && end.w.log.selects == CLEAR_ROUNDS + 1)
  {
    StalledForward(Start(StalledWorld()), 0);
  }

  // ------------------------------------------------------- the other direction

  /** The queue to the client has no backpressure: a visit to the read loop adds
      up to one chunk per read.  It refuses none, allocation failures apart,
      while that many chunks still fit. */
  lemma {:induction false} ReadAllGrowth(p: Pump)
    ensures var r := ReadAll(p); var calls := r.w.log.readCalls - p.w.log.readCalls;
      && calls >= 0
      && |r.down| <= |p.down| + SCRATCH_SIZE * calls
      && (|p.down| + SCRATCH_SIZE * calls <= MAX_BUFFER_CAP && r.w.log.failedAllocs == p.w.log.failedAllocs ==>
            r.lostDown == p.lostDown)
    decreases p.w.runs
  {
    if p.w.runs > 0 && p.active {
      var w2 := SeeRead(SeeRunning(p.w));
      match p.w.script.channelReads.Head()
      case ReadData(chunk) =>
        AppendLogs(w2, p.down, chunk);
        var a := Append(w2, p.down, chunk, MAX_BUFFER_CAP);
        if a.ok {
          FlushDownMovesPrefix(a.w, a.q, p.active);
          var f := FlushDown(a.w, a.q, p.active);
          ReadAllGrowth(p.(w := f.w, down := f.q, active := f.active));
        }
      case ReadCode(rc, eof) =>
        if !(rc == 0 || rc == SSH_AGAIN || rc == SSH_EOF || eof || rc == SSH_ERROR) {
          ReadAllGrowth(p.(w := w2));
        }
    }
  }

  /** From an empty queue no visit refuses a chunk before its 65th read. */
  lemma NoDownOverflowBeforeRead65(p: Pump)
    requires p.down == []
    ensures var r := ReadAll(p);
      r.lostDown != p.lostDown && r.w.log.failedAllocs == p.w.log.failedAllocs ==>
        r.w.log.readCalls - p.w.log.readCalls > MAX_BUFFER_CAP / SCRATCH_SIZE
  {
    ReadAllGrowth(p);
  }

  /** A channel that always has a full chunk ready, and a client that never
      takes a byte and never sends one. */
  function Flooded(): Script {
    Script(
      Tape([], Round(Ready, false, true, false, false, true)), Tape([], RecvWouldBlock),
      Tape([], SSH_AGAIN), Tape([], SendWouldBlock), Tape([], ReadData(FullChunk())), Tape([], true))
  }

  /** The queue to the client holds `m` chunks, none of which has moved. */
  ghost predicate InFlood(p: Pump, m: nat) {
    && p.w.script == Flooded() && p.active && p.lostDown == [] && p.w.log.failedAllocs == 0
    && |p.down| == SCRATCH_SIZE * m && p.w.log.readCalls == m && p.w.runs >= 2 * (66 - m)
  }

  lemma FloodChunk(p: Pump, m: nat) returns (next: Pump)
    requires InFlood(p, m) && m < 64
    ensures InFlood(next, m + 1) && next.w.log.selects == p.w.log.selects && ReadAll(p) == ReadAll(next)
  {
    var w2 := SeeRead(SeeRunning(p.w));
    var w3 := SeeAlloc(w2);
    var q := p.down + FullChunk();
    assert Append(w2, p.down, FullChunk(), MAX_BUFFER_CAP) == Appended(w3, q, true);
    var w4 := SeeSend(SeeRunning(w3), q);
    assert w4.script == p.w.script && w4.log == w2.log;
    assert FlushDown(w3, q, true) == Flushed(w4, q, true);
    next := p.(w := w4, down := q);
  }

  lemma {:induction false} FloodedRead(p: Pump, m: nat)
    requires InFlood(p, m) && m <= 64
    ensures var r := ReadAll(p);
      && r.lostDown != [] && !r.active && r.w.log.failedAllocs == 0
      && r.w.log.readCalls == 65 && r.w.log.selects == p.w.log.selects
    decreases 64 - m
  {
    if m < 64 {
      hide ReadAll;
      var next := FloodChunk(p, m);
      FloodedRead(next, m + 1);
    } else {
      var w2 := SeeRead(SeeRunning(p.w));
      assert Append(w2, p.down, FullChunk(), MAX_BUFFER_CAP) == Appended(w2, p.down, false);
    }
  }

  /** The bound is exact: with a stalled client, the very first round can refuse
      the 65th chunk, without any allocation failure. */
  lemma DownOverflowInRound1()
    ensures exists w :: (
      && Untouched(w)
      && var end := Forward(Start(w));
         && end.lostDown != [] && end.w.log.failedAllocs == 0
         && end.w.log.selects == 1 && end.w.log.readCalls == MAX_BUFFER_CAP / SCRATCH_SIZE + 1)
  {
    var w := World(200, false, Flooded(), Log([], [], [], [], 0, 0, 0, 0), Silent);
    FloodedForward(w);
  }

  lemma FloodedForward(w: World)
    requires w == World(200, false, Flooded(), Log([], [], [], [], 0, 0, 0, 0), Silent)
    ensures var end := Forward(Start(w));
      && end.lostDown != [] && end.w.log.failedAllocs == 0
      && end.w.log.selects == 1 && end.w.log.readCalls == 65
  {
    hide ReadAll;
    var p1 := Start(w).(w := SeeSelect(SeeRunning(w)));
    FloodedRead(p1, 0);
    var r := ReadAll(p1);
    FlushDownMovesPrefix(r.w, r.down, r.active);
    assert OnePass(Start(w).(w := SeeRunning(w))) == Pass(PushDown(r), false);
  }
}
