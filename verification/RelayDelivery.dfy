/** When every byte received is delivered. */
module RelayDelivery {
  import opened Limits
  import opened Environment
  import opened RelayModel
  import opened RelayAccounting

  /** Sinks that always take at least one byte, and an allocator that never
      fails.  How much each write takes is still free. */
  ghost predicate Willing(s: Script) {
    && s.channelWrites.All(n => n > 0)
    && s.sends.All((r: SendReply) => r.Sent? && r.n > 0)
    && s.allocs.All(ok => ok)
  }

  ghost predicate Drained(p: Pump) {
    p.up == [] && p.down == [] && NothingLost(p) && Willing(p.w.script)
  }

  lemma {:induction false} FlushUpDrains(w: World, q: seq<byte>)
    requires Willing(w.script)
    ensures var r := FlushUp(w, q, true);
      Willing(r.w.script) && r.active && (r.w.sawStop || r.q == [])
    decreases |q|
  {
    if w.runs > 0 && q != [] {
      var w2 := SeeWrite(SeeRunning(w), q);
      var rc := Granted(w.script.channelWrites.Head(), |q|);
      assert FlushUp(w, q, true) == FlushUp(w2, q[rc..], true);
      FlushUpDrains(w2, q[rc..]);
    }
  }

  lemma {:induction false} FlushDownDrains(w: World, q: seq<byte>)
    requires Willing(w.script)
    ensures var r := FlushDown(w, q, true);
      Willing(r.w.script) && r.active && (r.w.sawStop || r.q == [])
    decreases |q|
  {
    if w.runs > 0 && q != [] {
      var w2 := SeeSend(SeeRunning(w), q);
      var k := Granted(w.script.sends.Head().n, |q|);
      assert FlushDown(w, q, true) == FlushDown(w2, q[k..], true);
      FlushDownDrains(w2, q[k..]);
    }
  }

  lemma {:induction false} ReceiveAllDrains(p: Pump)
    requires Drained(p) && p.active
    ensures var r := ReceiveAll(p); r.w.sawStop || Drained(r)
    decreases p.w.runs, BACKPRESSURE + 1 - |p.up|
  {
    match p.w.script.recvs.Head()
    case RecvClosed =>
    case RecvFailed =>
    case RecvWouldBlock =>
    case RecvData(chunk) =>
      var a := Append(SeeRecv(p.w), p.up, chunk, MAX_BUFFER_CAP);
      assert a.ok;
      FlushUpDrains(a.w, a.q);
      var f := FlushUp(a.w, a.q, true);
      var p' := p.(w := f.w, up := f.q, active := f.active);
      if !f.w.sawStop { ReceiveAllDrains(p'); }
  }

  lemma {:induction false} ReadAllDrains(p: Pump)
    requires Drained(p)
    ensures var r := ReadAll(p); r.w.sawStop || Drained(r)
    decreases p.w.runs
  {
    if p.w.runs > 0 && p.active {
      var w2 := SeeRead(SeeRunning(p.w));
      match p.w.script.channelReads.Head()
      case ReadData(chunk) =>
        var a := Append(w2, p.down, chunk, MAX_BUFFER_CAP);
        assert a.ok;
        FlushDownDrains(a.w, a.q);
        var f := FlushDown(a.w, a.q, true);
        if !f.w.sawStop { ReadAllDrains(p.(w := f.w, down := f.q, active := f.active)); }
      case ReadCode(rc, eof) =>
        if !(rc == 0 || rc == SSH_AGAIN || rc == SSH_EOF || eof || rc == SSH_ERROR) {
          ReadAllDrains(p.(w := w2));
        }
    }
  }

  lemma OnePassDrains(p: Pump)
    requires Drained(p) && p.active
    ensures var r := OnePass(p).p; r.w.sawStop || Drained(r)
  {
    var round := p.w.script.rounds.Head();
    var p1 := p.(w := SeeSelect(p.w));
    assert TickStage(p1, round) == p1;
    ReceiveAllDrains(p1);
    var p3 := ClientStage(p1, round);
    if Drained(p3) { ReadAllDrains(p3); }
  }

  lemma {:induction false} ForwardDrains(p: Pump)
    requires Drained(p)
    ensures var end := Forward(p); end.w.sawStop || Drained(end)
    decreases p.w.runs
  {
    if p.w.runs > 0 && p.active {
      var p1 := p.(w := SeeRunning(p.w));
      OnePassDrains(p1);
      var pass := OnePass(p1);
      if !pass.leave && Drained(pass.p) { ForwardDrains(pass.p); }
    }
  }

  /** With willing sinks, a connection that ends on its own (not because the
      running flag dropped) has delivered every byte it received, both ways,
      however the writes were cut up and whichever way the loop was left. */
  lemma WillingSinksGetEverything(w: World)
    requires Untouched(w) && Willing(w.script)
    ensures var end := Forward(Start(w));
      !end.w.sawStop ==>
        end.w.log.toChannel == end.w.log.fromClient && end.w.log.toClient == end.w.log.fromChannel
  {
    ForwardDrains(Start(w));
    ForwardAccounts(Start(w));
  }

  // ------------------------------------------------- the end of the stream

  /** Same bytes across every end, and the same bytes queued and lost. */
  ghost predicate SameBytes(p: Pump, r: Pump) {
    && r.w.log.fromClient == p.w.log.fromClient && r.w.log.toChannel == p.w.log.toChannel
    && r.w.log.fromChannel == p.w.log.fromChannel && r.w.log.toClient == p.w.log.toClient
    && r.up == p.up && r.down == p.down && r.lostUp == p.lostUp && r.lostDown == p.lostDown
  }

  /** What is left of a pass after its client stage, and then of the loop. */
  function Rest(p: Pump, round: Round): Pump {
    var q := PushDown(ReadAll(SessionStage(p, round)));
    if round.stillOpen then Forward(q) else q
  }

  /** `Rest` is what `Forward` does from there. */
  lemma ForwardIsRest(p: Pump)
    requires p.w.runs > 0 && p.active
    ensures var round := p.w.script.rounds.Head(); var p1 := p.(w := SeeSelect(SeeRunning(p.w)));
      round.select.Ready? && !(round.tick && !round.connected) ==>
        Forward(p) == Rest(ClientStage(TickStage(p1, round), round), round)
  {
  }

  /** Once a connection is inactive, no byte moves in either direction, however
      the pass and the loop go on. */
  lemma InactiveMovesNothing(p: Pump, round: Round)
    requires !p.active
    ensures SameBytes(p, Rest(p, round))
  {
    var p1 := SessionStage(p, round);
    InactiveSteps(p);
    InactiveSteps(p1);
    InactiveSteps(ReadAll(p1));
    InactiveSteps(PushDown(ReadAll(p1)));
  }

  lemma InactiveSteps(p: Pump)
    requires !p.active
    ensures SameBytes(p, PushUp(p)) && SameBytes(p, PushDown(p)) && SameBytes(p, ReadAll(p))
    ensures SameBytes(p, Forward(p))
    ensures !PushUp(p).active && !PushDown(p).active && !ReadAll(p).active
  {
    FlushUpMovesPrefix(p.w, p.up, p.active);
    FlushDownMovesPrefix(p.w, p.down, p.active);
  }

  /** The pump at the last receive of a visit to the receive loop. */
  function LastReceive(p: Pump): Pump
    decreases p.w.runs, BACKPRESSURE + 1 - |p.up|
  {
    match p.w.script.recvs.Head()
    case RecvData(chunk) =>
      var a := Append(SeeRecv(p.w), p.up, chunk, MAX_BUFFER_CAP);
      var f := FlushUp(a.w, a.q, p.active);
      if !a.ok || |f.q| > BACKPRESSURE then p
      else LastReceive(p.(w := f.w, up := f.q, active := f.active))
    case _ => p
  }

  lemma {:induction false} LastReceiveFacts(p: Pump)
    requires Accounted(p) && NothingLost(p)
    ensures var q := LastReceive(p); ReceiveAll(q) == ReceiveAll(p) && Accounted(q) && NothingLost(q)
    decreases p.w.runs, BACKPRESSURE + 1 - |p.up|
  {
    match p.w.script.recvs.Head()
    case RecvData(chunk) =>
      ReceivedChunkAccounts(p, chunk);
      var a := Append(SeeRecv(p.w), p.up, chunk, MAX_BUFFER_CAP);
      var f := FlushUp(a.w, a.q, p.active);
      if a.ok && |f.q| <= BACKPRESSURE {
        LastReceiveFacts(p.(w := f.w, up := f.q, active := f.active));
      }
    case _ =>
  }

  /** The end of the client's stream does not drain the queue.  Whenever a visit
      to the receive loop, with nothing lost before it, meets the end of the
      stream, the connection ends with every received byte delivered to the
      channel if and only if nothing was queued at that last receive; else
      exactly that queue is dropped. */
  lemma EndOfStreamDeliversIff(p: Pump, round: Round)
    requires Accounted(p) && NothingLost(p) && round.clientReady
    requires LastReceive(p).w.script.recvs.Head().RecvClosed?
    ensures var q := LastReceive(p); var end := Rest(ClientStage(p, round), round);
      && (end.w.log.toChannel == end.w.log.fromClient <==> q.up == [])
      && end.w.log.fromClient == end.w.log.toChannel + q.up
  {
    LastReceiveFacts(p);
    var q := LastReceive(p);
    var p' := ReceiveAll(q);
    assert p' == q.(w := SeeRecv(q.w), active := false);
    InactiveMovesNothing(p', round);
    assert q.w.log.fromClient == q.w.log.toChannel + q.up + [];
    assert |q.w.log.fromClient| == |q.w.log.toChannel| + |q.up|;
  }

  /** A client that sends one byte and closes, against a busy channel. */
  function SendAndClose(): World {
    var script := Script(
      Tape([], Round(Ready, false, true, true, false, true)), Tape([RecvData([0])], RecvClosed),
      Tape([], SSH_AGAIN), Tape([], SendWouldBlock), Tape([], ReadCode(SSH_AGAIN, false)), Tape([], true));
    World(10, false, script, Log([], [], [], [], 0, 0, 0, 0), Silent)
  }

  /** The other side of that condition is met: a connection can end on its own,
      with no allocation failure and no refused chunk, and drop a queued byte. */
  lemma PendingBytesCanBeDropped()
    ensures var end := Forward(Start(SendAndClose()));
      && Untouched(SendAndClose()) && !end.w.sawStop && end.w.log.failedAllocs == 0 && NothingLost(end)
      && end.w.log.fromClient == [0] && end.w.log.toChannel == []
  {
    var p := Start(SendAndClose());
    var round := p.w.script.rounds.Head();
    var p1 := p.(w := SeeSelect(SeeRunning(p.w)));
    var a := Append(SeeRecv(p1.w), [], [0], MAX_BUFFER_CAP);
    var f := FlushUp(a.w, [0], true);
    assert f == Flushed(SeeWrite(SeeRunning(a.w), [0]), [0], true);
    var p2 := p1.(w := f.w, up := [0]);
    var p3 := p2.(w := SeeRecv(f.w), active := false);
    assert ReceiveAll(p1) == ReceiveAll(p2) == p3;
    ForwardIsRest(p);
    assert Rest(p3, round) == p3.(w := SeeRunning(SeeRunning(p3.w)));
  }
}
