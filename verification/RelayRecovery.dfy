/** Queued bytes are offered again, and a stall does not last. */
module RelayRecovery {
  import opened Limits
  import opened Environment
  import opened RelayModel
  import opened RelayAccounting
  import opened RelayBounds
  import opened RelayDelivery
  import opened RelayEnding

  // ------------------------------------------------------------- one retry

  /** What the next write to the channel, or send to the client, will take of the
      bytes queued now. */
  function NextUp(p: Pump): seq<byte> { Taken(p.w.script.channelWrites.Head(), p.up) }

  function NextDown(p: Pump): seq<byte> { SentPart(p.w.script.sends.Head(), p.down) }

  /** That has happened on the way to `r`. */
  ghost predicate UpRetried(p: Pump, r: Pump) { p.w.log.toChannel + NextUp(p) <= r.w.log.toChannel }

  ghost predicate DownRetried(p: Pump, r: Pump) { p.w.log.toClient + NextDown(p) <= r.w.log.toClient }

  /** Nothing has been read from the channel or sent to the client. */
  ghost predicate NoDownTraffic(p: Pump, r: Pump) {
    r.down == p.down && r.w.script.sends == p.w.script.sends && r.w.log.toClient == p.w.log.toClient
  }

  lemma FlushUpRetries(w: World, q: seq<byte>)
    requires w.runs > 0
    ensures w.log.toChannel + Taken(w.script.channelWrites.Head(), q) <= FlushUp(w, q, true).w.log.toChannel
  {
    if q != [] {
      FlushUpOnce(w, q);
      var rc := Granted(w.script.channelWrites.Head(), |q|);
      if rc > 0 { FlushUpMovesPrefix(SeeWrite(SeeRunning(w), q), q[rc..], true); }
    }
  }

  lemma FlushDownRetries(w: World, q: seq<byte>)
    requires w.runs > 0
    ensures w.log.toClient + SentPart(w.script.sends.Head(), q) <= FlushDown(w, q, true).w.log.toClient
  {
    if q != [] {
      FlushDownOnce(w, q);
      var reply := w.script.sends.Head();
      if reply.Sent? && reply.n > 0 {
        FlushDownMovesPrefix(SeeSend(SeeRunning(w), q), q[Granted(reply.n, |q|)..], true);
      }
    }
  }

  lemma PushRetries(p: Pump)
    requires p.active && p.w.runs > 0
    ensures UpRetried(p, PushUp(p)) && DownRetried(p, PushDown(p))
  {
    FlushUpRetries(p.w, p.up);
    FlushDownRetries(p.w, p.down);
  }

  lemma PushFrames(p: Pump)
    ensures PushUp(p).active || PushDown(p).active ==> p.active
    ensures NoDownTraffic(p, PushUp(p)) && p.w.log.toChannel <= PushUp(p).w.log.toChannel
    ensures NoUpTraffic(p, PushDown(p)) && p.w.log.toClient <= PushDown(p).w.log.toClient
    ensures PushDown(p).up == p.up
  {
    FlushUpMovesPrefix(p.w, p.up, p.active);
    FlushUpScript(p.w, p.up, p.active);
    FlushDownMovesPrefix(p.w, p.down, p.active);
    FlushDownScript(p.w, p.down, p.active);
  }

  lemma ReceivedChunkRetries(p: Pump, chunk: Chunk)
    requires p.w.script.recvs.Head() == RecvData(chunk) && Append(SeeRecv(p.w), p.up, chunk, MAX_BUFFER_CAP).ok
    ensures var a := Append(SeeRecv(p.w), p.up, chunk, MAX_BUFFER_CAP); var f := FlushUp(a.w, a.q, p.active);
      var r := p.(w := f.w, up := f.q, active := f.active);
      && NoDownTraffic(p, r) && p.w.log.toChannel <= r.w.log.toChannel
      && (p.active && p.w.runs > 0 ==> UpRetried(p, r))
  {
    AppendScript(SeeRecv(p.w), p.up, chunk);
    var a := Append(SeeRecv(p.w), p.up, chunk, MAX_BUFFER_CAP);
    hide Append;
    FlushUpMovesPrefix(a.w, a.q, p.active);
    FlushUpScript(a.w, a.q, p.active);
    if p.active && p.w.runs > 0 {
      hide FlushUp;
      FlushUpRetries(a.w, a.q);
      assert NextUp(p) <= Taken(p.w.script.channelWrites.Head(), p.up + chunk);
    }
  }

  /** A visit to the receive loop that keeps the connection and receives anything
      has also written. */
  lemma {:induction false} ReceiveRetries(p: Pump)
    ensures var r := ReceiveAll(p);
      && NoDownTraffic(p, r) && p.w.log.toChannel <= r.w.log.toChannel && (r.active ==> p.active)
      && (r.active && p.w.runs > 0 ==> r == p.(w := SeeRecv(p.w)) || UpRetried(p, r))
    decreases p.w.runs, BACKPRESSURE + 1 - |p.up|
  {
    match p.w.script.recvs.Head()
    case RecvClosed =>
    case RecvFailed =>
    case RecvWouldBlock =>
    case RecvData(chunk) =>
      AppendScript(SeeRecv(p.w), p.up, chunk);
      var a := Append(SeeRecv(p.w), p.up, chunk, MAX_BUFFER_CAP);
      if a.ok {
        ReceivedChunkRetries(p, chunk);
        var f := FlushUp(a.w, a.q, p.active);
        if |f.q| <= BACKPRESSURE {
          ReceiveRetries(p.(w := f.w, up := f.q, active := f.active));
        }
      }
  }

  lemma ReadChunkRetries(p: Pump, chunk: Chunk)
    requires p.active && p.w.runs > 0 && p.w.script.channelReads.Head() == ReadData(chunk)
    requires Append(SeeRead(SeeRunning(p.w)), p.down, chunk, MAX_BUFFER_CAP).ok
    ensures var a := Append(SeeRead(SeeRunning(p.w)), p.down, chunk, MAX_BUFFER_CAP);
      var f := FlushDown(a.w, a.q, p.active); var r := p.(w := f.w, down := f.q, active := f.active);
      p.w.log.toClient <= r.w.log.toClient && (a.w.runs > 0 ==> DownRetried(p, r))
  {
    var w2 := SeeRead(SeeRunning(p.w));
    AppendScript(w2, p.down, chunk);
    var a := Append(w2, p.down, chunk, MAX_BUFFER_CAP);
    hide Append;
    FlushDownMovesPrefix(a.w, a.q, p.active);
    if a.w.runs > 0 {
      hide FlushDown;
      FlushDownRetries(a.w, a.q);
      assert NextDown(p) <= SentPart(p.w.script.sends.Head(), p.down + chunk);
    }
  }

  lemma {:induction false} ReadRetries(p: Pump)
    ensures var r := ReadAll(p);
      && p.w.log.toClient <= r.w.log.toClient && (r.active ==> p.active)
      && (r.active && r.w.runs > 0 ==> NoDownTraffic(p, r) || DownRetried(p, r))
    decreases p.w.runs
  {
    if p.w.runs > 0 && p.active {
      var w2 := SeeRead(SeeRunning(p.w));
      match p.w.script.channelReads.Head()
      case ReadData(chunk) =>
        AppendScript(w2, p.down, chunk);
        var a := Append(w2, p.down, chunk, MAX_BUFFER_CAP);
        if a.ok {
          ReadChunkRetries(p, chunk);
          var f := FlushDown(a.w, a.q, p.active);
          ReadRetries(p.(w := f.w, down := f.q, active := f.active));
        }
      case ReadCode(rc, eof) =>
        if !(rc == 0 || rc == SSH_AGAIN || rc == SSH_EOF || eof || rc == SSH_ERROR) {
          ReadRetries(p.(w := w2));
        }
    }
  }

  /** The state of a pass before its last flush, which is towards the client. */
  function BeforeLast(p: Pump, round: Round): Pump {
    ReadAll(SessionStage(ClientStage(TickStage(p, round), round), round))
  }

  lemma UpStagesRetry(p: Pump, round: Round)
    requires p.active && p.w.runs > 0
    ensures var r := PushDown(BeforeLast(p, round));
      round.tick || (round.sessionReady && ClientStage(p, round).active) ==> UpRetried(p, r)
  {
    hide ReceiveAll, ReadAll, PushUp, PushDown;
    PushRetries(p);
    PushFrames(PushUp(p));
    var p2 := TickStage(p, round);
    ReceiveRetries(p2);
    var p3 := ClientStage(p2, round);
    PushFrames(p3);
    if !round.tick && p3.active {
      assert p3 == p || p3 == p.(w := SeeRecv(p.w)) || UpRetried(p, p3);
      if p3.w.runs > 0 { PushRetries(p3); }
    }
    var p4 := SessionStage(p3, round);
    ReadAllLeavesUp(p4);
    PushFrames(ReadAll(p4));
  }

  lemma DownStagesRetry(p: Pump, round: Round)
    requires p.active
    ensures var q := BeforeLast(p, round); q.active && q.w.runs > 0 ==> DownRetried(p, PushDown(q))
  {
    hide ReceiveAll, ReadAll, PushUp, PushDown, TickStage;
    TickRetriesDown(p, round);
    var p2 := TickStage(p, round);
    ReceiveRetries(p2);
    var p3 := ClientStage(p2, round);
    PushFrames(p3);
    var p4 := SessionStage(p3, round);
    ReadRetries(p4);
    var q := ReadAll(p4);
    PushFrames(q);
    if q.active && q.w.runs > 0 { PushRetries(q); }
  }

  lemma TickRetriesDown(p: Pump, round: Round)
    ensures var r := TickStage(p, round);
      && p.w.log.toClient <= r.w.log.toClient && (r.active ==> p.active)
      && (r.active && r.w.runs > 0 ==> NoDownTraffic(p, r) || DownRetried(p, r))
  {
    var q := PushUp(p);
    PushFrames(p);
    PushFrames(q);
    if q.active && q.w.runs > 0 { PushRetries(q); }
  }

  /** Queued bytes are offered again.  In a pass that goes through, from an active
      connection with the flag up, whatever the next write to the channel takes
      of the queue reaches the channel if the clock ticks, or if the session is
      readable and the client has not just ended the connection.  Whatever the
      next send takes reaches the client in every such pass, unless the
      connection ends or the flag drops before its last flush. */
  lemma PassRetries(p: Pump)
    requires p.active && p.w.runs > 0
    ensures var round := p.w.script.rounds.Head(); var p1 := p.(w := SeeSelect(p.w)); var r := OnePass(p).p;
      round.select.Ready? && (round.tick ==> round.connected) ==>
        && (round.tick || (round.sessionReady && ClientStage(p1, round).active) ==> UpRetried(p, r))
        && (BeforeLast(p1, round).active && BeforeLast(p1, round).w.runs > 0 ==> DownRetried(p, r))
  {
    hide ReceiveAll, ReadAll, PushUp, PushDown;
    var round := p.w.script.rounds.Head();
    var p1 := p.(w := SeeSelect(p.w));
    UpStagesRetry(p1, round);
    DownStagesRetry(p1, round);
  }

  /** The tick flushes both ways on its own account. */
  lemma TickRetries(p: Pump, round: Round)
    requires p.active && p.w.runs > 0 && round.tick
    ensures UpRetried(p, TickStage(p, round))
    ensures PushUp(p).active && PushUp(p).w.runs > 0 ==> DownRetried(p, TickStage(p, round))
  {
    hide PushUp, PushDown;
    PushRetries(p);
    PushFrames(p);
    PushFrames(PushUp(p));
    if PushUp(p).active && PushUp(p).w.runs > 0 { PushRetries(PushUp(p)); }
  }

  // -------------------------------------------------------- after the stall

  lemma PushDrains(p: Pump)
    requires p.active && Willing(p.w.script)
    ensures PushUp(p).active && Willing(PushUp(p).w.script) && (PushUp(p).w.sawStop || PushUp(p).up == [])
    ensures PushDown(p).active && Willing(PushDown(p).w.script) && (PushDown(p).w.sawStop || PushDown(p).down == [])
    ensures PushUp(p).down == p.down && PushDown(p).up == p.up
    ensures PushUp(p).lostUp == p.lostUp && PushDown(p).lostUp == p.lostUp
    ensures PushUp(p).lostDown == p.lostDown && PushDown(p).lostDown == p.lostDown
  {
    FlushUpDrains(p.w, p.up);
    FlushDownDrains(p.w, p.down);
  }

  /** Whatever has been queued while the sinks stalled, once they take bytes
      again the next pass with a tick empties both queues and refuses nothing,
      unless it sees the flag down. */
  lemma TickedPassDrains(p: Pump)
    requires p.active && NothingLost(p) && Willing(p.w.script)
    requires var round := p.w.script.rounds.Head(); round.select.Ready? && round.tick && round.connected
    ensures var r := OnePass(p).p; r.w.sawStop || Drained(r)
  {
    hide PushUp, PushDown, ReceiveAll, ReadAll;
    var round := p.w.script.rounds.Head();
    var p1 := p.(w := SeeSelect(p.w));
    PushDrains(p1);
    PushDrains(PushUp(p1));
    var p2 := TickStage(p1, round);
    assert p2.w.sawStop || (Drained(p2) && p2.active);
    if !p2.w.sawStop { DrainedStages(p2, round); }
  }

  lemma DrainedStages(p: Pump, round: Round)
    requires Drained(p) && p.active
    ensures var r := PushDown(ReadAll(SessionStage(ClientStage(p, round), round))); r.w.sawStop || Drained(r)
  {
    ReceiveAllDrains(p);
    var p3 := ClientStage(p, round);
    if Drained(p3) { ReadAllDrains(p3); }
  }

  /** So a stall costs nothing but time: from any state of the loop with nothing
      lost, if the sinks are willing from there on and the next round ticks, the
      connection that ends on its own has delivered every byte, both ways. */
  lemma StallIsMadeUp(p: Pump)
    requires Accounted(p) && NothingLost(p) && p.active && p.w.runs > 0 && Willing(p.w.script)
    requires var round := p.w.script.rounds.Head(); round.select.Ready? && round.tick && round.connected
    ensures var end := Forward(p);
      !end.w.sawStop ==>
        end.w.log.toChannel == end.w.log.fromClient && end.w.log.toClient == end.w.log.fromChannel
  {
    hide OnePass;
    var p1 := p.(w := SeeRunning(p.w));
    TickedPassDrains(p1);
    var pass := OnePass(p1);
    if !pass.leave && !pass.p.w.sawStop { ForwardDrains(pass.p); }
    ForwardAccounts(p);
  }
}
