/** Where every byte of a connection is when the forward loop ends. */
module RelayAccounting {
  import opened Limits
  import opened Environment
  import opened RelayModel

  /** Each source's bytes, in order, are what its sink took, then what is
      queued, then the chunk its queue refused. */
  ghost predicate Balanced(p: Pump) {
    && p.w.log.fromClient == p.w.log.toChannel + p.up + p.lostUp
    && p.w.log.fromChannel == p.w.log.toClient + p.down + p.lostDown
  }

  /** A chunk is lost only if its queue could not hold it or `realloc` failed. */
  ghost predicate Justified(q: seq<byte>, lost: seq<byte>, w: World) {
    lost != [] ==> |lost| <= SCRATCH_SIZE && (|q| + |lost| > MAX_BUFFER_CAP || w.log.failedAllocs > 0)
  }

  ghost predicate Accounted(p: Pump) {
    && Balanced(p)
    && |p.up| <= MAX_BUFFER_CAP && |p.down| <= MAX_BUFFER_CAP
    && Justified(p.up, p.lostUp, p.w) && Justified(p.down, p.lostDown, p.w)
    && (p.lostUp == [] || p.lostDown == [])
    && (p.lostUp != [] || p.lostDown != [] ==> !p.active)
  }

  ghost predicate NothingLost(p: Pump) { p.lostUp == [] && p.lostDown == [] }

  /** One write of a flush: the rest of the flush goes on from what it left. */
  lemma FlushUpOnce(w: World, q: seq<byte>)
    requires w.runs > 0 && q != []
    ensures var rc := Granted(w.script.channelWrites.Head(), |q|);
      var w2 := SeeWrite(SeeRunning(w), q);
      if rc > 0 then
        && FlushUp(w, q, true) == FlushUp(w2, q[rc..], true)
        && w2.log == w.log.(toChannel := w.log.toChannel + q[..rc])
      else FlushUp(w, q, true).q == q && FlushUp(w, q, true).w.log == w.log
  {
  }

  /** A flush moves a prefix of the queue onto the end of the sink, and touches
      nothing else but the flag and its own tape. */
  lemma {:induction false} FlushUpMovesPrefix(w: World, q: seq<byte>, active: bool)
    ensures var r := FlushUp(w, q, active);
      && r.w.log.toChannel + r.q == w.log.toChannel + q
      && w.log.toChannel <= r.w.log.toChannel
      && r.w.log == w.log.(toChannel := r.w.log.toChannel)
    decreases |q|
  {
    hide SeeWrite;
    if w.runs > 0 && active && q != [] {
      FlushUpOnce(w, q);
      var rc := Granted(w.script.channelWrites.Head(), |q|);
      if rc > 0 {
        FlushUpMovesPrefix(SeeWrite(SeeRunning(w), q), q[rc..], active);
        assert w.log.toChannel + q[..rc] + q[rc..] == w.log.toChannel + q;
      }
    }
  }

  lemma FlushDownOnce(w: World, q: seq<byte>)
    requires w.runs > 0 && q != []
    ensures var w2 := SeeSend(SeeRunning(w), q);
      match w.script.sends.Head()
      case Sent(n) =>
        var k := Granted(n, |q|);
        if n > 0 then
          && FlushDown(w, q, true) == FlushDown(w2, q[k..], true)
          && w2.log == w.log.(toClient := w.log.toClient + q[..k])
        else FlushDown(w, q, true).q == q && FlushDown(w, q, true).w.log == w.log
      case _ => FlushDown(w, q, true).q == q && FlushDown(w, q, true).w.log == w.log
  {
  }

  lemma {:induction false} FlushDownMovesPrefix(w: World, q: seq<byte>, active: bool)
    ensures var r := FlushDown(w, q, active);
      && r.w.log.toClient + r.q == w.log.toClient + q
      && w.log.toClient <= r.w.log.toClient
      && r.w.log == w.log.(toClient := r.w.log.toClient)
    decreases |q|
  {
    hide SeeSend;
    if w.runs > 0 && active && q != [] {
      FlushDownOnce(w, q);
      if w.script.sends.Head().Sent? && w.script.sends.Head().n > 0 {
        var k := Granted(w.script.sends.Head().n, |q|);
        FlushDownMovesPrefix(SeeSend(SeeRunning(w), q), q[k..], active);
        assert w.log.toClient + q[..k] + q[k..] == w.log.toClient + q;
      }
    }
  }

  lemma PushUpKeepsAccounts(p: Pump)
    requires Accounted(p) && NothingLost(p)
    ensures Accounted(PushUp(p)) && NothingLost(PushUp(p))
  {
    FlushUpMovesPrefix(p.w, p.up, p.active);
  }

  lemma PushDownKeepsAccounts(p: Pump)
    requires Accounted(p) && NothingLost(p)
    ensures Accounted(PushDown(p)) && NothingLost(PushDown(p))
  {
    FlushDownMovesPrefix(p.w, p.down, p.active);
  }

  /** After a loss the connection is inactive, and a flush then does nothing. */
  lemma PushesKeepLoss(p: Pump)
    requires Accounted(p) && !p.active
    ensures Accounted(PushUp(p)) && Accounted(PushDown(p))
    ensures !PushUp(p).active && !PushDown(p).active
  {
    FlushUpMovesPrefix(p.w, p.up, p.active);
    FlushDownMovesPrefix(p.w, p.down, p.active);
  }

  /** An append moves no byte across any end, and its refusals have a cause. */
  lemma AppendLogs(w: World, q: seq<byte>, chunk: seq<byte>)
    requires chunk != []
    ensures var a := Append(w, q, chunk, MAX_BUFFER_CAP);
      && a.w.log == w.log.(failedAllocs := a.w.log.failedAllocs)
      && (a.ok ==> |a.q| <= MAX_BUFFER_CAP)
      && (!a.ok ==> |q| + |chunk| > MAX_BUFFER_CAP || a.w.log.failedAllocs > w.log.failedAllocs)
  {
  }

  /** What a caller can do to a queue. */
  datatype QueueOp = Enqueue(chunk: Chunk) | Flush(active: bool)

  /** A queue towards the channel or the client, and the bytes it has accepted
      since the start. */
  datatype Queue = Queue(w: World, upward: bool, q: seq<byte>, accepted: seq<byte>)

  /** What the queue's sink has taken. */
  function SinkOf(s: Queue): seq<byte> { if s.upward then s.w.log.toChannel else s.w.log.toClient }

  function QueueStep(s: Queue, op: QueueOp): Queue {
    match op
    case Enqueue(chunk) =>
      var a := Append(s.w, s.q, chunk, MAX_BUFFER_CAP);
      Queue(a.w, s.upward, a.q, if a.ok then s.accepted + chunk else s.accepted)
    case Flush(active) =>
      var f := if s.upward then FlushUp(s.w, s.q, active) else FlushDown(s.w, s.q, active);
      Queue(f.w, s.upward, f.q, s.accepted)
  }

  function QueueRun(s: Queue, ops: seq<QueueOp>): Queue
    decreases |ops|
  {
    if ops == [] then s else QueueRun(QueueStep(s, ops[0]), ops[1..])
  }

  /** Through every sequence of appends and flushes, in either direction and with
      any failures among them, the sink has exactly the accepted bytes in order
      but for those still queued, and the queue stays within the cap. */
  lemma {:induction false} QueueIsFifo(s: Queue, ops: seq<QueueOp>)
    requires SinkOf(s) + s.q == s.accepted && |s.q| <= MAX_BUFFER_CAP
    ensures var end := QueueRun(s, ops);
      SinkOf(end) + end.q == end.accepted && s.accepted <= end.accepted && |end.q| <= MAX_BUFFER_CAP
    decreases |ops|
  {
    if ops != [] {
      var s1 := QueueStep(s, ops[0]);
      match ops[0] {
        case Enqueue(chunk) =>
          AppendLogs(s.w, s.q, chunk);
          assert SinkOf(s) + (s.q + chunk) == s.accepted + chunk;
        case Flush(active) =>
          FlushUpMovesPrefix(s.w, s.q, active);
          FlushDownMovesPrefix(s.w, s.q, active);
      }
      QueueIsFifo(s1, ops[1..]);
    }
  }

  /** One received chunk, appended and flushed. */
  lemma ReceivedChunkAccounts(p: Pump, chunk: Chunk)
    requires Accounted(p) && NothingLost(p) && p.w.script.recvs.Head() == RecvData(chunk)
    ensures var a := Append(SeeRecv(p.w), p.up, chunk, MAX_BUFFER_CAP);
      if !a.ok then Accounted(p.(w := a.w, active := false, lostUp := chunk))
      else
        var f := FlushUp(a.w, a.q, p.active);
        Accounted(p.(w := f.w, up := f.q, active := f.active))
  {
    var a := Append(SeeRecv(p.w), p.up, chunk, MAX_BUFFER_CAP);
    AppendLogs(SeeRecv(p.w), p.up, chunk);
    assert a.w.log.fromClient == p.w.log.toChannel + p.up + p.lostUp + chunk;
    assert p.lostUp == [] && p.w.log.toChannel + p.up + [] + chunk == p.w.log.toChannel + (p.up + chunk) + [];
    if a.ok {
      FlushUpMovesPrefix(a.w, a.q, p.active);
    }
  }

  lemma {:induction false} ReceiveAllAccounts(p: Pump)
    requires Accounted(p) && NothingLost(p)
    ensures Accounted(ReceiveAll(p))
    decreases p.w.runs, BACKPRESSURE + 1 - |p.up|
  {
    match p.w.script.recvs.Head()
    case RecvClosed =>
    case RecvFailed =>
    case RecvWouldBlock =>
    case RecvData(chunk) =>
      ReceivedChunkAccounts(p, chunk);
      var a := Append(SeeRecv(p.w), p.up, chunk, MAX_BUFFER_CAP);
      if a.ok {
        var f := FlushUp(a.w, a.q, p.active);
        if |f.q| <= BACKPRESSURE {
          ReceiveAllAccounts(p.(w := f.w, up := f.q, active := f.active));
        }
      }
  }

  lemma ReadChunkAccounts(p: Pump, chunk: Chunk)
    requires Accounted(p) && NothingLost(p) && p.w.script.channelReads.Head() == ReadData(chunk)
    ensures var a := Append(SeeRead(SeeRunning(p.w)), p.down, chunk, MAX_BUFFER_CAP);
      if !a.ok then Accounted(p.(w := a.w, active := false, lostDown := chunk))
      else
        var f := FlushDown(a.w, a.q, p.active);
        Accounted(p.(w := f.w, down := f.q, active := f.active))
  {
    var w2 := SeeRead(SeeRunning(p.w));
    var a := Append(w2, p.down, chunk, MAX_BUFFER_CAP);
    AppendLogs(w2, p.down, chunk);
    assert a.w.log.fromChannel == p.w.log.toClient + p.down + p.lostDown + chunk;
    assert p.lostDown == [] && p.w.log.toClient + p.down + [] + chunk == p.w.log.toClient + (p.down + chunk) + [];
    if a.ok {
      FlushDownMovesPrefix(a.w, a.q, p.active);
    }
  }

  lemma {:induction false} ReadAllAccounts(p: Pump)
    requires Accounted(p) && (p.active ==> NothingLost(p))
    ensures Accounted(ReadAll(p))
    decreases p.w.runs
  {
    if p.w.runs > 0 && p.active {
      var w2 := SeeRead(SeeRunning(p.w));
      match p.w.script.channelReads.Head()
      case ReadData(chunk) =>
        ReadChunkAccounts(p, chunk);
        var a := Append(w2, p.down, chunk, MAX_BUFFER_CAP);
        if a.ok {
          var f := FlushDown(a.w, a.q, p.active);
          ReadAllAccounts(p.(w := f.w, down := f.q, active := f.active));
        }
      case ReadCode(rc, eof) =>
        assert Accounted(p.(w := w2));
        if !(rc == 0 || rc == SSH_AGAIN || rc == SSH_EOF || eof || rc == SSH_ERROR) {
          ReadAllAccounts(p.(w := w2));
        }
    }
  }

  lemma PushKeepsAccounts(p: Pump)
    requires Accounted(p)
    ensures Accounted(PushUp(p)) && Accounted(PushDown(p))
  {
    if NothingLost(p) {
      PushUpKeepsAccounts(p);
      PushDownKeepsAccounts(p);
    } else {
      PushesKeepLoss(p);
    }
  }

  lemma TickStageAccounts(p: Pump, round: Round)
    requires Accounted(p) && NothingLost(p)
    ensures Accounted(TickStage(p, round)) && NothingLost(TickStage(p, round))
  {
    PushUpKeepsAccounts(p);
    PushDownKeepsAccounts(PushUp(p));
  }

  lemma OnePassAccounts(p: Pump)
    requires Accounted(p) && NothingLost(p)
    ensures Accounted(OnePass(p).p)
  {
    hide ReceiveAll, ReadAll, PushUp, PushDown;
    var round := p.w.script.rounds.Head();
    var p1 := p.(w := SeeSelect(p.w));
    TickStageAccounts(p1, round);
    var p2 := TickStage(p1, round);
    ReceiveAllAccounts(p2);
    var p3 := ClientStage(p2, round);
    PushKeepsAccounts(p3);
    var p4 := SessionStage(p3, round);
    ReadAllAccounts(p4);
    PushKeepsAccounts(ReadAll(p4));
  }

  lemma {:induction false} ForwardAccounts(p: Pump)
    requires Accounted(p)
    ensures Accounted(Forward(p))
    decreases p.w.runs
  {
    if p.w.runs > 0 && p.active {
      var p1 := p.(w := SeeRunning(p.w));
      OnePassAccounts(p1);
      var pass := OnePass(p1);
      if !pass.leave { ForwardAccounts(pass.p); }
    }
  }

  /** The account of a whole connection, whatever the peers, the allocator and
      the running flag do and whichever way the loop is left: both directions
      are exact, each sink holds a prefix of its own source, and at most one
      chunk is lost, in at most one direction, and only for cause. */
  lemma RelayIsExact(w: World)
    requires Untouched(w)
    ensures var end := Forward(Start(w));
      && end.w.log.fromClient == end.w.log.toChannel + end.up + end.lostUp
      && end.w.log.fromChannel == end.w.log.toClient + end.down + end.lostDown
      && end.w.log.toChannel <= end.w.log.fromClient && end.w.log.toClient <= end.w.log.fromChannel
      && |end.up| <= MAX_BUFFER_CAP && |end.down| <= MAX_BUFFER_CAP
      && |end.lostUp| <= SCRATCH_SIZE && |end.lostDown| <= SCRATCH_SIZE
      && (end.lostUp == [] || end.lostDown == [])
      && (end.lostUp != [] ==> |end.up| + |end.lostUp| > MAX_BUFFER_CAP || end.w.log.failedAllocs > 0)
      && (end.lostDown != [] ==> |end.down| + |end.lostDown| > MAX_BUFFER_CAP || end.w.log.failedAllocs > 0)
  {
    ForwardAccounts(Start(w));
    var end := Forward(Start(w));
    assert end.w.log.fromClient[..|end.w.log.toChannel|] == end.w.log.toChannel;
    assert end.w.log.fromChannel[..|end.w.log.toClient|] == end.w.log.toClient;
  }
}
