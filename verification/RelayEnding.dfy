/** What ends a connection, a visit to one of the inner loops, and the loop. */
module RelayEnding {
  import opened Limits
  import opened Environment
  import opened RelayModel
  import opened RelayAccounting
  import opened RelayBounds

  // -------------------------------------------------- what a trace says

  /** The replies that end a connection.  Would-block, an interrupted call, a
      write of 0 and a code outside the contract are not among them. */
  predicate Fatal(e: Event) {
    match e
    case Selected(_) => false
    case Received(r) => r.RecvClosed? || r.RecvFailed?
    case Wrote(rc) => rc == SSH_ERROR || rc == SSH_EOF
    case SentOut(r) => r.SendFailed? || r == Sent(0)
    case ReadOut(r) =>
      r.ReadCode? && r.rc != 0 && r.rc != SSH_AGAIN && (r.eof || r.rc == SSH_EOF || r.rc == SSH_ERROR)
    case Resized(ok) => !ok
  }

  function Fatals(t: Trace): nat {
    match t case Silent => 0 case Then(past, e) => Fatals(past) + if Fatal(e) then 1 else 0
  }

  function LastRecv(t: Trace): RecvReply {
    match t case Silent => RecvWouldBlock case Then(past, e) => if e.Received? then e.recv else LastRecv(past)
  }

  function LastRead(t: Trace): ReadReply {
    match t case Silent => ReadCode(0, false) case Then(past, e) => if e.ReadOut? then e.read else LastRead(past)
  }

  /** A round in which the loop is left from within: `select` fails, the session
      is found disconnected, or the channel is found closed. */
  predicate Leaves(round: Round) {
    match round.select
    case Interrupted => false
    case SelectFailed => true
    case Ready => (round.tick && !round.connected) || !round.stillOpen
  }

  /** How many rounds left the loop. */
  function Leavings(t: Trace): nat {
    match t
    case Silent => 0
    case Then(past, e) => Leavings(past) + if e.Selected? && Leaves(e.round) then 1 else 0
  }

  /** The last round is one that leaves. */
  predicate LastLeaves(t: Trace) {
    match t case Silent => false case Then(past, e) => if e.Selected? then Leaves(e.round) else LastLeaves(past)
  }

  /** No select on the way from `s` to `t`. */
  ghost predicate SameRound(s: Trace, t: Trace) {
    Leavings(t) == Leavings(s) && (LastLeaves(t) <==> LastLeaves(s))
  }

  /** Neither a select nor a receive nor a read, and no fewer fatal replies. */
  ghost predicate OnlyWrites(s: Trace, t: Trace) {
    SameRound(s, t) && LastRecv(t) == LastRecv(s) && LastRead(t) == LastRead(s) && Fatals(s) <= Fatals(t)
  }

  // ------------------------------------------------- `connection_active`

  /** Going from `p` to `r`, the connection has stayed active exactly if no reply
      was fatal and no chunk was refused. */
  ghost predicate EndsIff(p: Pump, r: Pump) {
    && Fatals(p.w.trace) <= Fatals(r.w.trace)
    && (NothingLost(r) ==> NothingLost(p))
    && (r.active <==> p.active && Fatals(r.w.trace) == Fatals(p.w.trace) && NothingLost(r))
  }

  /** A lost chunk has ended the connection. */
  ghost predicate LossEnds(p: Pump) { p.active ==> NothingLost(p) }

  lemma AppendTrace(w: World, q: seq<byte>, chunk: seq<byte>)
    ensures var a := Append(w, q, chunk, MAX_BUFFER_CAP);
      OnlyWrites(w.trace, a.w.trace) && (a.ok ==> Fatals(a.w.trace) == Fatals(w.trace))
  {
  }

  lemma {:induction false} FlushUpTrace(w: World, q: seq<byte>, active: bool)
    ensures var r := FlushUp(w, q, active);
      && OnlyWrites(w.trace, r.w.trace)
      && (r.active <==> active && Fatals(r.w.trace) == Fatals(w.trace))
    decreases |q|
  {
    if w.runs > 0 && active && q != [] {
      var rc := Granted(w.script.channelWrites.Head(), |q|);
      var w2 := SeeWrite(SeeRunning(w), q);
      assert w2.trace == Then(w.trace, Wrote(rc));
      if rc > 0 { FlushUpTrace(w2, q[rc..], active); }
    }
  }

  lemma {:induction false} FlushDownTrace(w: World, q: seq<byte>, active: bool)
    ensures var r := FlushDown(w, q, active);
      && OnlyWrites(w.trace, r.w.trace)
      && (r.active <==> active && Fatals(r.w.trace) == Fatals(w.trace))
    decreases |q|
  {
    if w.runs > 0 && active && q != [] {
      var reply := Cut(w.script.sends.Head(), |q|);
      var w2 := SeeSend(SeeRunning(w), q);
      assert w2.trace == Then(w.trace, SentOut(reply));
      if reply.Sent? && reply.n > 0 { FlushDownTrace(w2, q[reply.n..], active); }
    }
  }

  /** `EndsIff` within one round. */
  ghost predicate Onward(p: Pump, r: Pump) { EndsIff(p, r) && SameRound(p.w.trace, r.w.trace) }

  lemma OnwardTransitive(p: Pump, q: Pump, r: Pump)
    requires Onward(p, q) && Onward(q, r)
    ensures Onward(p, r)
  {
  }

  lemma PushEndsIff(p: Pump)
    requires LossEnds(p)
    ensures Onward(p, PushUp(p)) && LossEnds(PushUp(p))
    ensures Onward(p, PushDown(p)) && LossEnds(PushDown(p))
  {
    FlushUpTrace(p.w, p.up, p.active);
    FlushDownTrace(p.w, p.down, p.active);
  }

  /** A visit to the receive loop keeps the connection exactly if no reply in it
      was fatal and no chunk refused.  It goes on until the client has nothing
      more or is gone, a chunk is refused, or more than 64 KiB is pending. */
  lemma {:induction false} ReceiveEndsIff(p: Pump)
    requires LossEnds(p)
    ensures var r := ReceiveAll(p);
      && Onward(p, r) && LossEnds(r)
      && (!LastRecv(r.w.trace).RecvData? || !NothingLost(r) || |r.up| > BACKPRESSURE)
    decreases p.w.runs, BACKPRESSURE + 1 - |p.up|
  {
    var w1 := SeeRecv(p.w);
    assert w1.trace == Then(p.w.trace, Received(p.w.script.recvs.Head()));
    match p.w.script.recvs.Head()
    case RecvClosed =>
    case RecvFailed =>
    case RecvWouldBlock =>
    case RecvData(chunk) =>
      AppendTrace(w1, p.up, chunk);
      var a := Append(w1, p.up, chunk, MAX_BUFFER_CAP);
      if a.ok {
        FlushUpTrace(a.w, a.q, p.active);
        var f := FlushUp(a.w, a.q, p.active);
        if |f.q| <= BACKPRESSURE {
          ReceiveEndsIff(p.(w := f.w, up := f.q, active := f.active));
        }
      }
  }

  /** The same for a visit to the channel read loop, which goes on until the
      channel has nothing more or has ended, unless the connection ends first or
      the flag is seen down. */
  lemma {:induction false} ReadEndsIff(p: Pump)
    requires LossEnds(p)
    ensures var r := ReadAll(p);
      && Onward(p, r) && LossEnds(r)
      && (EndsReading(LastRead(r.w.trace)) || !r.active || r.w.sawStop)
    decreases p.w.runs
  {
    if p.w.runs > 0 && p.active {
      var w2 := SeeRead(SeeRunning(p.w));
      assert w2.trace == Then(p.w.trace, ReadOut(p.w.script.channelReads.Head()));
      match p.w.script.channelReads.Head()
      case ReadData(chunk) =>
        AppendTrace(w2, p.down, chunk);
        var a := Append(w2, p.down, chunk, MAX_BUFFER_CAP);
        if a.ok {
          FlushDownTrace(a.w, a.q, p.active);
          var f := FlushDown(a.w, a.q, p.active);
          ReadEndsIff(p.(w := f.w, down := f.q, active := f.active));
        }
      case ReadCode(rc, eof) =>
        if !(rc == 0 || rc == SSH_AGAIN || rc == SSH_EOF || eof || rc == SSH_ERROR) {
          ReadEndsIff(p.(w := w2));
        }
    }
  }

  lemma StagesEndIff(p: Pump, round: Round)
    requires LossEnds(p)
    ensures Onward(p, PushDown(ReadAll(SessionStage(ClientStage(TickStage(p, round), round), round))))
  {
    hide ReceiveAll, ReadAll, PushUp, PushDown, Onward, LossEnds;
    OnwardReflexive(p);
    PushEndsIff(p);
    PushEndsIff(PushUp(p));
    OnwardTransitive(p, PushUp(p), PushDown(PushUp(p)));
    var p2 := TickStage(p, round);
    ReceiveEndsIff(p2);
    OnwardTransitive(p, p2, ReceiveAll(p2));
    var p3 := ClientStage(p2, round);
    PushEndsIff(p3);
    OnwardTransitive(p, p3, PushUp(p3));
    var p4 := SessionStage(p3, round);
    ReadEndsIff(p4);
    OnwardTransitive(p, p4, ReadAll(p4));
    PushEndsIff(ReadAll(p4));
    OnwardTransitive(p, ReadAll(p4), PushDown(ReadAll(p4)));
  }

  lemma OnwardReflexive(p: Pump)
    requires LossEnds(p)
    ensures Onward(p, p)
  {
  }

  lemma PassEndsIff(p: Pump)
    requires LossEnds(p)
    ensures var pass := OnePass(p); var t := pass.p.w.trace;
      && EndsIff(p, pass.p)
      && (LastLeaves(t) <==> pass.leave)
      && Leavings(t) == Leavings(p.w.trace) + if pass.leave then 1 else 0
  {
    hide ReceiveAll, ReadAll, PushUp, PushDown, TickStage, ClientStage, SessionStage;
    var round := p.w.script.rounds.Head();
    var p1 := p.(w := SeeSelect(p.w));
    assert p1.w.trace == Then(p.w.trace, Selected(round));
    StagesEndIff(p1, round);
  }

  /** Exactly what takes `connection_active` down, and exactly what ends the
      loop, from any state of it.  The connection has stayed active if and only
      if no reply was fatal and neither queue refused a chunk.  The loop ends at
      the first round that leaves it; without one it ends only once the
      connection is inactive or the flag has been seen down, and nothing else,
      an interrupted `select` included, ends it. */
  lemma {:induction false} LoopEndsIff(p: Pump)
    requires LossEnds(p)
    ensures var end := Forward(p); var n := Leavings(end.w.trace) - Leavings(p.w.trace);
      && EndsIff(p, end)
      && 0 <= n <= 1
      && (n == 1 ==> LastLeaves(end.w.trace))
      && (n == 0 ==> (!end.active || end.w.sawStop) && (LastLeaves(end.w.trace) ==> LastLeaves(p.w.trace)))
    decreases p.w.runs
  {
    if p.w.runs > 0 && p.active {
      hide OnePass;
      var p1 := p.(w := SeeRunning(p.w));
      PassEndsIff(p1);
      var pass := OnePass(p1);
      if !pass.leave { LoopEndsIff(pass.p); }
    }
  }

  /** The same for a whole connection, in absolute terms. */
  lemma ConnectionEndsIff(w: World)
    requires Untouched(w)
    ensures var end := Forward(Start(w)); var t := end.w.trace;
      && (end.active <==> Fatals(t) == 0 && NothingLost(end))
      && Leavings(t) == (if LastLeaves(t) then 1 else 0)
      && (LastLeaves(t) || !end.active || end.w.sawStop)
  {
    LoopEndsIff(Start(w));
  }

  // ------------------------------------------------------------ quiet rounds

  /** What a pass does not do: without a readable client it receives nothing;
      with no tick and no readable session either, it writes nothing to the
      channel; and if `select` did not succeed, or the tick finds the session
      gone, the select is all that happens. */
  lemma QuietRounds(p: Pump)
    ensures var round := p.w.script.rounds.Head(); var r := OnePass(p).p;
      && (!round.clientReady ==> r.w.log.recvCalls == p.w.log.recvCalls)
      && (!round.clientReady && !round.tick && !round.sessionReady ==> NoUpTraffic(p, r) && r.up == p.up)
      && (!round.select.Ready? || (round.tick && !round.connected) ==>
            r == p.(w := r.w) && r.w.log == p.w.log.(selects := p.w.log.selects + 1)
            && r.w.trace == Then(p.w.trace, Selected(round)))
  {
    hide ReceiveAll, ReadAll, PushUp, PushDown;
    var round := p.w.script.rounds.Head();
    var p1 := p.(w := SeeSelect(p.w));
    PushesShrink(p1);
    PushesShrink(PushUp(p1));
    var p3 := ClientStage(TickStage(p1, round), round);
    PushesShrink(p3);
    var p4 := SessionStage(p3, round);
    ReadAllLeavesUp(p4);
    PushesShrink(ReadAll(p4));
  }
}
