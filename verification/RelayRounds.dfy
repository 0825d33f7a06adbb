/** Every connection of the relay is a run of the transition system: what its
    rounds leave open covers all that the forward loop does. */
module RelayRounds {
  import opened Limits
  import opened Environment
  import opened RelayModel
  import opened ForwardProtocol
  import opened ForwardStop

  /** One step inside a round: what the flag is at it, and the choice made. */
  datatype Move = Move(running: bool, c: Choice)

  function Moved(w: Worker, ms: seq<Move>): Worker
    decreases |ms|
  {
    if ms == [] then w
    else Moved(if InRound(w.loc) then RoundAct(ms[0].running, w, ms[0].c) else w, ms[1..])
  }

  /** From `before` to `after` the flag only falls. */
  predicate Falls(before: bool, ms: seq<Move>, after: bool)
    decreases |ms|
  {
    if ms == [] then after ==> before
    else (ms[0].running ==> before) && Falls(ms[0].running, ms[1..], after)
  }

  ghost predicate Leads(w: Worker, before: bool, w': Worker, after: bool) {
    exists ms :: Moved(w, ms) == w' && Falls(before, ms, after)
  }

  lemma {:induction false} MovesAppend(w: Worker, before: bool, a: seq<Move>, middle: bool, b: seq<Move>, after: bool)
    requires Falls(before, a, middle) && Falls(middle, b, after)
    ensures Moved(w, a + b) == Moved(Moved(w, a), b) && Falls(before, a + b, after)
    decreases |a|
  {
    if a == [] {
      assert a + b == b;
      FallsFrom(before, middle, b, after);
    } else {
      assert (a + b)[0] == a[0] && (a + b)[1..] == a[1..] + b;
      var w1 := if InRound(w.loc) then RoundAct(a[0].running, w, a[0].c) else w;
      MovesAppend(w1, a[0].running, a[1..], middle, b, after);
    }
  }

  lemma FallsFrom(before: bool, middle: bool, ms: seq<Move>, after: bool)
    requires (middle ==> before) && Falls(middle, ms, after)
    ensures Falls(before, ms, after)
  {
  }

  lemma LeadsOn(w: Worker, x: bool, w1: Worker, y: bool, w2: Worker, z: bool)
    requires Leads(w, x, w1, y) && Leads(w1, y, w2, z)
    ensures Leads(w, x, w2, z)
  {
    var a :| Moved(w, a) == w1 && Falls(x, a, y);
    var b :| Moved(w1, b) == w2 && Falls(y, b, z);
    MovesAppend(w, x, a, y, b, z);
  }

  /** One step, and whatever the flag does before the next. */
  lemma LeadsOnce(w: Worker, x: bool, c: Choice, y: bool)
    requires InRound(w.loc) && (y ==> x)
    ensures Leads(w, x, RoundAct(x, w, c), y)
  {
    var ms := [Move(x, c)];
    assert ms[1..] == [] && Falls(x, [], y);
    assert Moved(w, ms) == RoundAct(x, w, c) && Falls(x, ms, y);
  }

  lemma LeadsNowhere(w: Worker, x: bool, y: bool)
    requires y ==> x
    ensures Leads(w, x, w, y)
  {
    assert Moved(w, []) == w;
  }

  /** The flag, as the next read will see it. */
  predicate Up(w: World) { w.runs > 0 }

  /** The worker is at `loc` and has the loop's queue length and flag. */
  predicate Mirrors(w: Worker, loc: Loc, q: seq<byte>, active: bool) {
    w.loc == loc && w.pending == |q| && w.active == active
  }

  // ------------------------------------------------------------- the flushes

  /** The test of a flush. */
  lemma FlushTestMirrored(v: Worker, site: Site, w: World, up: seq<byte>, active: bool, some: bool) returns (v': Worker)
    requires Mirrors(v, FlushTest(site), up, active) && (Upward(site) ==> some == (up != []))
    ensures Leads(v, Up(w), v', Up(SeeRunning(w)))
    ensures Mirrors(v', if Up(w) && active && some then FlushWrite(site) else AfterFlush(site), up, active)
  {
    v' := RoundAct(Up(w), v, Choice(some, 0));
    LeadsOnce(v, Up(w), Choice(some, 0), Up(SeeRunning(w)));
  }

  lemma WriteMirrored(v: Worker, site: Site, running: bool, q: seq<byte>, rc: int) returns (v': Worker)
    requires Mirrors(v, FlushWrite(site), q, true) && Upward(site) && rc <= |q|
    ensures Leads(v, running, v', running)
    ensures if rc > 0 then Mirrors(v', FlushTest(site), q[rc..], true)
            else Mirrors(v', AfterFlush(site), q, rc != SSH_ERROR && rc != SSH_EOF)
  {
    var c := Choice(true, if rc == SSH_ERROR || rc == SSH_EOF then 1 else if rc > 0 then rc + 1 else 0);
    v' := RoundAct(running, v, c);
    LeadsOnce(v, running, c, running);
  }

  lemma SendMirrored(v: Worker, site: Site, running: bool, up: seq<byte>, reply: SendReply) returns (v': Worker)
    requires Mirrors(v, FlushWrite(site), up, true) && !Upward(site)
    ensures Leads(v, running, v', running)
    ensures if reply.Sent? && reply.n > 0 then Mirrors(v', FlushTest(site), up, true)
            else Mirrors(v', AfterFlush(site), up, reply.SendWouldBlock?)
  {
    var c := Choice(true, if reply.SendWouldBlock? then 0 else if reply.Sent? && reply.n > 0 then 2 else 1);
    v' := RoundAct(running, v, c);
    LeadsOnce(v, running, c, running);
  }

  lemma {:induction false} FlushUpMirrored(v: Worker, site: Site, w: World, q: seq<byte>, active: bool)
      returns (v': Worker)
    requires Mirrors(v, FlushTest(site), q, active) && Upward(site)
    ensures var f := FlushUp(w, q, active);
      Mirrors(v', AfterFlush(site), f.q, f.active) && Leads(v, Up(w), v', Up(f.w))
    decreases |q|
  {
    hide Leads, Mirrors, Upward;
    var w1 := SeeRunning(w);
    v' := FlushTestMirrored(v, site, w, q, active, q != []);
    if w.runs > 0 && active && q != [] {
      var rc := Granted(w.script.channelWrites.Head(), |q|);
      var w2 := SeeWrite(w1, q);
      var v1 := v';
      v' := WriteMirrored(v1, site, Up(w1), q, rc);
      LeadsOn(v, Up(w), v1, Up(w1), v', Up(w2));
      if rc > 0 {
        var v2 := v';
        v' := FlushUpMirrored(v2, site, w2, q[rc..], active);
        LeadsOn(v, Up(w), v2, Up(w2), v', Up(FlushUp(w2, q[rc..], active).w));
      }
    }
  }

  lemma {:induction false} FlushDownMirrored(v: Worker, site: Site, w: World, q: seq<byte>, active: bool, up: seq<byte>)
      returns (v': Worker)
    requires Mirrors(v, FlushTest(site), up, active) && !Upward(site)
    ensures var f := FlushDown(w, q, active);
      Mirrors(v', AfterFlush(site), up, f.active) && Leads(v, Up(w), v', Up(f.w))
    decreases |q|
  {
    hide Leads, Mirrors, Upward;
    var w1 := SeeRunning(w);
    v' := FlushTestMirrored(v, site, w, up, active, q != []);
    if w.runs > 0 && active && q != [] {
      var reply := Cut(w.script.sends.Head(), |q|);
      var w2 := SeeSend(w1, q);
      var v1 := v';
      v' := SendMirrored(v1, site, Up(w1), up, reply);
      LeadsOn(v, Up(w), v1, Up(w1), v', Up(w2));
      if reply.Sent? && reply.n > 0 {
        var v2 := v';
        v' := FlushDownMirrored(v2, site, w2, q[reply.n..], active, up);
        LeadsOn(v, Up(w), v2, Up(w2), v', Up(FlushDown(w2, q[reply.n..], active).w));
      }
    }
  }

  // --------------------------------------------------------------- receiving

  /** A chunk that has been queued is flushed, and the loop looks at the rest. */
  lemma QueuedMirrored(v: Worker, w: World, q: seq<byte>, active: bool) returns (v': Worker)
    requires Mirrors(v, FlushTest(AfterRecv), q, active)
    ensures var f := FlushUp(w, q, active);
      && Mirrors(v', if |f.q| > BACKPRESSURE then ServingSession else Receiving, f.q, f.active)
      && Leads(v, Up(w), v', Up(f.w))
  {
    hide FlushUp, Leads;
    var f := FlushUp(w, q, active);
    var v1 := FlushUpMirrored(v, AfterRecv, w, q, active);
    var c := Choice(true, 0);
    v' := RoundAct(Up(f.w), v1, c);
    LeadsOnce(v1, Up(f.w), c, Up(f.w));
    LeadsOn(v, Up(w), v1, Up(f.w), v', Up(f.w));
  }

  lemma RecvMirrored(v: Worker, p: Pump) returns (v': Worker)
    requires Mirrors(v, Receiving, p.up, p.active)
    ensures Leads(v, Up(p.w), v', Up(p.w))
    ensures match p.w.script.recvs.Head()
      case RecvClosed => Mirrors(v', ServingSession, p.up, false)
      case RecvFailed => Mirrors(v', ServingSession, p.up, false)
      case RecvWouldBlock => Mirrors(v', ServingSession, p.up, p.active)
      case RecvData(chunk) =>
        var a := Append(SeeRecv(p.w), p.up, chunk, MAX_BUFFER_CAP);
        if a.ok then Mirrors(v', FlushTest(AfterRecv), a.q, p.active) else Mirrors(v', ServingSession, p.up, false)
  {
    var c := match p.w.script.recvs.Head()
      case RecvClosed => Choice(true, 1)
      case RecvFailed => Choice(true, 1)
      case RecvWouldBlock => Choice(true, 0)
      case RecvData(chunk) => Choice(Append(SeeRecv(p.w), p.up, chunk, MAX_BUFFER_CAP).ok, |chunk| + 1);
    v' := RoundAct(Up(p.w), v, c);
    LeadsOnce(v, Up(p.w), c, Up(p.w));
  }

  lemma {:induction false} ReceiveMirrored(v: Worker, p: Pump) returns (v': Worker)
    requires Mirrors(v, Receiving, p.up, p.active)
    ensures var r := ReceiveAll(p);
      Mirrors(v', ServingSession, r.up, r.active) && Leads(v, Up(p.w), v', Up(r.w))
    decreases p.w.runs, BACKPRESSURE + 1 - |p.up|
  {
    hide Leads;
    v' := RecvMirrored(v, p);
    if p.w.script.recvs.Head().RecvData? {
      var chunk := p.w.script.recvs.Head().chunk;
      var a := Append(SeeRecv(p.w), p.up, chunk, MAX_BUFFER_CAP);
      if a.ok {
        var v1, f := v', FlushUp(a.w, a.q, p.active);
        v' := QueuedMirrored(v1, a.w, a.q, p.active);
        LeadsOn(v, Up(p.w), v1, Up(a.w), v', Up(f.w));
        if |f.q| <= BACKPRESSURE {
          var v2, p' := v', p.(w := f.w, up := f.q, active := f.active);
          v' := ReceiveMirrored(v2, p');
          LeadsOn(v, Up(p.w), v2, Up(f.w), v', Up(ReceiveAll(p').w));
        }
      }
    }
  }

  // ----------------------------------------------------------------- reading

  /** The test of the channel read loop. */
  lemma ReadTestMirrored(v: Worker, p: Pump) returns (v': Worker)
    requires Mirrors(v, TestingRead, p.up, p.active)
    ensures Leads(v, Up(p.w), v', Up(SeeRunning(p.w)))
    ensures Mirrors(v', if Up(p.w) && p.active then Loc.Reading else FinalFlush, p.up, p.active)
  {
    v' := RoundAct(Up(p.w), v, Choice(true, 0));
    LeadsOnce(v, Up(p.w), Choice(true, 0), Up(SeeRunning(p.w)));
  }

  /** The read itself. */
  lemma ReplyMirrored(v: Worker, running: bool, p: Pump, w: World) returns (v': Worker)
    requires Mirrors(v, Loc.Reading, p.up, true)
    ensures Leads(v, running, v', running)
    ensures match p.w.script.channelReads.Head()
      case ReadData(chunk) =>
        if Append(w, p.down, chunk, MAX_BUFFER_CAP).ok then Mirrors(v', FlushTest(AfterRead), p.up, true)
        else Mirrors(v', FinalFlush, p.up, false)
      case ReadCode(rc, eof) =>
        if rc == 0 || rc == SSH_AGAIN then Mirrors(v', FinalFlush, p.up, true)
        else if rc == SSH_EOF || eof || rc == SSH_ERROR then Mirrors(v', FinalFlush, p.up, false)
        else Mirrors(v', TestingRead, p.up, true)
  {
    var c := match p.w.script.channelReads.Head()
      case ReadData(chunk) => Choice(Append(w, p.down, chunk, MAX_BUFFER_CAP).ok, 3)
      case ReadCode(rc, eof) =>
        var more := rc != SSH_EOF && !eof && rc != SSH_ERROR;
        Choice(true, if rc == 0 || rc == SSH_AGAIN then 0 else if more then 2 else 1);
    v' := RoundAct(running, v, c);
    LeadsOnce(v, running, c, running);
  }

  lemma {:induction false} ReadMirrored(v: Worker, p: Pump) returns (v': Worker)
    requires Mirrors(v, TestingRead, p.up, p.active)
    ensures var r := ReadAll(p);
      Mirrors(v', FinalFlush, r.up, r.active) && Leads(v, Up(p.w), v', Up(r.w))
    decreases p.w.runs
  {
    hide Leads, Mirrors;
    v' := ReadTestMirrored(v, p);
    if p.w.runs > 0 && p.active {
      var w2 := SeeRead(SeeRunning(p.w));
      var v1 := v';
      var v2 := ReplyMirrored(v1, Up(w2), p, w2);
      LeadsOn(v, Up(p.w), v1, Up(w2), v2, Up(w2));
      v' := v2;
      match p.w.script.channelReads.Head()
      case ReadData(chunk) =>
        var a := Append(w2, p.down, chunk, MAX_BUFFER_CAP);
        if a.ok {
          var f := FlushDown(a.w, a.q, p.active);
          var v3 := FlushDownMirrored(v2, AfterRead, a.w, a.q, p.active, p.up);
          LeadsOn(v, Up(p.w), v2, Up(a.w), v3, Up(f.w));
          var p' := p.(w := f.w, down := f.q, active := f.active);
          v' := ReadMirrored(v3, p');
          LeadsOn(v, Up(p.w), v3, Up(f.w), v', Up(ReadAll(p').w));
        }
      case ReadCode(rc, eof) =>
        if !(rc == 0 || rc == SSH_AGAIN || rc == SSH_EOF || eof || rc == SSH_ERROR) {
          v' := ReadMirrored(v2, p.(w := w2));
          LeadsOn(v, Up(p.w), v2, Up(w2), v', Up(ReadAll(p.(w := w2)).w));
        }
    }
  }

  // -------------------------------------------------------------- whole passes

  lemma PushUpMirrored(v: Worker, p: Pump, loc: Loc, site: Site, c: Choice) returns (v': Worker)
    requires Mirrors(v, loc, p.up, p.active) && Upward(site) && InRound(loc)
    requires RoundAct(Up(p.w), v, c) == v.(loc := if p.up != [] then FlushTest(site) else AfterFlush(site))
    ensures var r := PushUp(p); Mirrors(v', AfterFlush(site), r.up, r.active) && Leads(v, Up(p.w), v', Up(r.w))
  {
    hide Leads;
    v' := RoundAct(Up(p.w), v, c);
    LeadsOnce(v, Up(p.w), c, Up(p.w));
    if p.up != [] {
      var v1 := v';
      v' := FlushUpMirrored(v1, site, p.w, p.up, p.active);
      LeadsOn(v, Up(p.w), v1, Up(p.w), v', Up(PushUp(p).w));
    }
  }

  lemma PushDownMirrored(v: Worker, p: Pump, loc: Loc, site: Site) returns (v': Worker)
    requires Mirrors(v, loc, p.up, p.active) && !Upward(site) && InRound(loc)
    requires RoundAct(Up(p.w), v, Choice(p.down != [], 0))
             == v.(loc := if p.down != [] then FlushTest(site) else AfterFlush(site))
    ensures var r := PushDown(p); Mirrors(v', AfterFlush(site), r.up, r.active) && Leads(v, Up(p.w), v', Up(r.w))
  {
    hide Leads;
    var c := Choice(p.down != [], 0);
    v' := RoundAct(Up(p.w), v, c);
    LeadsOnce(v, Up(p.w), c, Up(p.w));
    if p.down != [] {
      var v1 := v';
      v' := FlushDownMirrored(v1, site, p.w, p.down, p.active, p.up);
      LeadsOn(v, Up(p.w), v1, Up(p.w), v', Up(PushDown(p).w));
    }
  }

  lemma TickMirrored(v: Worker, p: Pump, round: Round) returns (v': Worker)
    requires Mirrors(v, Ticking, p.up, p.active) && (round.tick ==> round.connected)
    ensures var r := TickStage(p, round);
      Mirrors(v', ServingClient, r.up, r.active) && Leads(v, Up(p.w), v', Up(r.w))
  {
    hide Leads, PushUp, PushDown;
    var c := Choice(true, if round.tick then 2 else 0);
    v' := RoundAct(Up(p.w), v, c);
    LeadsOnce(v, Up(p.w), c, Up(p.w));
    if round.tick {
      var v1, q := v', PushUp(p);
      var v2 := PushUpMirrored(v1, p, TickingUp, TickUp, c);
      LeadsOn(v, Up(p.w), v1, Up(p.w), v2, Up(q.w));
      v' := PushDownMirrored(v2, q, TickingDown, TickDown);
      LeadsOn(v, Up(p.w), v2, Up(q.w), v', Up(PushDown(q).w));
    }
  }

  lemma ClientMirrored(v: Worker, p: Pump, round: Round) returns (v': Worker)
    requires Mirrors(v, ServingClient, p.up, p.active)
    ensures var r := ClientStage(p, round);
      Mirrors(v', ServingSession, r.up, r.active) && Leads(v, Up(p.w), v', Up(r.w))
  {
    hide Leads, ReceiveAll;
    var c := Choice(round.clientReady, 0);
    v' := RoundAct(Up(p.w), v, c);
    LeadsOnce(v, Up(p.w), c, Up(p.w));
    if round.clientReady {
      var v1 := v';
      v' := ReceiveMirrored(v1, p);
      LeadsOn(v, Up(p.w), v1, Up(p.w), v', Up(ReceiveAll(p).w));
    }
  }

  lemma SessionMirrored(v: Worker, p: Pump, round: Round) returns (v': Worker)
    requires Mirrors(v, ServingSession, p.up, p.active)
    ensures var r := SessionStage(p, round);
      Mirrors(v', TestingRead, r.up, r.active) && Leads(v, Up(p.w), v', Up(r.w))
  {
    hide Leads, PushUp;
    if round.sessionReady {
      v' := PushUpMirrored(v, p, ServingSession, OnSession, Choice(true, 0));
    } else {
      v' := RoundAct(Up(p.w), v, Choice(false, 0));
      LeadsOnce(v, Up(p.w), Choice(false, 0), Up(p.w));
    }
  }

  lemma LastMirrored(v: Worker, p: Pump, stillOpen: bool) returns (v': Worker)
    requires Mirrors(v, TestingRead, p.up, p.active)
    ensures var r := PushDown(ReadAll(p));
      && Mirrors(v', if stillOpen then TestingForward else ClosingChannel, r.up, r.active)
      && Leads(v, Up(p.w), v', Up(r.w))
  {
    hide Leads, PushDown, ReadAll;
    var q, r := ReadAll(p), PushDown(ReadAll(p));
    var v1 := ReadMirrored(v, p);
    var v2 := PushDownMirrored(v1, q, FinalFlush, Last);
    LeadsOn(v, Up(p.w), v1, Up(q.w), v2, Up(r.w));
    v' := RoundAct(Up(r.w), v2, Choice(stillOpen, 0));
    LeadsOnce(v2, Up(r.w), Choice(stillOpen, 0), Up(r.w));
    LeadsOn(v, Up(p.w), v2, Up(r.w), v', Up(r.w));
  }

  lemma StagesMirrored(v: Worker, p: Pump, round: Round) returns (v': Worker)
    requires Mirrors(v, Ticking, p.up, p.active) && (round.tick ==> round.connected)
    ensures var r := PushDown(ReadAll(SessionStage(ClientStage(TickStage(p, round), round), round)));
      && Mirrors(v', if round.stillOpen then TestingForward else ClosingChannel, r.up, r.active)
      && Leads(v, Up(p.w), v', Up(r.w))
  {
    hide Leads, Mirrors, TickStage, ClientStage, SessionStage, PushDown, ReadAll;
    var p2 := TickStage(p, round);
    var v2 := TickMirrored(v, p, round);
    var p3 := ClientStage(p2, round);
    var v3 := ClientMirrored(v2, p2, round);
    LeadsOn(v, Up(p.w), v2, Up(p2.w), v3, Up(p3.w));
    var p4 := SessionStage(p3, round);
    var v4 := SessionMirrored(v3, p3, round);
    LeadsOn(v, Up(p.w), v3, Up(p3.w), v4, Up(p4.w));
    v' := LastMirrored(v4, p4, round.stillOpen);
    LeadsOn(v, Up(p.w), v4, Up(p4.w), v', Up(PushDown(ReadAll(p4)).w));
  }

  lemma ReadyMirrored(v: Worker, p: Pump, round: Round) returns (v': Worker)
    requires Mirrors(v, Ticking, p.up, p.active)
    ensures var gone := round.tick && !round.connected;
      var r := if gone then p else PushDown(ReadAll(SessionStage(ClientStage(TickStage(p, round), round), round)));
      && Mirrors(v', if gone || !round.stillOpen then ClosingChannel else TestingForward, r.up, r.active)
      && Leads(v, Up(p.w), v', Up(r.w))
  {
    hide Leads, TickStage, ClientStage, SessionStage, PushDown, ReadAll;
    if round.tick && !round.connected {
      v' := RoundAct(Up(p.w), v, Choice(true, 1));
      LeadsOnce(v, Up(p.w), Choice(true, 1), Up(p.w));
    } else {
      v' := StagesMirrored(v, p, round);
    }
  }

  lemma SelectMirrored(v: Worker, p: Pump, select: SelectReply) returns (v': Worker)
    requires Mirrors(v, Selecting, p.up, p.active)
    ensures Leads(v, Up(p.w), v', Up(p.w))
    ensures Mirrors(v', match select case Interrupted => TestingForward case SelectFailed => ClosingChannel
                        case Ready => Ticking, p.up, p.active)
  {
    var c := Choice(true, match select case Interrupted => 0 case SelectFailed => 1 case Ready => 2);
    v' := RoundAct(Up(p.w), v, c);
    LeadsOnce(v, Up(p.w), c, Up(p.w));
  }

  /** Whatever a pass of the relay does, a round of the transition system can do,
      with the flag read as often and falling at the same read, the same queue
      length and the same `connection_active` at the end, and the same exit. */
  lemma PassMirrored(v: Worker, p: Pump) returns (v': Worker)
    requires Mirrors(v, Selecting, p.up, p.active)
    ensures var pass := OnePass(p);
      && Mirrors(v', if pass.leave then ClosingChannel else TestingForward, pass.p.up, pass.p.active)
      && Leads(v, Up(p.w), v', Up(pass.p.w))
  {
    hide Leads, Mirrors, TickStage, ClientStage, SessionStage, PushDown, ReadAll;
    var round := p.w.script.rounds.Head();
    var p1 := p.(w := SeeSelect(p.w));
    v' := SelectMirrored(v, p, round.select);
    if round.select.Ready? {
      var v1 := v';
      v' := ReadyMirrored(v1, p1, round);
      LeadsOn(v, Up(p.w), v1, Up(p1.w), v', Up(OnePass(p).p.w));
    }
  }

  // --------------------------------------------------------- in the system

  /** Worker `i` of `s` mirrors the loop; the flag is as the loop sees it, and
      the controller is about to clear it or has just done so. */
  ghost predicate InLoop(s: System, i: nat, loc: Loc, p: Pump) {
    && i < |s.workers| && Mirrors(s.workers[i], loc, p.up, p.active)
    && s.h.running == Up(p.w) && s.ctl.loc == if Up(p.w) then StopClear else StopState
  }

  /** `s` with worker `i` replaced, after the clear if the flag is down. */
  function Placed(s: System, i: nat, w: Worker, running: bool): System
    requires i < |s.workers|
  {
    var s1 := s.(workers := s.workers[i := w], h := s.h.(running := running));
    At(s1, if running then StopClear else StopState)
  }

  lemma ClearPlaces(s: System, i: nat, c: Choice)
    requires i < |s.workers| && s.ctl.loc.StopClear? && s.h.running
    ensures Next(s, ControllerStep(c)) == Placed(s, i, s.workers[i], false)
  {
  }

  lemma RoundPlaces(s: System, i: nat, c: Choice)
    requires i < |s.workers| && InRound(s.workers[i].loc)
    requires s.ctl.loc == if s.h.running then StopClear else StopState
    ensures Next(s, WorkerStep(i, c)) == Placed(s, i, RoundAct(s.h.running, s.workers[i], c), s.h.running)
  {
  }

  /** The flag falls, or nothing happens. */
  lemma FallIsARun(s: System, i: nat, after: bool) returns (steps: seq<Step>)
    requires i < |s.workers| && s.ctl.loc == (if s.h.running then StopClear else StopState)
    requires after ==> s.h.running
    ensures Exec(s, steps) == Placed(s, i, s.workers[i], after)
  {
    var go := ControllerStep(Choice(true, 0));
    if s.h.running && !after {
      steps := [go];
      assert steps[1..] == [];
      ClearPlaces(s, i, go.c);
      assert Exec(s, steps) == Next(s, go);
    } else {
      steps := [];
      assert s.workers[i := s.workers[i]] == s.workers;
    }
  }

  lemma PlacedTwice(s: System, i: nat, w: Worker, running: bool, w': Worker, after: bool)
    requires i < |s.workers| && (after ==> running)
    ensures var s1 := Placed(s, i, w, running);
      Placed(s1, i, w', after) == Placed(s, i, w', after)
  {
    assert s.workers[i := w][i := w'] == s.workers[i := w'];
  }

  /** One move, the fall of the flag before it included. */
  lemma MoveIsARun(s: System, i: nat, m: Move) returns (steps: seq<Step>)
    requires i < |s.workers| && s.ctl.loc == (if s.h.running then StopClear else StopState)
    requires m.running ==> s.h.running
    ensures Exec(s, steps) == Placed(s, i, Moved(s.workers[i], [m]), m.running)
  {
    hide Next, RoundAct, InRound, InStop, InDisconnect;
    var w := s.workers[i];
    steps := FallIsARun(s, i, m.running);
    assert [m][1..] == [];
    assert Moved(w, [m]) == if InRound(w.loc) then RoundAct(m.running, w, m.c) else w;
    if InRound(w.loc) {
      var s1, go := Exec(s, steps), WorkerStep(i, m.c);
      ExecThen(s, steps, go);
      RoundPlaces(s1, i, m.c);
      steps := steps + [go];
      PlacedTwice(s, i, w, m.running, RoundAct(m.running, w, m.c), m.running);
    }
  }

  lemma {:induction false} MovesAreARun(s: System, i: nat, ms: seq<Move>, after: bool) returns (steps: seq<Step>)
    requires i < |s.workers| && s.ctl.loc == (if s.h.running then StopClear else StopState)
    requires Falls(s.h.running, ms, after)
    ensures Exec(s, steps) == Placed(s, i, Moved(s.workers[i], ms), after)
    decreases |ms|
  {
    if ms == [] {
      steps := FallIsARun(s, i, after);
    } else {
      hide Exec, RoundAct, InRound;
      var a := MoveIsARun(s, i, ms[0]);
      var w1 := Moved(s.workers[i], [ms[0]]);
      assert [ms[0]][1..] == [] && Moved(w1, ms[1..]) == Moved(s.workers[i], ms);
      var b := MovesAreARun(Exec(s, a), i, ms[1..], after);
      FallsTo(ms[0].running, ms[1..], after);
      PlacedTwice(s, i, w1, ms[0].running, Moved(s.workers[i], ms), after);
      ExecAppend(s, a, b);
      steps := a + b;
    }
  }

  lemma {:induction false} FallsTo(before: bool, ms: seq<Move>, after: bool)
    requires Falls(before, ms, after)
    ensures after ==> before
    decreases |ms|
  {
    if ms != [] { FallsTo(ms[0].running, ms[1..], after); }
  }

  lemma TestedForward(s: System, i: nat, p: Pump, c: Choice)
    requires InLoop(s, i, TestingForward, p)
    ensures InLoop(Next(s, WorkerStep(i, c)), i, if Up(p.w) && p.active then ReadingState else ClosingChannel, p)
  {
  }

  lemma StateRead(s: System, i: nat, p: Pump, c: Choice)
    requires InLoop(s, i, ReadingState, p)
    ensures var s' := Next(s, WorkerStep(i, c)); InLoop(s', i, Selecting, p) || InLoop(s', i, WritingState, p)
  {
  }

  lemma StateWritten(s: System, i: nat, p: Pump, c: Choice)
    requires InLoop(s, i, WritingState, p)
    ensures InLoop(Next(s, WorkerStep(i, c)), i, Selecting, p)
  {
  }

  /** Into a round: past the test of line 580, and the state if it is not yet
      FORWARD_LOOP. */
  lemma IntoRound(s: System, i: nat, p: Pump) returns (steps: seq<Step>)
    requires InLoop(s, i, TestingForward, p) && Up(p.w) && p.active
    ensures InLoop(Exec(s, steps), i, Selecting, p)
  {
    var go := WorkerStep(i, Choice(true, 0));
    assert Exec(s, []) == s;
    hide Exec, Next, InLoop;
    TestedForward(s, i, p, go.c);
    ExecThen(s, [], go);
    steps := [] + [go];
    StateRead(Exec(s, steps), i, p, go.c);
    ExecThen(s, steps, go);
    steps := steps + [go];
    if !InLoop(Exec(s, steps), i, Selecting, p) {
      StateWritten(Exec(s, steps), i, p, go.c);
      ExecThen(s, steps, go);
      steps := steps + [go];
    }
  }

  lemma FallMirrored(s: System, i: nat, loc: Loc, p: Pump, w: World) returns (steps: seq<Step>)
    requires InLoop(s, i, loc, p) && (Up(w) ==> Up(p.w))
    ensures InLoop(Exec(s, steps), i, loc, p.(w := w))
  {
    steps := FallIsARun(s, i, Up(w));
  }

  lemma PassIsARun(s: System, i: nat, p: Pump) returns (steps: seq<Step>)
    requires InLoop(s, i, Selecting, p)
    ensures var pass := OnePass(p);
      InLoop(Exec(s, steps), i, if pass.leave then ClosingChannel else TestingForward, pass.p)
  {
    hide OnePass;
    var w := s.workers[i];
    var w' := PassMirrored(w, p);
    var after := Up(OnePass(p).p.w);
    var ms :| Moved(w, ms) == w' && Falls(Up(p.w), ms, after);
    steps := MovesAreARun(s, i, ms, after);
  }

  /** The transition system can do whatever the relay does.  For every connection
      of the relay, from the test of the forward loop on, there is a run of
      worker and controller that ends with the worker about to close the channel
      when the loop ends, with as many bytes queued, `connection_active` the
      same, and the flag cleared if the loop found it down. */
  lemma {:induction false} ForwardIsARun(s: System, i: nat, p: Pump) returns (steps: seq<Step>)
    requires InLoop(s, i, TestingForward, p)
    ensures InLoop(Exec(s, steps), i, ClosingChannel, Forward(p))
    decreases p.w.runs
  {
    var p1 := p.(w := SeeRunning(p.w));
    if p.w.runs == 0 || !p.active {
      var go := WorkerStep(i, Choice(true, 0));
      assert Exec(s, []) == s;
      ExecThen(s, [], go);
      TestedForward(s, i, p, go.c);
      var fall := FallMirrored(Exec(s, [] + [go]), i, ClosingChannel, p, p1.w);
      ExecAppend(s, [] + [go], fall);
      steps := [] + [go] + fall;
    } else {
      hide OnePass, InLoop, Exec, Next;
      var a := IntoRound(s, i, p);
      var b := FallMirrored(Exec(s, a), i, Selecting, p, p1.w);
      ExecAppend(s, a, b);
      var c := PassIsARun(Exec(s, a + b), i, p1);
      ExecAppend(s, a + b, c);
      steps := a + b + c;
      var pass := OnePass(p1);
      if !pass.leave {
        var rest := ForwardIsARun(Exec(s, steps), i, pass.p);
        ExecAppend(s, steps, rest);
        steps := steps + rest;
      }
    }
  }
}
