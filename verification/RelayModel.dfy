/** The forward loop of one connection as functions on values.

    The two queues are plain byte sequences here.  `ForwardBuffer` and
    `Connection` prove that the in-place code computes exactly these functions. */
module RelayModel {
  import opened Limits
  import opened Environment

  datatype Flushed = Flushed(w: World, q: seq<byte>, active: bool)
  datatype Appended = Appended(w: World, q: seq<byte>, ok: bool)

  /** Everything the loop holds for one connection.  `lostUp` and `lostDown` are
      the chunk that was received but refused by its queue. */
  datatype Pump = Pump(w: World, up: seq<byte>, down: seq<byte>, active: bool,
                       lostUp: seq<byte>, lostDown: seq<byte>)

  datatype Pass = Pass(p: Pump, leave: bool)

  /** What every step keeps: flag reads only go, a seen stop stays seen, and two
      counts only grow. */
  ghost predicate Later(w: World, w': World) {
    w'.runs <= w.runs && (w.sawStop ==> w'.sawStop)
    && w.log.failedAllocs <= w'.log.failedAllocs && w.log.selects <= w'.log.selects
  }

  function FlushUp(w: World, q: seq<byte>, active: bool): (r: Flushed)
    ensures Later(w, r.w) && (w.runs > 0 ==> r.w.runs < w.runs)
    ensures |r.q| <= |q| && (w.runs == 0 || !active ==> r.q == q)
    ensures active || !r.active
    decreases |q|
  {
    var w1 := SeeRunning(w);
    if w.runs == 0 || !active || q == [] then Flushed(w1, q, active)
    else
      var rc := Granted(w.script.channelWrites.Head(), |q|);
      var w2 := SeeWrite(w1, q);
      if rc == SSH_AGAIN then Flushed(w2, q, active)
      else if rc == SSH_ERROR || rc == SSH_EOF then Flushed(w2, q, false)
      else if rc > 0 then FlushUp(w2, q[rc..], active)
      else Flushed(w2, q, active)
  }

  function FlushDown(w: World, q: seq<byte>, active: bool): (r: Flushed)
    ensures Later(w, r.w) && (w.runs > 0 ==> r.w.runs < w.runs)
    ensures |r.q| <= |q| && (w.runs == 0 || !active ==> r.q == q)
    ensures active || !r.active
    decreases |q|
  {
    var w1 := SeeRunning(w);
    if w.runs == 0 || !active || q == [] then Flushed(w1, q, active)
    else
      var w2 := SeeSend(w1, q);
      match w.script.sends.Head()
      case SendWouldBlock => Flushed(w2, q, active)
      case SendFailed => Flushed(w2, q, false)
      case Sent(n) =>
        if n == 0 then Flushed(w2, q, false)
        else FlushDown(w2, q[Granted(n, |q|)..], active)
  }

  function Append(w: World, q: seq<byte>, chunk: seq<byte>, cap: nat): (r: Appended)
    ensures Later(w, r.w) && r.w.runs == w.runs
    ensures r.ok ==> r.q == q + chunk
    ensures !r.ok ==> r.q == q
  {
    if chunk == [] then Appended(w, q, true)
    else if |q| + |chunk| > cap then Appended(w, q, false)
    else if w.script.allocs.Head() then Appended(SeeAlloc(w), q + chunk, true)
    else Appended(SeeAlloc(w), q, false)
  }

  /** Flush the upward queue when it holds something. */
  function PushUp(p: Pump): (r: Pump)
    ensures Later(p.w, r.w)
  {
    if p.up == [] then p
    else var f := FlushUp(p.w, p.up, p.active); p.(w := f.w, up := f.q, active := f.active)
  }

  function PushDown(p: Pump): (r: Pump)
    ensures Later(p.w, r.w)
  {
    if p.down == [] then p
    else var f := FlushDown(p.w, p.down, p.active); p.(w := f.w, down := f.q, active := f.active)
  }

  /** The receive loop, which tests neither the running flag nor
      `connection_active`.  It ends all the same: a flush that finds the flag up
      uses up one read of it, and one that does not leaves the new bytes queued. */
  function ReceiveAll(p: Pump): (r: Pump)
    ensures Later(p.w, r.w)
    decreases p.w.runs, BACKPRESSURE + 1 - |p.up|
  {
    var w1 := SeeRecv(p.w);
    match p.w.script.recvs.Head()
    case RecvClosed => p.(w := w1, active := false)
    case RecvFailed => p.(w := w1, active := false)
    case RecvWouldBlock => p.(w := w1)
    case RecvData(chunk) =>
      var a := Append(w1, p.up, chunk, MAX_BUFFER_CAP);
      if !a.ok then p.(w := a.w, active := false, lostUp := chunk)
      else
        var f := FlushUp(a.w, a.q, p.active);
        var p' := p.(w := f.w, up := f.q, active := f.active);
        if |f.q| > BACKPRESSURE then p' else ReceiveAll(p')
  }

  /** The channel read loop. */
  function ReadAll(p: Pump): (r: Pump)
    ensures Later(p.w, r.w)
    decreases p.w.runs
  {
    var w1 := SeeRunning(p.w);
    if p.w.runs == 0 || !p.active then p.(w := w1)
    else
      var w2 := SeeRead(w1);
      match p.w.script.channelReads.Head()
      case ReadData(chunk) =>
        var a := Append(w2, p.down, chunk, MAX_BUFFER_CAP);
        if !a.ok then p.(w := a.w, active := false, lostDown := chunk)
        else
          var f := FlushDown(a.w, a.q, p.active);
          ReadAll(p.(w := f.w, down := f.q, active := f.active))
      case ReadCode(rc, eof) =>
        if rc == 0 || rc == SSH_AGAIN then p.(w := w2)
        else if rc == SSH_EOF || eof then p.(w := w2, active := false)
        else if rc == SSH_ERROR then p.(w := w2, active := false)
        else ReadAll(p.(w := w2))
  }

  /** The three guarded stages of a pass, in order: the flushes on a clock
      tick, receiving from the client, and flushing towards a readable session. */
  function TickStage(p: Pump, round: Round): (r: Pump)
    ensures Later(p.w, r.w)
  {
    if round.tick then PushDown(PushUp(p)) else p
  }

  function ClientStage(p: Pump, round: Round): (r: Pump)
    ensures Later(p.w, r.w)
  {
    if round.clientReady then ReceiveAll(p) else p
  }

  function SessionStage(p: Pump, round: Round): (r: Pump)
    ensures Later(p.w, r.w)
  {
    if round.sessionReady then PushUp(p) else p
  }

  /** One pass through the loop body; `leave` is a `break`. */
  function OnePass(p: Pump): (r: Pass)
    ensures Later(p.w, r.p.w)
  {
    var round := p.w.script.rounds.Head();
    var p1 := p.(w := SeeSelect(p.w));
    if round.select.Interrupted? then Pass(p1, false)
    else if round.select.SelectFailed? then Pass(p1, true)
    else if round.tick && !round.connected then Pass(p1, true)
    else
      var p4 := SessionStage(ClientStage(TickStage(p1, round), round), round);
      Pass(PushDown(ReadAll(p4)), !round.stillOpen)
  }

  function Forward(p: Pump): (r: Pump)
    ensures Later(p.w, r.w)
    decreases p.w.runs
  {
    var p1 := p.(w := SeeRunning(p.w));
    if p.w.runs == 0 || !p.active then p1
    else
      var pass := OnePass(p1);
      if pass.leave then pass.p else Forward(pass.p)
  }

  /** Both queues empty, the connection active. */
  function Start(w: World): Pump { Pump(w, [], [], true, [], []) }

  /** A connection on which nothing has happened yet. */
  ghost predicate Untouched(w: World) {
    w.log.fromClient == [] && w.log.toChannel == [] && w.log.fromChannel == [] && w.log.toClient == []
    && w.log.selects == 0 && w.log.failedAllocs == 0 && !w.sawStop && w.trace == Silent
  }
}
