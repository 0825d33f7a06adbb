/** The two peers of one forwarded connection, as the forward loop sees them.

    The client socket, the libssh channel, `select`, `realloc` and the shared
    flag `port_forward_running` are outside the loop's control.  A `World` is an
    oracle for all of them: one tape of replies per call site, plus a log of the
    bytes that crossed each of the four ends.  Quantifying over `World`
    quantifies over every environment. */
module Environment {
  import opened Limits

  newtype byte = x: int | 0 <= x < 0x100

  /** `size_t` of the 32-bit ABIs (armeabi-v7a, x86), the narrowest that is
      built.  Dafny checks that no operation on it leaves the range. */
  newtype SizeT = x: int | 0 <= x < 0x1_0000_0000

  const SSH_ERROR := -1
  const SSH_AGAIN := -2
  const SSH_EOF := -127

  /** What one successful receive can deliver into the scratch array. */
  type Chunk = c: seq<byte> | 0 < |c| <= SCRATCH_SIZE witness [0]
  type NonPositive = x: int | x <= 0

  datatype RecvReply = RecvData(chunk: Chunk) | RecvClosed | RecvWouldBlock | RecvFailed
  datatype SendReply = Sent(n: nat) | SendWouldBlock | SendFailed
  datatype ReadReply = ReadData(chunk: Chunk) | ReadCode(rc: NonPositive, eof: bool)
  datatype SelectReply = Ready | Interrupted | SelectFailed

  /** The choices made for one pass through the forward loop: what `select`
      returned, whether the clock second changed, whether the session was then
      still connected, which descriptors were readable, and whether the channel
      was still open at the end of the pass. */
  datatype Round = Round(select: SelectReply, tick: bool, connected: bool,
                         clientReady: bool, sessionReady: bool, stillOpen: bool)

  /** The replies of one call site: a finite script, then one reply for ever. */
  datatype Tape<T> = Tape(script: seq<T>, rest: T) {
    function Head(): T { if script == [] then rest else script[0] }
    function Tail(): Tape<T> { if script == [] then this else Tape(script[1..], rest) }
    ghost predicate All(p: T -> bool) { p(rest) && forall i :: 0 <= i < |script| ==> p(script[i]) }
  }

  /** The replies still to come, one tape per call site. */
  datatype Script = Script(
    rounds: Tape<Round>,
    recvs: Tape<RecvReply>,        // recv on the client socket
    channelWrites: Tape<int>,      // ssh_channel_write; a count is cut to what was offered
    sends: Tape<SendReply>,        // send on the client socket; a count is cut likewise
    channelReads: Tape<ReadReply>, // ssh_channel_read_nonblocking
    allocs: Tape<bool>)            // whether realloc succeeds

  /** The bytes that have crossed each end, and four counts. */
  datatype Log = Log(
    fromClient: seq<byte>,         // received from the client
    toChannel: seq<byte>,          // accepted by the channel
    fromChannel: seq<byte>,        // read from the channel
    toClient: seq<byte>,           // accepted by the client socket
    selects: nat,                  // passes through the loop body
    recvCalls: nat,
    readCalls: nat,
    failedAllocs: nat)

  /** One reply that the loop has been given.  A count is as it was cut. */
  datatype Event = Selected(round: Round) | Received(recv: RecvReply) | Wrote(rc: int)
                 | SentOut(send: SendReply) | ReadOut(read: ReadReply) | Resized(ok: bool)

  /** The replies so far, oldest first. */
  datatype Trace = Silent | Then(past: Trace, last: Event)

  /** `runs` is how many reads of port_forward_running still see 1, and
      `sawStop` whether some read has seen 0. */
  datatype World = World(runs: nat, sawStop: bool, script: Script, log: Log, trace: Trace)

  /** The flag may drop at any read, and stays down once it has dropped. */
  function SeeRunning(w: World): World {
    if w.runs > 0 then w.(runs := w.runs - 1) else w.(sawStop := true)
  }

  function SeeSelect(w: World): World {
    w.(script := w.script.(rounds := w.script.rounds.Tail()),
       log := w.log.(selects := w.log.selects + 1),
       trace := Then(w.trace, Selected(w.script.rounds.Head())))
  }

  function SeeRecv(w: World): World {
    var got := match w.script.recvs.Head() case RecvData(c) => c case _ => [];
    w.(script := w.script.(recvs := w.script.recvs.Tail()),
       log := w.log.(fromClient := w.log.fromClient + got, recvCalls := w.log.recvCalls + 1),
       trace := Then(w.trace, Received(w.script.recvs.Head())))
  }

  function SeeRead(w: World): World {
    var got := match w.script.channelReads.Head() case ReadData(c) => c case _ => [];
    w.(script := w.script.(channelReads := w.script.channelReads.Tail()),
       log := w.log.(fromChannel := w.log.fromChannel + got, readCalls := w.log.readCalls + 1),
       trace := Then(w.trace, ReadOut(w.script.channelReads.Head())))
  }

  /** A write never accepts more than it was offered. */
  function Granted(reply: int, offered: nat): int {
    if reply > offered then offered else reply
  }

  /** The prefix of `offer` that a write accepts. */
  function Taken(reply: int, offer: seq<byte>): seq<byte> {
    var n := Granted(reply, |offer|);
    if n > 0 then offer[..n] else []
  }

  function SeeWrite(w: World, offer: seq<byte>): World {
    w.(script := w.script.(channelWrites := w.script.channelWrites.Tail()),
       log := w.log.(toChannel := w.log.toChannel + Taken(w.script.channelWrites.Head(), offer)),
       trace := Then(w.trace, Wrote(Granted(w.script.channelWrites.Head(), |offer|))))
  }

  /** The reply to a send of `offered` bytes. */
  function Cut(reply: SendReply, offered: nat): SendReply {
    match reply case Sent(n) => Sent(Granted(n, offered)) case other => other
  }

  /** The prefix of `offer` that a send accepts. */
  function SentPart(reply: SendReply, offer: seq<byte>): seq<byte> {
    match reply case Sent(n) => Taken(n, offer) case _ => []
  }

  function SeeSend(w: World, offer: seq<byte>): World {
    w.(script := w.script.(sends := w.script.sends.Tail()),
       log := w.log.(toClient := w.log.toClient + SentPart(w.script.sends.Head(), offer)),
       trace := Then(w.trace, SentOut(Cut(w.script.sends.Head(), |offer|))))
  }

  function SeeAlloc(w: World): World {
    w.(script := w.script.(allocs := w.script.allocs.Tail()),
       log := w.log.(failedAllocs := w.log.failedAllocs + if w.script.allocs.Head() then 0 else 1),
       trace := Then(w.trace, Resized(w.script.allocs.Head())))
  }

  /** The calls the loop makes; each moves the oracle on. */
  class Peers {
    var w: World

    constructor (w: World)
      ensures this.w == w
    {
      this.w := w;
    }

    method ReadRunning() returns (running: bool)
      modifies this
      ensures w == SeeRunning(old(w)) && running == (old(w).runs > 0)
    {
      running := w.runs > 0;
      w := SeeRunning(w);
    }

    method Select() returns (round: Round)
      modifies this
      ensures w == SeeSelect(old(w)) && round == old(w).script.rounds.Head()
    {
      round := w.script.rounds.Head();
      w := SeeSelect(w);
    }

    /** Fills a prefix of `buffer`; the rest of it keeps what it held. */
    method Recv(buffer: array<byte>) returns (reply: RecvReply)
      requires buffer.Length == SCRATCH_SIZE
      modifies this, buffer
      ensures w == SeeRecv(old(w)) && reply == old(w).script.recvs.Head()
      ensures reply.RecvData? ==> buffer[..|reply.chunk|] == reply.chunk
      ensures buffer[..] == if reply.RecvData? then reply.chunk + old(buffer[..])[|reply.chunk|..] else old(buffer[..])
    {
      reply := w.script.recvs.Head();
      if reply.RecvData? {
        Deliver(reply.chunk, buffer);
      }
      w := SeeRecv(w);
    }

    method ChannelRead(buffer: array<byte>) returns (reply: ReadReply)
      requires buffer.Length == SCRATCH_SIZE
      modifies this, buffer
      ensures w == SeeRead(old(w)) && reply == old(w).script.channelReads.Head()
      ensures reply.ReadData? ==> buffer[..|reply.chunk|] == reply.chunk
      ensures buffer[..] == if reply.ReadData? then reply.chunk + old(buffer[..])[|reply.chunk|..] else old(buffer[..])
    {
      reply := w.script.channelReads.Head();
      if reply.ReadData? {
        Deliver(reply.chunk, buffer);
      }
      w := SeeRead(w);
    }

    method Deliver(chunk: Chunk, buffer: array<byte>)
      requires |chunk| <= buffer.Length
      modifies buffer
      ensures buffer[..] == chunk + old(buffer[..])[|chunk|..]
    {
      forall i | 0 <= i < |chunk| { buffer[i] := chunk[i]; }
    }

    method ChannelWrite(data: array<byte>, off: SizeT, n: SizeT) returns (rc: int)
      requires off as int + n as int <= data.Length
      modifies this
      ensures w == SeeWrite(old(w), data[off..off as int + n as int])
      ensures rc == Granted(old(w).script.channelWrites.Head(), n as int)
    {
      rc := Granted(w.script.channelWrites.Head(), n as int);
      w := SeeWrite(w, data[off..off as int + n as int]);
    }

    method Send(data: array<byte>, off: SizeT, n: SizeT) returns (reply: SendReply)
      requires off as int + n as int <= data.Length
      modifies this
      ensures w == SeeSend(old(w), data[off..off as int + n as int])
      ensures reply == Cut(old(w).script.sends.Head(), n as int)
    {
      reply := Cut(w.script.sends.Head(), n as int);
      w := SeeSend(w, data[off..off as int + n as int]);
    }

    method AllocSucceeds() returns (ok: bool)
      modifies this
      ensures w == SeeAlloc(old(w)) && ok == old(w).script.allocs.Head()
    {
      ok := w.script.allocs.Head();
      w := SeeAlloc(w);
    }
  }
}
