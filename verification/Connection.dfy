/** The forward loop of one accepted connection, in place: two buffers, one
    scratch array shared by both directions, and the `connection_active` flag. */
module Connections {
  import opened Limits
  import opened Environment
  import opened RelayModel
  import opened ForwardBuffers
  import RelayAccounting

  class Connection {
    const peers: Peers
    const toSsh: ForwardBuffer
    const toClient: ForwardBuffer
    const scratch: array<byte>
    var active: bool
    ghost var lostUp: seq<byte>
    ghost var lostDown: seq<byte>

    /** The buffers do not share a block with each other or with `scratch`. */
    ghost predicate Valid()
      reads this, toSsh, toClient
    {
      && toSsh != toClient && scratch.Length == SCRATCH_SIZE
      && toSsh.Valid() && toClient.Valid()
      && toSsh.data != scratch && toClient.data != scratch
      && (toSsh.data == null || toSsh.data != toClient.data)
    }

    ghost function View(): Pump
      reads this, peers, toSsh, toClient, toSsh.data, toClient.data
      requires Valid()
    {
      Pump(peers.w, toSsh.Pending(), toClient.Pending(), active, lostUp, lostDown)
    }

    /** The blocks are still the ones before, or new ones. */
    twostate predicate BlocksOwned()
      reads toSsh, toClient
    {
      && (toSsh.data == old(toSsh.data) || fresh(toSsh.data))
      && (toClient.data == old(toClient.data) || fresh(toClient.data))
    }

    constructor (peers: Peers)
      ensures Valid() && this.peers == peers && View() == Start(peers.w)
      ensures fresh(toSsh) && fresh(toClient) && fresh(scratch)
      ensures toSsh.data == null && toClient.data == null
    {
      this.peers := peers;
      var a := new ForwardBuffer();
      var b := new ForwardBuffer();
      toSsh, toClient := a, b;
      scratch := new byte[SCRATCH_SIZE](_ => 0);
      active := true;
      lostUp, lostDown := [], [];
    }

    /** Flush only when something is queued. */
    method FlushUpward()
      requires Valid()
      modifies this, peers, toSsh
      ensures Valid() && toSsh.data == old(toSsh.data) && View() == PushUp(old(View()))
    {
      if toSsh.size > toSsh.off {
        active := toSsh.FlushToSsh(peers, active);
      }
    }

    method FlushDownward()
      requires Valid()
      modifies this, peers, toClient
      ensures Valid() && toClient.data == old(toClient.data) && View() == PushDown(old(View()))
    {
      if toClient.size > toClient.off {
        active := toClient.FlushToClient(peers, active);
      }
    }

    /** Queue the first `len` bytes of `scratch` upward and flush; on a refusal
        give the connection up. */
    method QueueUpward(len: SizeT, ghost chunk: Chunk) returns (ok: bool)
      requires Valid() && len as int <= SCRATCH_SIZE && scratch[..len] == chunk
      modifies this, peers, toSsh, toSsh.data
      ensures Valid() && BlocksOwned()
      ensures var p := old(View());
        var a := RelayModel.Append(p.w, p.up, chunk, MAX_BUFFER_CAP);
        var f := FlushUp(a.w, a.q, p.active);
        && ok == a.ok
        && View() == if a.ok then p.(w := f.w, up := f.q, active := f.active)
                     else p.(w := a.w, active := false, lostUp := chunk)
    {
      ghost var down := toClient.Pending();
      var rc := toSsh.Append(peers, scratch, len, MAX_BUFFER_CAP as SizeT);
      assert toClient.Pending() == down;
      ok := rc == 0;
      if ok {
        active := toSsh.FlushToSsh(peers, active);
      } else {
        active := false;
        lostUp := chunk;
      }
    }

    /** One turn of the receive loop; `again` is its `continue`. */
    method ReceiveOnce() returns (again: bool)
      requires Valid()
      modifies this, peers, toSsh, scratch, toSsh.data
      ensures Valid() && BlocksOwned()
      ensures again ==> ReceiveAll(old(View())) == ReceiveAll(View())
      ensures again ==> peers.w.runs < old(peers.w).runs
                        || (peers.w.runs == old(peers.w).runs
                            && |old(toSsh.Pending())| < |toSsh.Pending()| <= BACKPRESSURE)
      ensures !again ==> View() == ReceiveAll(old(View()))
    {
      ghost var p := View();
      var reply := peers.Recv(scratch);
      assert View() == p.(w := SeeRecv(p.w));
      if reply.RecvClosed? || reply.RecvFailed? {
        active := false;
        return false;
      } else if reply.RecvWouldBlock? {
        return false;
      }
      var ok := QueueUpward(|reply.chunk| as SizeT, reply.chunk);
      again := ok && toSsh.size - toSsh.off <= BACKPRESSURE as SizeT;
    }

    method ReceiveFromClient()
      requires Valid()
      modifies this, peers, toSsh, scratch, toSsh.data
      ensures Valid() && BlocksOwned() && View() == ReceiveAll(old(View()))
    {
      var again := true;
      ghost var goal := ReceiveAll(View());
      while again
        invariant Valid() && BlocksOwned()
        invariant if again then ReceiveAll(View()) == goal else View() == goal
        decreases again, peers.w.runs, BACKPRESSURE + 1 - |toSsh.Pending()|
      {
        again := ReceiveOnce();
      }
    }

    method QueueDownward(len: SizeT, ghost chunk: Chunk) returns (ok: bool)
      requires Valid() && len as int <= SCRATCH_SIZE && scratch[..len] == chunk
      modifies this, peers, toClient, toClient.data
      ensures Valid() && BlocksOwned()
      ensures var p := old(View());
        var a := RelayModel.Append(p.w, p.down, chunk, MAX_BUFFER_CAP);
        var f := FlushDown(a.w, a.q, p.active);
        && ok == a.ok
        && View() == if a.ok then p.(w := f.w, down := f.q, active := f.active)
                     else p.(w := a.w, active := false, lostDown := chunk)
    {
      ghost var up := toSsh.Pending();
      var rc := toClient.Append(peers, scratch, len, MAX_BUFFER_CAP as SizeT);
      assert toSsh.Pending() == up;
      ok := rc == 0;
      if ok {
        active := toClient.FlushToClient(peers, active);
      } else {
        active := false;
        lostDown := chunk;
      }
    }

    /** One turn of the channel read loop, its test included. */
    method ReadOnce() returns (again: bool)
      requires Valid()
      modifies this, peers, toClient, scratch, toClient.data
      ensures Valid() && BlocksOwned()
      ensures again ==> ReadAll(old(View())) == ReadAll(View()) && peers.w.runs < old(peers.w).runs
      ensures !again ==> View() == ReadAll(old(View()))
    {
      ghost var p := View();
      var running := peers.ReadRunning();
      if !(running && active) { return false; }
      var reply := peers.ChannelRead(scratch);
      assert View() == p.(w := SeeRead(SeeRunning(p.w)));
      if reply.ReadData? {
        again := QueueDownward(|reply.chunk| as SizeT, reply.chunk);
      } else if reply.rc == 0 || reply.rc == SSH_AGAIN {
        again := false;
      } else if reply.rc == SSH_EOF || reply.eof {
        active := false;
        again := false;
      } else if reply.rc == SSH_ERROR {
        active := false;
        again := false;
      } else {
        again := true;
      }
    }

    method ReadFromChannel()
      requires Valid()
      modifies this, peers, toClient, scratch, toClient.data
      ensures Valid() && BlocksOwned() && View() == ReadAll(old(View()))
    {
      var again := true;
      ghost var goal := ReadAll(View());
      while again
        invariant Valid() && BlocksOwned()
        invariant if again then ReadAll(View()) == goal else View() == goal
        decreases again, peers.w.runs
      {
        again := ReadOnce();
      }
    }

    method FlushOnTick(round: Round)
      requires Valid()
      modifies this, peers, toSsh, toClient
      ensures Valid() && toSsh.data == old(toSsh.data) && toClient.data == old(toClient.data)
      ensures View() == TickStage(old(View()), round)
    {
      if round.tick {
        FlushUpward();
        FlushDownward();
      }
    }

    /** What a pass does about the readable descriptors. */
    method ServeReadable(round: Round)
      requires Valid()
      modifies this, peers, toSsh, scratch, toSsh.data
      ensures Valid() && BlocksOwned()
      ensures View() == SessionStage(ClientStage(old(View()), round), round)
    {
      if round.clientReady {
        ReceiveFromClient();
      }
      if round.sessionReady {
        FlushUpward();
      }
    }

    method ServeChannel()
      requires Valid()
      modifies this, peers, toClient, scratch, toClient.data
      ensures Valid() && BlocksOwned() && View() == PushDown(ReadAll(old(View())))
    {
      ReadFromChannel();
      FlushDownward();
    }

    /** The loop body; `leave` is a `break`. */
    method PumpOnce() returns (leave: bool)
      requires Valid()
      modifies this, peers, toSsh, toClient, scratch, toSsh.data, toClient.data
      ensures Valid() && BlocksOwned()
      ensures OnePass(old(View())) == Pass(View(), leave)
    {
      hide ReceiveAll, ReadAll, PushUp, PushDown;
      ghost var p1 := View().(w := SeeSelect(peers.w));
      var round := peers.Select();
      assert View() == p1;
      if round.select.Interrupted? { return false; }
      if round.select.SelectFailed? { return true; }
      if round.tick && !round.connected { return true; }
      FlushOnTick(round);
      ServeReadable(round);
      ServeChannel();
      leave := !round.stillOpen;
    }

    method Loop()
      requires Valid()
      modifies this, peers, toSsh, toClient, scratch, toSsh.data, toClient.data
      ensures Valid() && View() == Forward(old(View()))
    {
      ghost var goal := Forward(View());
      var looping := true;
      while looping
        invariant Valid() && BlocksOwned()
        invariant if looping then Forward(View()) == goal else View() == goal
        decreases looping, peers.w.runs
      {
        var running := peers.ReadRunning();
        if !(running && active) { break; }
        var leave := PumpOnce();
        looping := !leave;
      }
    }

    /** The whole loop, then `fb_dispose` of both buffers.  `end` is the state
        at the moment of disposal, so `end.up` and `end.down` are the bytes that
        are dropped with them. */
    method Run() returns (ghost end: Pump)
      requires Valid() && View() == Start(peers.w)
      modifies this, peers, toSsh, toClient, scratch, toSsh.data, toClient.data
      ensures end == Forward(Start(old(peers.w))) && peers.w == end.w
      ensures toSsh.data == null && toClient.data == null
      ensures Untouched(old(peers.w)) ==> RelayAccounting.Accounted(end)
    {
      ghost var start := View();
      Loop();
      end := View();
      if Untouched(start.w) {
        RelayAccounting.ForwardAccounts(start);
      }
      toSsh.Dispose();
      toClient.Dispose();
    }
  }
}
