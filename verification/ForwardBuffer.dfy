/** The growable queue of one direction, as it is kept in memory: a heap block,
    the end of the data in it, and the offset of the first pending byte. */
module ForwardBuffers {
  import opened Limits
  import opened Environment
  import opened RelayModel

  class ForwardBuffer {
    var data: array?<byte>
    var size: SizeT
    var off: SizeT

    ghost function Allocated(): nat
      reads this
    {
      if data == null then 0 else data.Length
    }

    /** `off` never passes `size`, `size` never passes the block, and the block
        never passes the cap. */
    ghost predicate Valid()
      reads this
    {
      off as int <= size as int <= Allocated() <= MAX_BUFFER_CAP
    }

    /** The queue this buffer stands for. */
    ghost function Pending(): seq<byte>
      reads this, data
      requires Valid()
    {
      if data == null then [] else data[off..size]
    }

    constructor ()
      ensures Valid() && data == null && Pending() == []
    {
      data := null;
      size, off := 0, 0;
    }

    method Dispose()
      modifies this
      ensures Valid() && data == null && Pending() == []
    {
      data := null;
      size, off := 0, 0;
    }

    /** `memmove` to the start of the block.  The ranges may overlap, so the
        order matters: each byte is read before its cell is overwritten. */
    method MoveToFront(block: array<byte>, from: SizeT, n: SizeT)
      requires from as int + n as int <= block.Length <= MAX_BUFFER_CAP
      modifies block
      ensures block[..n] == old(block[from..from as int + n as int])
    {
      var i: SizeT := 0;
      while i < n
        invariant i <= n
        invariant block[..i] == old(block[from..from as int + i as int])
        invariant forall k :: i as int + from as int <= k < block.Length ==> block[k] == old(block[k])
      {
        block[i] := block[from + i];
        i := i + 1;
      }
    }

    /** `realloc`: a new block of `n` bytes that keeps as much of the old one as
        fits, or null with the old block untouched. */
    method Resize(peers: Peers, n: SizeT) returns (block: array?<byte>)
      requires Allocated() >= size as int && size <= n
      modifies peers
      ensures peers.w == SeeAlloc(old(peers.w))
      ensures (block != null) == old(peers.w).script.allocs.Head()
      ensures block != null ==> fresh(block) && block.Length == n as int
      ensures block != null && data != null ==> block[..size] == data[..size]
    {
      var ok := peers.AllocSucceeds();
      if !ok { return null; }
      block := new byte[n](_ => 0);
      if data != null {
        forall i | 0 <= i < size as int { block[i] := data[i]; }
      }
    }

    /** Moves the pending bytes to the front of the block. */
    method Compact()
      requires Valid()
      modifies this, data
      ensures Valid() && off == 0 && data == old(data) && Pending() == old(Pending())
    {
      if off > 0 {
        var pending := size - off;
        if pending > 0 {
          MoveToFront(data, off, pending);
        }
        size := pending;
        off := 0;
      }
    }

    /** Grows a compacted block by `len` bytes and copies them in. */
    method Extend(peers: Peers, src: array<byte>, len: SizeT) returns (ok: bool)
      requires Valid() && off == 0 && len as int <= src.Length && src != data
      requires size as int + len as int <= MAX_BUFFER_CAP
      modifies this, peers
      ensures Valid() && (if ok then data != null && fresh(data) else data == old(data))
      ensures peers.w == SeeAlloc(old(peers.w)) && ok == old(peers.w).script.allocs.Head()
      ensures ok ==> off == 0 && Allocated() == size as int
      ensures Pending() == if ok then old(Pending()) + src[..len] else old(Pending())
    {
      ghost var queued := Pending();
      var block := Resize(peers, size + len);
      if block == null { return false; }
      data := block;
      assert data[..size] == queued;
      forall i | 0 <= i < len as int { block[size as int + i] := src[i]; }
      size := size + len;
      assert data[off..size] == queued + src[..len];
      return true;
    }

    /** 0 when `src[..len]` was enqueued, -1 when nothing was, on either failure
        path.  The last requires rules out a wrap of `pending + len`. */
    method Append(peers: Peers, src: array<byte>, len: SizeT, cap: SizeT) returns (rc: int)
      requires Valid() && len as int <= src.Length && src != data
      requires cap as int <= MAX_BUFFER_CAP && MAX_BUFFER_CAP + len as int < 0x1_0000_0000
      modifies this, data, peers
      ensures Valid() && (data == old(data) || (data != null && fresh(data)))
      ensures var a := RelayModel.Append(old(peers.w), old(Pending()), src[..len], cap as int);
        peers.w == a.w && Pending() == a.q && rc == (if a.ok then 0 else -1)
      ensures rc == 0 && len > 0 ==> off == 0 && Allocated() == size as int
      ensures src[..] == old(src[..])
    {
      if len == 0 { return 0; }
      var pending := size - off;
      if pending + len > cap { return -1; }
      Compact();
      var ok := Extend(peers, src, len);
      return if ok then 0 else -1;
    }

    /** One non-blocking write of everything pending. */
    method OfferToSsh(peers: Peers) returns (rc: int)
      requires Valid() && off < size
      modifies `off, peers
      ensures Valid() && old(off) <= off
      ensures rc == Granted(old(peers.w).script.channelWrites.Head(), |old(Pending())|)
      ensures peers.w == SeeWrite(old(peers.w), old(Pending()))
      ensures rc <= 0 ==> off == old(off) && Pending() == old(Pending())
      ensures rc > 0 ==> off > old(off) && Pending() == old(Pending())[rc..]
    {
      assert data[off..off as int + (size - off) as int] == Pending();
      rc := peers.ChannelWrite(data, off, size - off);
      if rc > 0 {
        off := off + rc as SizeT;
      }
    }

    method OfferToClient(peers: Peers) returns (reply: SendReply)
      requires Valid() && off < size
      modifies `off, peers
      ensures Valid() && old(off) <= off
      ensures reply == Cut(old(peers.w).script.sends.Head(), |old(Pending())|)
      ensures peers.w == SeeSend(old(peers.w), old(Pending()))
      ensures !reply.Sent? || reply.n == 0 ==> off == old(off) && Pending() == old(Pending())
      ensures reply.Sent? && reply.n > 0 ==> off > old(off) && Pending() == old(Pending())[reply.n..]
    {
      assert data[off..off as int + (size - off) as int] == Pending();
      reply := peers.Send(data, off, size - off);
      if reply.Sent? {
        off := off + reply.n as SizeT;
      }
    }

    /** Sends as much as the channel takes now; returns the new
        `connection_active`. */
    method FlushToSsh(peers: Peers, connectionActive: bool) returns (active: bool)
      requires Valid()
      modifies `size, `off, peers
      ensures Valid()
      ensures var f := FlushUp(old(peers.w), old(Pending()), connectionActive);
        peers.w == f.w && Pending() == f.q && active == f.active
      ensures Pending() == [] ==> off == 0 && size == 0
    {
      active := connectionActive;
      ghost var goal := FlushUp(peers.w, Pending(), active);
      while true
        invariant Valid()
        invariant FlushUp(peers.w, Pending(), active) == goal
        decreases size as int - off as int
      {
        var running := peers.ReadRunning();
        if !(running && active && off < size) { break; }
        var rc := OfferToSsh(peers);
        if rc == SSH_AGAIN {
          break;
        } else if rc == SSH_ERROR || rc == SSH_EOF {
          active := false;
          break;
        } else if rc <= 0 {
          break;
        }
      }
      assert peers.w == goal.w && Pending() == goal.q && active == goal.active;
      if off == size {
        off, size := 0, 0;
      }
    }

    /** The same towards the client socket, where a send of 0 also ends the
        connection. */
    method FlushToClient(peers: Peers, connectionActive: bool) returns (active: bool)
      requires Valid()
      modifies `size, `off, peers
      ensures Valid()
      ensures var f := FlushDown(old(peers.w), old(Pending()), connectionActive);
        peers.w == f.w && Pending() == f.q && active == f.active
      ensures Pending() == [] ==> off == 0 && size == 0
    {
      active := connectionActive;
      ghost var goal := FlushDown(peers.w, Pending(), active);
      while true
        invariant Valid()
        invariant FlushDown(peers.w, Pending(), active) == goal
        decreases size as int - off as int
      {
        var running := peers.ReadRunning();
        if !(running && active && off < size) { break; }
        var reply := OfferToClient(peers);
        if reply.SendWouldBlock? {
          break;
        } else if reply.SendFailed? || reply.n == 0 {
          active := false;
          break;
        }
      }
      assert peers.w == goal.w && Pending() == goal.q && active == goal.active;
      if off == size {
        off, size := 0, 0;
      }
    }
  }
}
