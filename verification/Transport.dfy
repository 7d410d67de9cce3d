/** System calls as an oracle, and the loops of src/protocol.c that turn short, interrupted and failing
    calls into all-or-nothing transfers. */
module Transport {
  import opened Bytes

  /** What the next system call on a descriptor does. */
  datatype IoStep = Move(n: nat) | Interrupt | Break

  /** The outcome of one read, write or writev: a count, EINTR, or another error. */
  datatype Io = Moved(n: nat) | Interrupted | Failed

  /** No call fails and no write reports zero bytes; short counts and EINTR remain. */
  predicate Clean(plan: seq<IoStep>) {
    forall i :: 0 <= i < |plan| ==> !plan[i].Break? && plan[i] != Move(0)
  }

  /** One end of a connection. `plan` lists what the next calls do; once it is used up, calls move all they
      can. Quantifying over `plan` quantifies over every pattern of short counts, interruptions and failures. */
  class Socket {
    var plan: seq<IoStep>
    var broken: bool
    var sent: seq<byte>
    var incoming: seq<byte>

    constructor (plan: seq<IoStep>, incoming: seq<byte>)
      ensures this.plan == plan && !broken && sent == [] && this.incoming == incoming
      ensures Reliable() <==> forall i :: 0 <= i < |plan| ==> plan[i].Interrupt? || (plan[i].Move? && plan[i].n > 0)
    {
      this.plan, this.broken, this.sent, this.incoming := plan, false, [], incoming;
    }

    predicate Reliable()
      reads this
    {
      !broken && Clean(plan)
    }

    method Write(data: seq<byte>) returns (r: Io)
      modifies this`plan, this`broken, this`sent
      ensures r.Moved? ==> r.n <= |data| && sent == old(sent) + data[..r.n]
      ensures !r.Moved? ==> sent == old(sent)
      ensures |plan| <= old(|plan|) && (r.Interrupted? ==> |plan| < old(|plan|))
      ensures old(broken) ==> broken && r.Failed?
      ensures r.Failed? ==> broken
      ensures old(Reliable()) ==> Reliable() && !r.Failed? && (r.Moved? && data != [] ==> r.n > 0)
    {
      if broken {
        return Failed;
      }
      var n := |data|;
      if plan != [] {
        var step := plan[0];
        plan := plan[1..];
        match step {
          case Interrupt => return Interrupted;
          case Break =>
            broken := true;
            return Failed;
          case Move(k) =>
            n := Min(k, |data|);
        }
      }
      sent := sent + data[..n];
      return Moved(n);
    }

    method Read(max: nat) returns (r: Io, data: seq<byte>)
      requires max > 0
      modifies this`plan, this`broken, this`incoming
      ensures r.Moved? ==> r.n == |data| <= max && old(incoming) == data + incoming
      ensures r.Moved? ==> (r.n == 0 <==> old(incoming) == [])
      ensures !r.Moved? ==> incoming == old(incoming)
      ensures |plan| <= old(|plan|) && (r.Interrupted? ==> |plan| < old(|plan|))
      ensures old(broken) ==> broken && r.Failed?
      ensures r.Failed? ==> broken
      ensures old(Reliable()) ==> Reliable() && !r.Failed?
    {
      data := [];
      if broken {
        return Failed, data;
      }
      var n := Min(max, |incoming|);
      if plan != [] {
        var step := plan[0];
        plan := plan[1..];
        match step {
          case Interrupt => return Interrupted, data;
          case Break =>
            broken := true;
            return Failed, data;
          case Move(k) =>
            n := Min(Max(k, 1), n);
        }
      }
      data := incoming[..n];
      incoming := incoming[n..];
      return Moved(n), data;
    }
  }

  // ---------------------------------------------------------------- opty_read_full

  /** What a full read of `len` bytes returns when no call fails, however the bytes arrive. */
  function ReadFullResult(incoming: seq<byte>, len: nat): int {
    if |incoming| >= len then len else if incoming == [] then 0 else -1
  }

  method ReadFull(fd: Socket, buf: array<byte>, len: nat) returns (n: int)
    requires len <= buf.Length
    modifies fd`plan, fd`broken, fd`incoming, buf
    ensures n == -1 || n == ReadFullResult(old(fd.incoming), len)
    ensures old(fd.Reliable()) ==> n == ReadFullResult(old(fd.incoming), len) && fd.Reliable()
    ensures n == len ==> old(fd.incoming) == buf[..len] + fd.incoming
    ensures n == 0 ==> fd.incoming == old(fd.incoming)
  {
    var total := 0;
    while total < len
      invariant total <= len
      invariant old(fd.incoming) == buf[..total] + fd.incoming
      invariant old(fd.Reliable()) ==> fd.Reliable()
      decreases len - total, |fd.plan|
    {
      var r, data := fd.Read(len - total);
      match r {
        case Moved(k) =>
          if k == 0 {
            if total == 0 {
              return 0;
            }
            return -1;
          }
          Memcpy(buf, total, data);
          total := total + k;
        case Interrupted =>
        case Failed => return -1;
      }
    }
    return total;
  }

  // ---------------------------------------------------------------- opty_write_full

  lemma TakeMore(s: seq<byte>, i: nat, k: nat)
    requires i + k <= |s|
    ensures s[..i] + s[i..][..k] == s[..i + k]
    ensures s[i..][k..] == s[i + k..]
  {
  }

  method WriteFull(fd: Socket, data: seq<byte>) returns (n: int)
    modifies fd`plan, fd`broken, fd`sent
    ensures n == |data| || n == -1
    ensures n == |data| ==> fd.sent == old(fd.sent) + data
    ensures n == -1 ==> old(fd.sent) <= fd.sent < old(fd.sent) + data
    ensures old(fd.Reliable()) ==> n == |data| && fd.Reliable()
  {
    var total := 0;
    while total < |data|
      invariant total <= |data|
      invariant fd.sent == old(fd.sent) + data[..total]
      invariant old(fd.Reliable()) ==> fd.Reliable()
      decreases |data| - total, |fd.plan|
    {
      var r := fd.Write(data[total..]);
      match r {
        case Moved(k) =>
          if k == 0 {
            return -1;
          }
          TakeMore(data, total, k);
          total := total + k;
        case Interrupted =>
        case Failed => return -1;
      }
    }
    return total;
  }

  // ---------------------------------------------------------------- opty_writev_full

  const IOV_MAX := 3

  function Flat(iov: seq<seq<byte>>): seq<byte> {
    if iov == [] then [] else iov[0] + Flat(iov[1..])
  }

  lemma FlatHead(iov: array<seq<byte>>, lo: nat, hi: nat)
    requires lo < hi <= iov.Length
    ensures Flat(iov[lo..hi]) == iov[lo] + Flat(iov[lo + 1..hi])
  {
    assert iov[lo..hi][1..] == iov[lo + 1..hi];
  }

  /** Drop the entries that `moved` bytes cover; `written` bytes of the next one remain to be skipped. */
  method SkipWritten(local: array<seq<byte>>, cur0: nat, count0: nat, moved: nat)
    returns (cur: nat, count: nat, written: nat)
    requires cur0 + count0 <= local.Length && moved <= |Flat(local[cur0..cur0 + count0])|
    ensures cur + count == cur0 + count0
    ensures if count > 0 then written < |local[cur]| else written == 0
    ensures written <= |Flat(local[cur..cur + count])|
    ensures Flat(local[cur0..cur0 + count0])[moved..] == Flat(local[cur..cur + count])[written..]
  {
    cur, count, written := cur0, count0, moved;
    while count > 0 && written >= |local[cur]|
      invariant cur + count == cur0 + count0
      invariant written <= |Flat(local[cur..cur + count])|
      invariant Flat(local[cur0..cur0 + count0])[moved..] == Flat(local[cur..cur + count])[written..]
      decreases count
    {
      FlatHead(local, cur, cur + count);
      written := written - |local[cur]|;
      cur := cur + 1;
      count := count - 1;
    }
  }

  /** Move the cursor past `moved` bytes, shortening the entry they end in. */
  method Advance(local: array<seq<byte>>, cur0: nat, count0: nat, moved: nat) returns (cur: nat, count: nat)
    requires cur0 + count0 <= local.Length && moved <= |Flat(local[cur0..cur0 + count0])|
    modifies local
    ensures cur + count == cur0 + count0
    ensures Flat(local[cur..cur + count]) == old(Flat(local[cur0..cur0 + count0]))[moved..]
    ensures count > 0 ==> Flat(local[cur..cur + count]) != []
  {
    var written: nat;
    cur, count, written := SkipWritten(local, cur0, count0, moved);
    if count > 0 {
      FlatHead(local, cur, cur + count);
      ghost var tail := local[cur + 1..cur + count];
      local[cur] := local[cur][written..];
      assert local[cur + 1..cur + count] == tail;
      FlatHead(local, cur, cur + count);
    }
  }

  /** opty_writev_full: emits exactly the concatenation of the entries, for every pattern of short counts.
      It can only succeed on at most three entries that are not all empty (or on none at all), and on a
      reliable socket that is also enough. */
  method WritevFull(fd: Socket, iov: seq<seq<byte>>) returns (n: int)
    modifies fd`plan, fd`broken, fd`sent
    ensures n == -1 || n == |Flat(iov)|
    ensures n != -1 ==> |iov| <= IOV_MAX && (iov == [] || Flat(iov) != [])
    ensures n != -1 ==> fd.sent == old(fd.sent) + Flat(iov)
    ensures n == -1 ==> old(fd.sent) <= fd.sent <= old(fd.sent) + Flat(iov)
    ensures n == -1 && Flat(iov) != [] ==> fd.sent < old(fd.sent) + Flat(iov)
    ensures old(fd.Reliable()) ==> fd.Reliable()
    ensures old(fd.Reliable()) && |iov| <= IOV_MAX && (iov == [] || Flat(iov) != []) ==> n != -1
  {
    if |iov| > IOV_MAX {
      return -1;
    }
    if |iov| == 0 {
      return 0;
    }
    var local := new seq<byte>[IOV_MAX](i => if 0 <= i < |iov| then iov[i] else []);
    assert local[0..|iov|] == iov;
    n := WritevLoop(fd, local, |iov|);
  }

  method WritevLoop(fd: Socket, local: array<seq<byte>>, iovcnt: nat) returns (n: int)
    requires 0 < iovcnt <= local.Length
    modifies fd`plan, fd`broken, fd`sent, local
    ensures var all := old(Flat(local[0..iovcnt]));
            if n == -1 then
              && old(fd.sent) <= fd.sent <= old(fd.sent) + all
              && (all != [] ==> |fd.sent| < |old(fd.sent)| + |all|)
            else n == |all| > 0 && fd.sent == old(fd.sent) + all
    ensures old(fd.Reliable()) ==> fd.Reliable() && (old(Flat(local[0..iovcnt])) != [] ==> n != -1)
  {
    var cur, count, total := 0, iovcnt, 0;
    ghost var all := Flat(local[0..iovcnt]);
    while count > 0
      invariant 0 <= cur && 0 <= count && cur + count == iovcnt
      invariant 0 <= total <= |all|
      invariant fd.sent == old(fd.sent) + all[..total]
      invariant Flat(local[cur..cur + count]) == all[total..]
      invariant old(fd.Reliable()) ==> fd.Reliable()
      invariant if total == |all| then count == 0 || total == 0 else count > 0
      invariant count == 0 ==> total > 0
      decreases |all| - total, |fd.plan|
    {
      var r := fd.Write(Flat(local[cur..cur + count]));
      if r.Failed? || (r.Moved? && r.n == 0) {
        return -1;
      }
      if r.Moved? {
        TakeMore(all, total, r.n);
        cur, count := Advance(local, cur, count, r.n);
        total := total + r.n;
      }
    }
    return total;
  }
}
