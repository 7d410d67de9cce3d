/** The bounded ring of recent PTY output (src/ring.c): the value it holds, what that value means
    as a window of the full history, and the class that updates it in place. */
module Ring {
  import opened Bytes

  // ---------------------------------------------------------------- The value of a ring

  datatype RingState = RingState(buf: seq<byte>, base: nat, next: nat)

  datatype Window = Window(base: nat, from: nat, next: nat, data: seq<byte>)

  /** `n % d` by repeated subtraction, which keeps the solver out of nonlinear arithmetic. */
  function Mod(n: nat, d: nat): (r: nat)
    requires d > 0
    ensures r < d
  {
    if n < d then n else Mod(n - d, d)
  }

  lemma {:induction false} ModIsRemainder(n: nat, d: nat)
    requires d > 0
    ensures Mod(n, d) == n % d
  {
    if n >= d {
      ModIsRemainder(n - d, d);
      ShiftRemainder(n - d, d);
    }
  }

  lemma ShiftRemainder(m: nat, d: nat)
    requires d > 0
    ensures (m + d) % d == m % d
  {
    var q, q' := m / d, (m + d) / d;
    assert m + d == q' * d + (m + d) % d && m == q * d + m % d;
    assert (q' - q - 1) * d == q' * d - q * d - d;
    if q' - q - 1 > 0 {
      AtLeast(q' - q - 1, d);
    } else if q' - q - 1 < 0 {
      assert (q + 1 - q') * d == q * d - q' * d + d;
      AtLeast(q + 1 - q', d);
    }
  }

  lemma AtLeast(x: nat, d: nat)
    requires x > 0
    ensures x * d >= d
  {
    assert x * d == (x - 1) * d + d;
  }

  /** Copy `src` to `dest`, going on at the front of the buffer once its end is reached. */
  function BlitRound(buf: seq<byte>, dest: nat, src: seq<byte>): (r: seq<byte>)
    requires dest < |buf| && |src| <= |buf|
    ensures |r| == |buf|
  {
    var first := Min(|buf| - dest, |src|);
    Blit(Blit(buf, dest, src[..first]), 0, src[first..])
  }

  /** Read `len` bytes from `start` on, going round once. */
  function ReadRound(buf: seq<byte>, start: nat, len: nat): (r: seq<byte>)
    requires start < |buf| && len <= |buf|
    ensures |r| == len
  {
    var first := Min(|buf| - start, len);
    buf[start..start + first] + buf[..len - first]
  }

  function Slot(start: nat, k: nat, cap: nat): nat {
    if start + k < cap then start + k else start + k - cap
  }

  lemma BlitRoundAt(buf: seq<byte>, dest: nat, src: seq<byte>, k: nat)
    requires dest < |buf| && |src| <= |buf| && k < |buf|
    ensures var slot := Slot(dest, k, |buf|);
            BlitRound(buf, dest, src)[slot] == if k < |src| then src[k] else buf[slot]
  {
  }

  function Append(r: RingState, data: seq<byte>): (r': RingState)
    requires |r.buf| > 0 && r.base <= r.next
    ensures |r'.buf| == |r.buf| && r'.base <= r'.next
    ensures r.next <= r.base + |r.buf| ==> r'.next <= r'.base + |r.buf|
  {
    if data == [] then r
    else
      var cap := |r.buf|;
      var keep := Min(|data|, cap);
      var srcOff := |data| - keep;
      var dest := Mod(r.next + srcOff, cap);
      var buf := BlitRound(r.buf, dest, data[srcOff..]);
      var next := r.next + |data|;
      RingState(buf, if r.next - r.base + |data| > cap then next - cap else r.base, next)
  }

  function Clamp(requested: nat, lo: nat, hi: nat): nat {
    if requested < lo then lo else if requested > hi then hi else requested
  }

  function Snapshot(r: RingState, requested: nat): Window
    requires |r.buf| > 0 && r.base <= r.next <= r.base + |r.buf|
  {
    var from := Clamp(requested, r.base, r.next);
    var len := r.next - from;
    var start := Mod(from, |r.buf|);
    Window(r.base, from, r.next, ReadRound(r.buf, start, len))
  }

  // ---------------------------------------------------------------- What a ring stands for

  /** The sequence number of the oldest byte a ring of `cap` bytes retains after `total` bytes. */
  function Base(cap: nat, total: nat): nat {
    if total > cap then total - cap else 0
  }

  /** `r` holds the last `|r.buf|` bytes of `history`, each at its sequence number modulo the capacity. */
  ghost predicate Represents(r: RingState, history: seq<byte>) {
    && |r.buf| > 0
    && r.next == |history|
    && r.base == Base(|r.buf|, |history|)
    && forall i {:trigger history[i]} :: r.base <= i < r.next ==> r.buf[Mod(i, |r.buf|)] == history[i]
  }

  /** Moving `k < cap` places on from `n` goes round at most once. */
  lemma {:induction false} GoRound(n: nat, k: nat, cap: nat)
    requires k < cap
    ensures Mod(n + k, cap) == Slot(Mod(n, cap), k, cap)
  {
    if n >= cap {
      GoRound(n - cap, k, cap);
    }
  }

  lemma AppendCopies(r: RingState, data: seq<byte>, srcOff: nat, dest: nat)
    requires |r.buf| > 0 && r.base <= r.next
    requires data != [] && srcOff == |data| - Min(|data|, |r.buf|)
    requires dest == Mod(r.next + srcOff, |r.buf|)
    ensures Append(r, data).buf == BlitRound(r.buf, dest, data[srcOff..])
    ensures Append(r, data).next == r.next + |data|
    ensures Append(r, data).base == if r.next - r.base + |data| > |r.buf| then r.next + |data| - |r.buf| else r.base
  {
    hide Mod, BlitRound;
  }

  lemma SnapshotReads(r: RingState, requested: nat, from: nat, start: nat)
    requires |r.buf| > 0 && r.base <= r.next <= r.base + |r.buf|
    requires from == Clamp(requested, r.base, r.next) && start == Mod(from, |r.buf|)
    ensures Snapshot(r, requested) == Window(r.base, from, r.next, ReadRound(r.buf, start, r.next - from))
  {
  }

  /** A byte just copied is found at its own sequence number. */
  lemma NewByteAt(buf: seq<byte>, n0: nat, src: seq<byte>, i: nat)
    requires |src| <= |buf| && n0 <= i < n0 + |src|
    ensures BlitRound(buf, Mod(n0, |buf|), src)[Mod(i, |buf|)] == src[i - n0]
  {
    var cap, k := |buf|, i - n0;
    GoRound(n0, k, cap);
    BlitRoundAt(buf, Mod(n0, cap), src, k);
    assert Mod(i, cap) == Slot(Mod(n0, cap), k, cap);
  }

  /** An older byte still inside the window keeps its slot. */
  lemma OldByteAt(buf: seq<byte>, n0: nat, src: seq<byte>, i: nat)
    requires |src| <= |buf| && n0 + |src| <= i + |buf| && i < n0
    ensures BlitRound(buf, Mod(n0, |buf|), src)[Mod(i, |buf|)] == buf[Mod(i, |buf|)]
  {
    var cap, k := |buf|, i + |buf| - n0;
    GoRound(n0, k, cap);
    BlitRoundAt(buf, Mod(n0, cap), src, k);
    assert Mod(i + cap, cap) == Mod(i, cap);
    assert Mod(i, cap) == Slot(Mod(n0, cap), k, cap);
  }

  /** Byte `i` of the window after an append, new or old. */
  lemma AppendedByte(r: RingState, history: seq<byte>, data: seq<byte>, srcOff: nat, i: nat)
    requires Represents(r, history) && data != [] && srcOff == |data| - Min(|data|, |r.buf|)
    requires Base(|r.buf|, |history| + |data|) <= i < |history| + |data|
    ensures BlitRound(r.buf, Mod(r.next + srcOff, |r.buf|), data[srcOff..])[Mod(i, |r.buf|)] == (history + data)[i]
  {
    hide Mod, BlitRound;
    var n0, kept := r.next + srcOff, data[srcOff..];
    if i >= n0 {
      NewByteAt(r.buf, n0, kept, i);
    } else {
      OldByteAt(r.buf, n0, kept, i);
      assert r.buf[Mod(i, |r.buf|)] == history[i];
    }
  }

  lemma AppendKeepsWindow(r: RingState, history: seq<byte>, data: seq<byte>)
    requires Represents(r, history)
    ensures Represents(Append(r, data), history + data)
  {
    hide Mod, BlitRound;
    var h', cap := history + data, |r.buf|;
    if data == [] {
      assert h' == history;
    } else {
      var srcOff := |data| - Min(|data|, cap);
      var r' := Append(r, data);
      AppendCopies(r, data, srcOff, Mod(r.next + srcOff, cap));
      hide Append;
      forall i {:trigger h'[i]} | r'.base <= i < r'.next
        ensures r'.buf[Mod(i, cap)] == h'[i]
      {
        AppendedByte(r, history, data, srcOff, i);
      }
    }
  }

  lemma RepresentsBounds(r: RingState, history: seq<byte>)
    requires Represents(r, history)
    ensures 0 < |r.buf| && r.base <= r.next <= r.base + |r.buf| && r.next == |history|
  {
  }

  function AppendAll(r: RingState, chunks: seq<seq<byte>>): (r': RingState)
    requires |r.buf| > 0 && r.base <= r.next
    ensures |r'.buf| == |r.buf| && r'.base <= r'.next
  {
    if chunks == [] then r else Append(AppendAll(r, chunks[..|chunks| - 1]), chunks[|chunks| - 1])
  }

  function Concat(chunks: seq<seq<byte>>): seq<byte> {
    if chunks == [] then [] else Concat(chunks[..|chunks| - 1]) + chunks[|chunks| - 1]
  }

  /** Ring refinement: after any appends of any lengths the ring is the last `cap` bytes of everything
      appended. */
  lemma {:induction false} RingRefinesHistory(r: RingState, history: seq<byte>, chunks: seq<seq<byte>>)
    requires Represents(r, history)
    ensures Represents(AppendAll(r, chunks), history + Concat(chunks))
  {
    hide Mod, Append;
    if chunks == [] {
      assert history + Concat(chunks) == history;
    } else {
      var init, last := chunks[..|chunks| - 1], chunks[|chunks| - 1];
      var r1, h1 := AppendAll(r, init), history + Concat(init);
      assert Represents(r1, h1) by {
        RingRefinesHistory(r, history, init);
      }
      assert h1 + last == history + Concat(chunks);
      AppendKeepsWindow(r1, h1, last);
    }
  }

  /** Snapshot correctness: the two-piece copy is exactly the history from the clamped request on. */
  lemma SnapshotIsHistory(r: RingState, history: seq<byte>, requested: nat)
    requires Represents(r, history)
    ensures r.base <= r.next <= r.base + |r.buf|
    ensures var w := Snapshot(r, requested);
            && w.base == Base(|r.buf|, |history|) && w.next == |history|
            && w.from == Clamp(requested, w.base, w.next)
            && w.data == history[w.from..]
  {
    hide Mod;
    var w := Snapshot(r, requested);
    if w.from < w.next {
      forall k | 0 <= k < |w.data|
        ensures w.data[k] == history[w.from + k]
      {
        GoRound(w.from, k, |r.buf|);
      }
    }
  }

  /** Resuming: a snapshot asked for at an earlier snapshot's end returns exactly the bytes appended
      since, or, once some of them are evicted, exactly the retained suffix. */
  lemma ResumeAfterAppends(r: RingState, history: seq<byte>, chunks: seq<seq<byte>>)
    requires Represents(r, history)
    ensures var r', since := AppendAll(r, chunks), Concat(chunks);
            var base := Base(|r.buf|, |history| + |since|);
            var from := Max(|history|, base);
            && r'.base <= r'.next <= r'.base + |r'.buf|
            && Snapshot(r', r.next) == Window(base, from, |history| + |since|, since[from - |history|..])
  {
    hide Represents, AppendAll, Snapshot, Concat;
    RepresentsBounds(r, history);
    var r', since := AppendAll(r, chunks), Concat(chunks);
    RingRefinesHistory(r, history, chunks);
    ResumeWindow(r', history, since);
  }

  lemma ResumeWindow(r': RingState, history: seq<byte>, since: seq<byte>)
    requires Represents(r', history + since)
    ensures var base := Base(|r'.buf|, |history| + |since|);
            var from := Max(|history|, base);
            && r'.base <= r'.next <= r'.base + |r'.buf|
            && Snapshot(r', |history|) == Window(base, from, |history| + |since|, since[from - |history|..])
  {
    hide Mod, Snapshot;
    SnapshotIsHistory(r', history + since, |history|);
    var from := Max(|history|, Base(|r'.buf|, |history| + |since|));
    assert (history + since)[from..] == since[from - |history|..];
  }

  // ---------------------------------------------------------------- The ring as updated in place

  /** The append's pair of copies: up to the end of the buffer, then the rest at its front. */
  method CopyIn(dst: array<byte>, dest: nat, src: seq<byte>)
    requires dest < dst.Length && |src| <= dst.Length
    modifies dst
    ensures dst[..] == BlitRound(old(dst[..]), dest, src)
  {
    var first := if dst.Length - dest < |src| then dst.Length - dest else |src|;
    Memcpy(dst, dest, src[..first]);
    Memcpy(dst, 0, src[first..]);
  }

  /** The snapshot's pair of copies. */
  method CopyOut(out: array<byte>, src: array<byte>, start: nat)
    requires start < src.Length && out.Length <= src.Length && out != src
    modifies out
    ensures out[..] == ReadRound(src[..], start, out.Length)
  {
    var first := if src.Length - start < out.Length then src.Length - start else out.Length;
    Memcpy(out, 0, src[start..start + first]);
    Memcpy(out, first, src[..out.Length - first]);
  }

  /** The buffer index of a sequence number. */
  method IndexOf(n: uint64, cap: uint64) returns (slot: uint64)
    requires cap > 0
    ensures slot as nat == Mod(n as nat, cap as nat)
  {
    slot := n % cap;
    ModIsRemainder(n as nat, cap as nat);
  }

  class RingBuffer {
    const buf: array<byte>
    var baseSeq: uint64
    var nextSeq: uint64

    ghost predicate Valid()
      reads this, buf
    {
      && 0 < buf.Length < U64_LIMIT
      && baseSeq <= nextSeq
      && nextSeq as nat <= baseSeq as nat + buf.Length
    }

    ghost function Value(): RingState
      reads this, buf
    {
      RingState(buf[..], baseSeq as nat, nextSeq as nat)
    }

    constructor (capacity: nat)
      requires 0 < capacity < U64_LIMIT
      ensures Valid() && fresh(buf)
      ensures buf.Length == capacity && baseSeq == 0 && nextSeq == 0
      ensures Represents(Value(), [])
    {
      buf := new byte[capacity](i => 0);
      baseSeq := 0;
      nextSeq := 0;
    }

    /** opty_ring_append: none of the 64-bit sums overflows while the history stays below 2^64 bytes. */
    method AppendBytes(data: seq<byte>) returns (startSeq: uint64)
      requires Valid() && nextSeq as nat + |data| < U64_LIMIT
      modifies this, buf
      ensures Valid()
      ensures startSeq == old(nextSeq)
      ensures Value() == Append(old(Value()), data)
    {
      startSeq := nextSeq;
      if |data| == 0 {
        return;
      }
      var len := |data| as uint64;
      ghost var appended := Append(Value(), data);
      CopyTail(data, len);
      Advance(len);
      assert Value() == appended;
    }

    /** The copying half of an append: only the last `cap` bytes are worth storing. */
    method CopyTail(data: seq<byte>, len: uint64)
      requires Valid() && nextSeq as nat + |data| < U64_LIMIT
      requires data != [] && len as nat == |data|
      modifies buf
      ensures buf[..] == Append(old(Value()), data).buf
    {
      var cap := buf.Length as uint64;
      var keep := if len < cap then len else cap;
      var srcOff := len - keep;
      var dest := IndexOf(nextSeq + srcOff, cap);
      ghost var before := Value();
      CopyIn(buf, dest as nat, data[srcOff..]);
      assert buf[..] == Append(before, data).buf by {
        AppendCopies(before, data, srcOff as nat, dest as nat);
      }
    }

    /** The counting half of an append. */
    method Advance(len: uint64)
      requires Valid() && nextSeq as nat + len as nat < U64_LIMIT
      modifies this
      ensures Valid()
      ensures nextSeq as nat == old(nextSeq) as nat + len as nat
      ensures baseSeq as nat == if old(nextSeq) as nat - old(baseSeq) as nat + len as nat > buf.Length
                                then nextSeq as nat - buf.Length else old(baseSeq) as nat
    {
      var newNext := nextSeq + len;
      var window := nextSeq - baseSeq;
      nextSeq := newNext;
      if window + len > buf.Length as uint64 {
        baseSeq := newNext - buf.Length as uint64;
      }
    }

    /** opty_ring_snapshot_window: a null result means an empty window, or that malloc failed. `memory` is
        whether it succeeds. */
    method SnapshotWindow(requestedSeq: uint64, memory: bool)
      returns (base: uint64, from: uint64, next: uint64, out: array?<byte>)
      requires Valid()
      ensures base as nat == Value().base && next as nat == Value().next
      ensures from as nat == Clamp(requestedSeq as nat, Value().base, Value().next)
      ensures out == null <==> from == next || !memory
      ensures out != null ==> fresh(out) && out[..] == Snapshot(Value(), requestedSeq as nat).data
    {
      base := baseSeq;
      if requestedSeq < baseSeq {
        from := baseSeq;
      } else if requestedSeq > nextSeq {
        from := nextSeq;
      } else {
        from := requestedSeq;
      }
      next := nextSeq;
      out := null;
      if next != from && memory {
        out := CopyWindow(requestedSeq as nat, from);
      }
    }

    /** The copy at the end of opty_ring_snapshot_window. */
    method CopyWindow(ghost requested: nat, from: uint64) returns (out: array<byte>)
      requires Valid()
      requires from as nat == Clamp(requested, Value().base, Value().next) && from < nextSeq
      ensures fresh(out) && out[..] == Snapshot(Value(), requested).data
    {
      hide Mod, ReadRound, Snapshot;
      ghost var r := Value();
      var startIdx := IndexOf(from, buf.Length as uint64);
      out := new byte[(nextSeq - from) as int](i => 0);
      CopyOut(out, buf, startIdx as nat);
      SnapshotReads(r, requested, from as nat, startIdx as nat);
    }

    method Bounds() returns (base: uint64, next: uint64)
      requires Valid()
      ensures base as nat == Value().base && next as nat == Value().next
    {
      return baseSeq, nextSeq;
    }
  }
}
