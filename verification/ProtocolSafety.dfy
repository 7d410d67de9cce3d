/** What every step of the protocol keeps, whatever the environment: who holds which lock, the reference
    counts, the contents of the ring, and the framing of every connection's bytes. */
module ProtocolSafety {
  import opened Bytes
  import opened Framing
  import opened Messages
  import opened Clients
  import opened Protocol
  import R = Ring

  function Bit(b: bool): nat {
    if b then 1 else 0
  }

  // ---------------------------------------------------------------- Locks

  predicate OwnHoldsClients(pc: OwnPc) {
    pc.WantWrite? || pc.WantRing? || pc.InRing? || pc.Snapped?
  }

  predicate OwnHoldsWrite(pc: OwnPc) {
    pc.WantRing? || pc.InRing? || pc.Snapped? || pc.Sending? || pc.Unlocking? || pc.ErrorUnlocking?
  }

  /** The broadcast is inside the locked part of its turn at `c`. */
  predicate PtyHoldsWrite(pty: PtyPc, c: ConnId) {
    && pty.Broadcasting? && pty.i < |pty.snap| && pty.snap[pty.i] == c
    && (pty.phase.InWrite? || pty.phase.SendingOut? || pty.phase.UnlockingOut?)
  }

  predicate Pinned(pty: PtyPc, c: ConnId) {
    pty.Broadcasting? && c in pty.snap
  }

  ghost predicate LockOk(clientsMu: Lock, ringMu: Lock, pty: PtyPc, c: ConnId, k: Conn) {
    && (clientsMu == Held(Owner(c)) <==> OwnHoldsClients(k.pc))
    && (ringMu == Held(Owner(c)) <==> k.pc.InRing?)
    && k.writeMu == (if OwnHoldsWrite(k.pc) then Held(Owner(c))
                     else if PtyHoldsWrite(pty, c) then Held(PtyThread) else Free)
    && !(OwnHoldsWrite(k.pc) && PtyHoldsWrite(pty, c))
  }

  ghost predicate Locks(s: State) {
    && (s.clientsMu.Held? ==> s.clientsMu.holder.Owner? && s.clientsMu.holder.c in s.conns)
    && (s.ringMu == Held(PtyThread) <==> s.pty.InRingMu?)
    && (s.ringMu.Held? && s.ringMu.holder.Owner? ==> s.ringMu.holder.c in s.conns)
    && (forall c :: c in s.conns ==> LockOk(s.clientsMu, s.ringMu, s.pty, c, s.conns[c]))
  }

  // ---------------------------------------------------------------- References

  predicate Unpublished(pc: OwnPc) {
    pc.ReadIntro? || pc.WantClients? || pc.WantWrite? || pc.WantRing? || pc.InRing? || pc.Snapped?
  }

  /** Reference counts are exact: the list's, the thread's, and the pinned snapshot's. */
  ghost predicate RefsOk(listed: bool, pty: PtyPc, c: ConnId, k: Conn) {
    && k.obj.inList == listed
    && k.obj.refs == Bit(listed) + Bit(!k.pc.Finished?) + Bit(Pinned(pty, c))
    && k.obj.frees == Bit(k.obj.refs == 0)
    && (listed <==> !k.obj.dead)
    && (k.pc.Finished? ==> k.obj.dead)
    && (k.obj.dead ==> k.broken)
    && (Pinned(pty, c) ==> k.obj.authenticated)
    && (Unpublished(k.pc) ==> !k.obj.authenticated)
    && (k.obj.authenticated ==> k.window.Some?)
    && (k.pc.Snapped? ==> k.window.Some?)
    && (k.pc.Sending? && !k.pc.stage.SendsError? ==> k.obj.authenticated)
    && (k.pc.Unlocking? || k.pc.InputLoop? ==> k.obj.authenticated)
  }

  ghost predicate Refs(s: State) {
    && NoDup(s.list)
    && (forall c :: c in s.list ==> c in s.conns)
    && (s.pty.Broadcasting? ==>
          && NoDup(s.pty.snap) && s.pty.i <= |s.pty.snap|
          && (forall c :: c in s.pty.snap ==> c in s.conns)
          && (!s.pty.phase.WantWriteMu? ==> s.pty.i < |s.pty.snap|))
    && (forall c :: c in s.conns ==> RefsOk(c in s.list, s.pty, c, s.conns[c]))
  }

  // ---------------------------------------------------------------- The ring and the chunk in hand

  ghost predicate Output(env: Env, s: State) {
    && env.cap > 0 && |s.ring.buf| == env.cap && R.Represents(s.ring, s.hist)
    && |s.hist| < U64_LIMIT
    && match s.pty
       case WantRingMu(chunk) => 0 < |chunk| <= PTY_READ_MAX && |s.hist| + |chunk| < U64_LIMIT
       case InRingMu(chunk) => 0 < |chunk| <= PTY_READ_MAX && |s.hist| + |chunk| < U64_LIMIT
       case Appended(start, chunk) => ChunkOk(s.hist, start, chunk)
       case Broadcasting(start, chunk, _, _, _) => ChunkOk(s.hist, start, chunk)
       case _ => true
  }

  predicate ChunkOk(hist: seq<byte>, start: nat, chunk: seq<byte>) {
    0 < |chunk| <= PTY_READ_MAX && start + |chunk| == |hist| && hist[start..] == chunk
  }

  // ---------------------------------------------------------------- Bytes on the wire

  /** The frame being written to `c`, and what is left of it, if anything is. */
  function Writer(pty: PtyPc, c: ConnId, k: Conn): Option<(Frame, seq<byte>)> {
    if k.pc.Sending? && k.pc.rest != [] then Some((k.pc.frame, k.pc.rest))
    else if PtyHoldsWrite(pty, c) && pty.phase.SendingOut? && pty.phase.rest != [] then
      Some((pty.phase.frame, pty.phase.rest))
    else None
  }

  /** `wire` is the completed frames, then nothing but a proper part of at most one more. */
  ghost predicate WireOk(wire: seq<byte>, broken: bool, frames: seq<Frame>, cut: Option<Frame>,
                         writer: Option<(Frame, seq<byte>)>) {
    && (writer.Some? ==> Sendable(writer.value.0) && |writer.value.1| <= |Encode(writer.value.0)|)
    && match cut
       case Some(f) => broken && Sendable(f) && EncodeAll(frames) <= wire && wire < EncodeAll(frames) + Encode(f)
                       && (writer.Some? ==> writer.value.1 == Encode(writer.value.0))
       case None =>
         if writer.None? then wire == EncodeAll(frames)
         else EncodeAll(frames) <= wire && wire + writer.value.1 == EncodeAll(frames) + Encode(writer.value.0)
  }

  ghost predicate WireOf(pty: PtyPc, c: ConnId, k: Conn) {
    && (forall i :: 0 <= i < |k.frames| ==> Sendable(k.frames[i]))
    && WireOk(k.wire, k.broken, k.frames, k.cut, Writer(pty, c, k))
  }

  ghost predicate Wires(s: State) {
    forall c :: c in s.conns ==> WireOf(s.pty, c, s.conns[c])
  }

  /** A thread handle is outstanding only if stores can be late, and then for a client already linked. */
  ghost predicate Stores(env: Env, s: State) {
    s.storing.Some? ==> env.lateStore && s.storing.value in s.conns
  }

  ghost predicate Safe(env: Env, s: State) {
    Locks(s) && Refs(s) && Output(env, s) && Wires(s) && Stores(env, s)
  }

  // ---------------------------------------------------------------- Steps of a connection's own thread

  lemma OwnLock(env: Env, ring: R.RingState, clientsMu: Lock, ringMu: Lock, pty: PtyPc, c: ConnId, k: Conn, o: OwnStep)
    requires LockOk(clientsMu, ringMu, pty, c, k) && CanOwn(env, ring, clientsMu, ringMu, k, o)
    ensures LockOk(OwnClientsMu(clientsMu, c, o), OwnRingMu(ringMu, c, o), pty, c,
                   OwnConn(env, ring, clientsMu, ringMu, c, k, o))
  {
  }

  lemma OwnLockOther(env: Env, ring: R.RingState, clientsMu: Lock, ringMu: Lock, pty: PtyPc, c: ConnId, k: Conn,
                     o: OwnStep, d: ConnId, kd: Conn)
    requires LockOk(clientsMu, ringMu, pty, c, k) && CanOwn(env, ring, clientsMu, ringMu, k, o)
    requires LockOk(clientsMu, ringMu, pty, d, kd) && d != c
    ensures LockOk(OwnClientsMu(clientsMu, c, o), OwnRingMu(ringMu, c, o), pty, d, kd)
  {
  }

  lemma OwnLocks(env: Env, s: State, c: ConnId, o: OwnStep)
    requires Safe(env, s) && Can(env, s, Own(c, o))
    ensures Locks(DoOwn(env, s, c, o))
  {
    hide RefsOk, WireOf, NoDup, OwnConn, Unlink, R.Represents;
    var s' := DoOwn(env, s, c, o);
    assert LockOk(s.clientsMu, s.ringMu, s.pty, c, s.conns[c]);
    OwnLock(env, s.ring, s.clientsMu, s.ringMu, s.pty, c, s.conns[c], o);
    forall d | d in s'.conns
      ensures LockOk(s'.clientsMu, s'.ringMu, s'.pty, d, s'.conns[d])
    {
      if d != c {
        assert LockOk(s.clientsMu, s.ringMu, s.pty, d, s.conns[d]);
        OwnLockOther(env, s.ring, s.clientsMu, s.ringMu, s.pty, c, s.conns[c], o, d, s.conns[d]);
      }
    }
  }

  lemma FinishReleases(f: Fields, pinned: bool)
    requires f.refs == Bit(f.inList) + 1 + Bit(pinned) && f.frees == 0
    ensures Finish(f) == f.(refs := Bit(pinned), frees := Bit(!pinned), inList := false, dead := true)
  {
    var g := MarkDead(f);
    if f.inList {
      assert ReleaseMany(Release(g), 1) == Release(Release(g));
    }
  }

  lemma OwnRef(env: Env, ring: R.RingState, clientsMu: Lock, ringMu: Lock, pty: PtyPc, listed: bool, c: ConnId,
               k: Conn, o: OwnStep)
    requires RefsOk(listed, pty, c, k) && CanOwn(env, ring, clientsMu, ringMu, k, o)
    ensures RefsOk(listed && !o.FinishClient?, pty, c, OwnConn(env, ring, clientsMu, ringMu, c, k, o))
  {
    hide Finish;
    if o.FinishClient? {
      FinishReleases(k.obj, Pinned(pty, c));
    }
  }

  lemma OwnRefs(env: Env, s: State, c: ConnId, o: OwnStep)
    requires Safe(env, s) && Can(env, s, Own(c, o))
    ensures Refs(DoOwn(env, s, c, o))
  {
    hide LockOk, RefsOk, WireOf, NoDup, OwnConn, CanOwn, Unlink, R.Represents;
    var s' := DoOwn(env, s, c, o);
    UnlinkFrom(s.list, c);
    assert RefsOk(c in s.list, s.pty, c, s.conns[c]);
    OwnRef(env, s.ring, s.clientsMu, s.ringMu, s.pty, c in s.list, c, s.conns[c], o);
    forall d | d in s'.conns
      ensures RefsOk(d in s'.list, s'.pty, d, s'.conns[d])
    {
      if d != c {
        assert RefsOk(d in s.list, s.pty, d, s.conns[d]);
      }
    }
  }

  lemma UnlinkFrom(list: seq<ConnId>, c: ConnId)
    requires NoDup(list)
    ensures NoDup(Unlink(list, c)) && forall x :: x in Unlink(list, c) <==> x in list && x != c
  {
    if c in list {
      var i :| 0 <= i < |list| && list[i] == c;
      UnlinkAt(list, i);
    } else {
      UnlinkAbsent(list, c);
    }
  }

  lemma OwnWireSending(env: Env, ring: R.RingState, clientsMu: Lock, ringMu: Lock, pty: PtyPc, c: ConnId, k: Conn,
                       o: OwnStep)
    requires LockOk(clientsMu, ringMu, pty, c, k) && CanOwn(env, ring, clientsMu, ringMu, k, o)
    requires WireOf(pty, c, k) && k.pc.Sending?
    ensures WireOf(pty, c, OwnConn(env, ring, clientsMu, ringMu, c, k, o))
  {
    hide Encode, EncodeAll;
    assert !PtyHoldsWrite(pty, c);
    if o.Write? {
      WriteWire(k.wire, k.broken, k.frames, k.cut, k.pc.frame, k.pc.rest, o.n);
    } else if o.Sent? && k.pc.stage.SendsWelcome? {
      var f := StreamFrame(REPLAY, k.window.value.from, k.window.value.data);
      if Sendable(f) {
        StartWire(k.wire, k.broken, k.frames, k.cut, f);
      }
    } else if o.WriteFails? {
      FailWire(k.wire, k.broken, k.frames, k.cut, k.pc.frame, k.pc.rest);
    }
  }

  lemma OwnWire(env: Env, ring: R.RingState, clientsMu: Lock, ringMu: Lock, pty: PtyPc, c: ConnId, k: Conn, o: OwnStep)
    requires LockOk(clientsMu, ringMu, pty, c, k) && CanOwn(env, ring, clientsMu, ringMu, k, o)
    requires WireOf(pty, c, k)
    ensures WireOf(pty, c, OwnConn(env, ring, clientsMu, ringMu, c, k, o))
  {
    hide Encode, EncodeAll;
    if k.pc.Sending? {
      OwnWireSending(env, ring, clientsMu, ringMu, pty, c, k, o);
    } else if o.Publish? {
      assert !PtyHoldsWrite(pty, c);
      StartWire(k.wire, k.broken, k.frames, k.cut, WelcomeFrame(k.window.value.base, k.window.value.next));
    } else if o.LockError? {
      assert !PtyHoldsWrite(pty, c);
      StartWire(k.wire, k.broken, k.frames, k.cut, Frame(ERROR, o.message));
    }
  }

  /** A frame is about to be written. */
  lemma StartWire(wire: seq<byte>, broken: bool, frames: seq<Frame>, cut: Option<Frame>, f: Frame)
    requires WireOk(wire, broken, frames, cut, None) && Sendable(f)
    ensures WireOk(wire, broken, frames, cut, Some((f, Encode(f)))) && Encode(f) != []
  {
  }

  /** The frame in hand is given up. */
  lemma FailWire(wire: seq<byte>, broken: bool, frames: seq<Frame>, cut: Option<Frame>, f: Frame, rest: seq<byte>)
    requires WireOk(wire, broken, frames, cut, Some((f, rest))) && rest != []
    ensures WireOk(wire, true, frames, if cut.None? then Some(f) else cut, None)
  {
    assert cut.None? ==> wire == (wire + rest)[..|wire|];
  }

  /** One partial write of the frame in hand. */
  lemma WriteWire(wire: seq<byte>, broken: bool, frames: seq<Frame>, cut: Option<Frame>, f: Frame, rest: seq<byte>,
                  n: nat)
    requires WireOk(wire, broken, frames, cut, Some((f, rest))) && !broken && 0 < n <= |rest|
    ensures WireOk(wire + rest[..n], broken, if n == |rest| then frames + [f] else frames, cut,
                   if n == |rest| then None else Some((f, rest[n..])))
  {
    assert wire + rest[..n] + rest[n..] == wire + rest;
    if n == |rest| {
      assert rest[..n] == rest;
      assert (frames + [f])[..|frames|] == frames;
    }
  }

  lemma OwnWires(env: Env, s: State, c: ConnId, o: OwnStep)
    requires Safe(env, s) && Can(env, s, Own(c, o))
    ensures Wires(DoOwn(env, s, c, o))
  {
    hide LockOk, RefsOk, WireOf, NoDup, OwnConn, CanOwn, Unlink, R.Represents;
    var s' := DoOwn(env, s, c, o);
    assert LockOk(s.clientsMu, s.ringMu, s.pty, c, s.conns[c]);
    assert WireOf(s.pty, c, s.conns[c]);
    OwnWire(env, s.ring, s.clientsMu, s.ringMu, s.pty, c, s.conns[c], o);
    forall d | d in s'.conns
      ensures WireOf(s'.pty, d, s'.conns[d])
    {
      if d != c {
        assert WireOf(s.pty, d, s.conns[d]);
      }
    }
  }

  lemma OwnSafe(env: Env, s: State, c: ConnId, o: OwnStep)
    requires Safe(env, s) && Can(env, s, Own(c, o))
    ensures Safe(env, DoOwn(env, s, c, o))
  {
    hide Locks, Refs, Wires, OwnConn, CanOwn, Unlink, R.Represents;
    OwnLocks(env, s, c, o);
    OwnRefs(env, s, c, o);
    OwnWires(env, s, c, o);
  }

  // ---------------------------------------------------------------- Turns of a broadcast

  /** The connection whose turn it is. */
  ghost predicate TurnAt(pty: PtyPc, c: ConnId) {
    && pty.Broadcasting? && pty.i < |pty.snap| && TurnOf(pty) == c
    && NoDup(pty.snap) && 0 < |pty.chunk| <= PTY_READ_MAX
  }

  lemma TurnLock(env: Env, clientsMu: Lock, ringMu: Lock, pty: PtyPc, c: ConnId, k: Conn, t: TurnStep)
    requires TurnAt(pty, c) && CanTurn(env, clientsMu, pty, k, t)
    requires LockOk(clientsMu, ringMu, pty, c, k)
    ensures LockOk(clientsMu, ringMu, TurnPty(env, clientsMu, pty, k, t), c, TurnConn(env, clientsMu, pty, k, t))
  {
    var pty' := TurnPty(env, clientsMu, pty, k, t);
    assert pty'.snap == pty.snap;
  }

  lemma TurnLockOther(env: Env, clientsMu: Lock, ringMu: Lock, pty: PtyPc, c: ConnId, k: Conn, t: TurnStep,
                      d: ConnId, kd: Conn)
    requires TurnAt(pty, c) && CanTurn(env, clientsMu, pty, k, t)
    requires LockOk(clientsMu, ringMu, pty, d, kd) && d != c
    ensures LockOk(clientsMu, ringMu, TurnPty(env, clientsMu, pty, k, t), d, kd)
  {
  }

  lemma TurnLocks(env: Env, s: State, t: TurnStep)
    requires Safe(env, s) && Can(env, s, Turn(t))
    ensures Locks(DoTurn(env, s, t))
  {
    hide LockOk, RefsOk, WireOf, NoDup, TurnConn, Unlink, R.Represents;
    var s', c := DoTurn(env, s, t), TurnOf(s.pty);
    assert LockOk(s.clientsMu, s.ringMu, s.pty, c, s.conns[c]);
    TurnLock(env, s.clientsMu, s.ringMu, s.pty, c, s.conns[c], t);
    forall d | d in s'.conns
      ensures LockOk(s'.clientsMu, s'.ringMu, s'.pty, d, s'.conns[d])
    {
      if d != c {
        assert LockOk(s.clientsMu, s.ringMu, s.pty, d, s.conns[d]);
        TurnLockOther(env, s.clientsMu, s.ringMu, s.pty, c, s.conns[c], t, d, s.conns[d]);
      }
    }
  }

  lemma AbandonReleases(f: Fields, other: nat)
    requires f.refs == Bit(f.inList) + other && other > 0
    ensures Abandon(f) == f.(refs := other, inList := false, dead := true)
  {
  }

  lemma TurnRef(env: Env, clientsMu: Lock, pty: PtyPc, listed: bool, c: ConnId, k: Conn, t: TurnStep)
    requires TurnAt(pty, c) && CanTurn(env, clientsMu, pty, k, t)
    requires RefsOk(listed, pty, c, k)
    ensures RefsOk(listed && !t.TMarkDead?, TurnPty(env, clientsMu, pty, k, t), c, TurnConn(env, clientsMu, pty, k, t))
  {
    assert TurnPty(env, clientsMu, pty, k, t).snap == pty.snap;
    assert Pinned(pty, c);
    if t.TMarkDead? {
      AbandonReleases(k.obj, Bit(!k.pc.Finished?) + 1);
    }
  }

  lemma TurnRefOther(env: Env, clientsMu: Lock, pty: PtyPc, listed: bool, c: ConnId, k: Conn, t: TurnStep, d: ConnId,
                     kd: Conn)
    requires TurnAt(pty, c) && CanTurn(env, clientsMu, pty, k, t) && RefsOk(listed, pty, d, kd)
    ensures RefsOk(listed, TurnPty(env, clientsMu, pty, k, t), d, kd)
  {
    assert TurnPty(env, clientsMu, pty, k, t).snap == pty.snap;
  }

  lemma TurnRefs(env: Env, s: State, t: TurnStep)
    requires Safe(env, s) && Can(env, s, Turn(t))
    ensures Refs(DoTurn(env, s, t))
  {
    hide LockOk, WireOf, NoDup, RefsOk, TurnConn, Unlink, R.Represents;
    var s', c := DoTurn(env, s, t), TurnOf(s.pty);
    UnlinkFrom(s.list, c);
    assert s'.pty.snap == s.pty.snap;
    assert RefsOk(c in s.list, s.pty, c, s.conns[c]);
    TurnRef(env, s.clientsMu, s.pty, c in s.list, c, s.conns[c], t);
    forall d | d in s'.conns
      ensures RefsOk(d in s'.list, s'.pty, d, s'.conns[d])
    {
      if d != c {
        assert RefsOk(d in s.list, s.pty, d, s.conns[d]);
        TurnRefOther(env, s.clientsMu, s.pty, d in s.list, c, s.conns[c], t, d, s.conns[d]);
      }
    }
  }

  lemma TurnWire(env: Env, clientsMu: Lock, ringMu: Lock, pty: PtyPc, c: ConnId, k: Conn, t: TurnStep)
    requires TurnAt(pty, c) && CanTurn(env, clientsMu, pty, k, t)
    requires LockOk(clientsMu, ringMu, pty, c, k) && WireOf(pty, c, k)
    ensures WireOf(TurnPty(env, clientsMu, pty, k, t), c, TurnConn(env, clientsMu, pty, k, t))
  {
    var pty', k' := TurnPty(env, clientsMu, pty, k, t), TurnConn(env, clientsMu, pty, k, t);
    hide Encode, EncodeAll;
    assert PtyHoldsWrite(pty, c) ==> !k.pc.Sending?;
    if t.TWrite? {
      WriteWire(k.wire, k.broken, k.frames, k.cut, pty.phase.frame, pty.phase.rest, t.n);
    } else if t.TDecide? {
      var f := StdoutFor(k.obj.liveSeq, pty.start, pty.chunk);
      if f.Some? {
        StartWire(k.wire, k.broken, k.frames, k.cut, f.value);
      }
    } else if t.TWriteFails? {
      FailWire(k.wire, k.broken, k.frames, k.cut, pty.phase.frame, pty.phase.rest);
    }
  }

  lemma TurnWires(env: Env, s: State, t: TurnStep)
    requires Safe(env, s) && Can(env, s, Turn(t))
    ensures Wires(DoTurn(env, s, t))
  {
    hide LockOk, RefsOk, WireOk, NoDup, TurnConn, Unlink, R.Represents;
    var s', c := DoTurn(env, s, t), TurnOf(s.pty);
    assert LockOk(s.clientsMu, s.ringMu, s.pty, c, s.conns[c]);
    assert WireOf(s.pty, c, s.conns[c]);
    TurnWire(env, s.clientsMu, s.ringMu, s.pty, c, s.conns[c], t);
    forall d | d in s'.conns
      ensures WireOf(s'.pty, d, s'.conns[d])
    {
      if d != c {
        assert WireOf(s.pty, d, s.conns[d]);
      }
    }
  }

  lemma TurnOutput(env: Env, s: State, t: TurnStep)
    requires Safe(env, s) && Can(env, s, Turn(t))
    ensures Output(env, DoTurn(env, s, t))
  {
    assert DoTurn(env, s, t).pty.chunk == s.pty.chunk;
  }

  lemma TurnSafe(env: Env, s: State, t: TurnStep)
    requires Safe(env, s) && Can(env, s, Turn(t))
    ensures Safe(env, DoTurn(env, s, t))
  {
    hide Locks, Refs, Wires, TurnConn, TurnPty, CanTurn, Unlink, R.Represents;
    TurnOutput(env, s, t);
    TurnLocks(env, s, t);
    TurnRefs(env, s, t);
    TurnWires(env, s, t);
  }

  // ---------------------------------------------------------------- Other steps of the PTY thread

  /** These steps change a connection's reference count at most. */
  predicate SameBut(k: Conn, k': Conn) {
    k' == k.(obj := k.obj.(refs := k'.obj.refs, frees := k'.obj.frees))
  }

  lemma PtyConn(env: Env, s: State, p: PtyStep, c: ConnId)
    requires CanPty(env, s, p) && c in s.conns
    ensures c in DoPty(env, s, p).conns && SameBut(s.conns[c], DoPty(env, s, p).conns[c])
  {
    hide R.Append, Filter;
  }

  lemma PtyKeys(env: Env, s: State, p: PtyStep)
    requires CanPty(env, s, p)
    ensures DoPty(env, s, p).conns.Keys == s.conns.Keys
    ensures DoPty(env, s, p).list == s.list && DoPty(env, s, p).clientsMu == s.clientsMu
  {
    hide R.Append, Filter;
  }

  /** No client is in the locked part of its turn before or after them. */
  lemma PtyHoldsNone(env: Env, s: State, p: PtyStep, c: ConnId)
    requires CanPty(env, s, p)
    ensures !PtyHoldsWrite(s.pty, c) && !PtyHoldsWrite(DoPty(env, s, p).pty, c)
  {
    hide R.Append, Filter;
  }

  lemma PtyRingMu(env: Env, s: State, p: PtyStep)
    requires Locks(s) && CanPty(env, s, p)
    ensures var s' := DoPty(env, s, p);
            && (s'.ringMu == Held(PtyThread) <==> s'.pty.InRingMu?)
            && (s'.ringMu == s.ringMu || ((s.ringMu.Free? || s.ringMu == Held(PtyThread))
                                          && (s'.ringMu.Free? || s'.ringMu == Held(PtyThread))))
  {
    hide LockOk, R.Append, Filter;
  }

  lemma PtyLocks(env: Env, s: State, p: PtyStep)
    requires Safe(env, s) && CanPty(env, s, p)
    ensures Locks(DoPty(env, s, p))
  {
    hide CanPty, DoPty, PtyHoldsWrite, Refs, Output, Wires;
    var s' := DoPty(env, s, p);
    PtyKeys(env, s, p);
    PtyRingMu(env, s, p);
    forall d | d in s'.conns
      ensures LockOk(s'.clientsMu, s'.ringMu, s'.pty, d, s'.conns[d])
    {
      assert LockOk(s.clientsMu, s.ringMu, s.pty, d, s.conns[d]);
      PtyConn(env, s, p, d);
      PtyHoldsNone(env, s, p, d);
    }
  }

  /** Pinned by the new snapshot, or passed over by it. */
  lemma SnapshotRef(listed: bool, pty: PtyPc, pty': PtyPc, d: ConnId, k: Conn)
    requires RefsOk(listed, pty, d, k) && !pty.Broadcasting?
    requires pty'.Reading? || (pty'.Broadcasting? && (d in pty'.snap <==> listed && Broadcastable(k.obj)))
    ensures RefsOk(listed, pty', d,
                   if pty'.Broadcasting? && d in pty'.snap then k.(obj := k.obj.(refs := k.obj.refs + 1)) else k)
  {
  }

  lemma ReleaseRef(listed: bool, pty: PtyPc, d: ConnId, k: Conn)
    requires RefsOk(listed, pty, d, k) && pty.Broadcasting?
    ensures RefsOk(listed, Reading, d, if d in pty.snap then k.(obj := Release(k.obj)) else k)
  {
  }

  lemma PtyRef(env: Env, s: State, p: PtyStep, d: ConnId)
    requires Refs(s) && CanPty(env, s, p) && d in s.conns && RefsOk(d in s.list, s.pty, d, s.conns[d])
    ensures d in DoPty(env, s, p).conns
            && RefsOk(d in DoPty(env, s, p).list, DoPty(env, s, p).pty, d, DoPty(env, s, p).conns[d])
  {
    hide NoDup, R.Append, Filter;
    if p.TakeSnapshot? {
      assert d in LiveList(s) <==> d in s.list && Broadcastable(s.conns[d].obj);
      SnapshotRef(d in s.list, s.pty, DoPty(env, s, p).pty, d, s.conns[d]);
      hide RefsOk;
    } else if p.ReleaseSnapshot? {
      ReleaseRef(d in s.list, s.pty, d, s.conns[d]);
      hide RefsOk;
    }
  }

  lemma PtySnap(env: Env, s: State, p: PtyStep)
    requires Refs(s) && CanPty(env, s, p) && DoPty(env, s, p).pty.Broadcasting?
    ensures var pty := DoPty(env, s, p).pty;
            NoDup(pty.snap) && pty.i == 0 && pty.phase.WantWriteMu? && forall c :: c in pty.snap ==> c in s.conns
  {
    FilterNoDup(s.list, LiveSet(s));
    hide NoDup, RefsOk, R.Append, Filter;
  }

  lemma PtyRefs(env: Env, s: State, p: PtyStep)
    requires Safe(env, s) && CanPty(env, s, p)
    ensures Refs(DoPty(env, s, p))
  {
    hide CanPty, DoPty, RefsOk, NoDup, Locks, Output, Wires;
    var s' := DoPty(env, s, p);
    PtyKeys(env, s, p);
    if s'.pty.Broadcasting? {
      PtySnap(env, s, p);
    }
    forall d | d in s'.conns
      ensures RefsOk(d in s'.list, s'.pty, d, s'.conns[d])
    {
      PtyRef(env, s, p, d);
    }
  }

  lemma PtyWires(env: Env, s: State, p: PtyStep)
    requires Safe(env, s) && CanPty(env, s, p)
    ensures Wires(DoPty(env, s, p))
  {
    hide CanPty, DoPty, PtyHoldsWrite, Refs, Output, Locks, WireOk;
    var s' := DoPty(env, s, p);
    PtyKeys(env, s, p);
    forall d | d in s'.conns
      ensures WireOf(s'.pty, d, s'.conns[d])
    {
      assert WireOf(s.pty, d, s.conns[d]);
      PtyConn(env, s, p, d);
      PtyHoldsNone(env, s, p, d);
    }
  }

  lemma PtyOutput(env: Env, s: State, p: PtyStep)
    requires Safe(env, s) && Can(env, s, Pty(p))
    ensures Output(env, DoPty(env, s, p))
  {
    hide LockOk, RefsOk, WireOf, NoDup, R.Append, Filter;
    if p.Append? {
      R.AppendKeepsWindow(s.ring, s.hist, s.pty.chunk);
    }
  }

  lemma PtySafe(env: Env, s: State, p: PtyStep)
    requires Safe(env, s) && Can(env, s, Pty(p))
    ensures Safe(env, DoPty(env, s, p))
  {
    hide Locks, Refs, Wires, Output;
    PtyLocks(env, s, p);
    PtyRefs(env, s, p);
    PtyWires(env, s, p);
    PtyOutput(env, s, p);
  }

  // ---------------------------------------------------------------- Arrivals, breakage and clients

  lemma NewConnSafe(clientsMu: Lock, ringMu: Lock, pty: PtyPc, c: ConnId, first: FirstFrame)
    requires clientsMu.Free? && ringMu != Held(Owner(c)) && !PtyHoldsWrite(pty, c) && !Pinned(pty, c)
    ensures LockOk(clientsMu, ringMu, pty, c, NewConn(first)) && RefsOk(true, pty, c, NewConn(first))
    ensures WireOf(pty, c, NewConn(first))
  {
  }

  lemma ArrivalSafe(env: Env, s: State, c: ConnId, first: FirstFrame)
    requires Safe(env, s) && CanArrive(s, c)
    ensures Safe(env, Arrive(env, s, c, first))
  {
    hide LockOk, RefsOk, WireOf, R.Represents;
    var s' := Arrive(env, s, c, first);
    NewConnSafe(s.clientsMu, s.ringMu, s.pty, c, first);
    forall d | d in s'.conns
      ensures LockOk(s'.clientsMu, s'.ringMu, s'.pty, d, s'.conns[d])
      ensures RefsOk(d in s'.list, s'.pty, d, s'.conns[d])
      ensures WireOf(s'.pty, d, s'.conns[d])
    {
      if d != c {
        assert LockOk(s.clientsMu, s.ringMu, s.pty, d, s.conns[d]);
        assert RefsOk(d in s.list, s.pty, d, s.conns[d]);
        assert WireOf(s.pty, d, s.conns[d]);
      }
    }
  }

  lemma BrokenConn(clientsMu: Lock, ringMu: Lock, pty: PtyPc, listed: bool, c: ConnId, k: Conn)
    ensures LockOk(clientsMu, ringMu, pty, c, k) ==> LockOk(clientsMu, ringMu, pty, c, k.(broken := true))
    ensures RefsOk(listed, pty, c, k) ==> RefsOk(listed, pty, c, k.(broken := true))
    ensures WireOf(pty, c, k) ==> WireOf(pty, c, k.(broken := true))
  {
  }

  /** Sockets break, whosever they are. */
  lemma BreaksSafe(env: Env, s: State, conns: map<ConnId, Conn>)
    requires Safe(env, s) && Broken(s.conns, conns)
    ensures Safe(env, s.(conns := conns))
  {
    hide LockOk, RefsOk, WireOf, NoDup, Output;
    var s' := s.(conns := conns);
    forall d | d in s'.conns
      ensures LockOk(s'.clientsMu, s'.ringMu, s'.pty, d, s'.conns[d])
      ensures RefsOk(d in s'.list, s'.pty, d, s'.conns[d])
      ensures WireOf(s'.pty, d, s'.conns[d])
    {
      assert LockOk(s.clientsMu, s.ringMu, s.pty, d, s.conns[d]);
      assert RefsOk(d in s.list, s.pty, d, s.conns[d]);
      assert WireOf(s.pty, d, s.conns[d]);
      BrokenConn(s.clientsMu, s.ringMu, s.pty, d in s.list, d, s.conns[d]);
    }
    SameOutput(env, s, conns);
  }

  lemma SameOutput(env: Env, s: State, conns: map<ConnId, Conn>)
    requires Output(env, s)
    ensures Output(env, s.(conns := conns))
  {
  }

  /** The same connections, some of them with a broken socket. */
  ghost predicate Broken(conns: map<ConnId, Conn>, conns': map<ConnId, Conn>) {
    && conns'.Keys == conns.Keys
    && forall c :: c in conns ==> conns'[c] == conns[c] || conns'[c] == conns[c].(broken := true)
  }

  // ---------------------------------------------------------------- Every reachable state

  lemma SafeInit(env: Env)
    requires env.cap > 0
    ensures Safe(env, Init(env))
  {
  }

  lemma ClientSafe(env: Env, s: State, p: PeerId, q: PeerStep)
    requires Safe(env, s) && CanPeer(s, p, q)
    ensures Safe(env, DoPeer(env, s, p, q))
  {
    hide LockOk, RefsOk, WireOf, NoDup, Receive, ProcessServerFrame, OutputStops, StreamOf;
    if q.Connect? {
      ArrivalSafe(env, s, q.c, DoPeer(env, s, p, q).conns[q.c].first);
    }
  }

  lemma StoredSafe(env: Env, s: State)
    requires Safe(env, s)
    ensures Safe(env, s.(storing := None))
  {
    hide LockOk, RefsOk, WireOf, NoDup;
  }

  lemma SafeNext(env: Env, s: State, step: Step)
    requires Safe(env, s) && Can(env, s, step)
    ensures Safe(env, Do(env, s, step))
  {
    hide Safe, DoPty, DoTurn, DoOwn, DoPeer, CanPty, CanTurn, CanOwn, CanPeer, NoDup;
    match step
    case Pty(p) => PtySafe(env, s, p);
    case Turn(t) => TurnSafe(env, s, t);
    case Own(c, o) => OwnSafe(env, s, c, o);
    case Accept(c, first) => ArrivalSafe(env, s, c, first);
    case StoreThread(c) => StoredSafe(env, s);
    case ShutdownClients => BreaksSafe(env, s, BreakAll(s.conns, s.list));
    case Break(c) => BreaksSafe(env, s, s.conns[c := s.conns[c].(broken := true)]);
    case Client(p, q) => ClientSafe(env, s, p, q);
  }

  lemma {:induction false} SafeRun(env: Env, steps: seq<Step>)
    requires env.cap > 0 && Run(env, steps).Some?
    ensures Safe(env, Run(env, steps).value)
    decreases |steps|
  {
    if steps == [] {
      SafeInit(env);
    } else {
      var init, last := steps[..|steps| - 1], steps[|steps| - 1];
      SafeRun(env, init);
      SafeNext(env, Run(env, init).value, last);
    }
  }
}
