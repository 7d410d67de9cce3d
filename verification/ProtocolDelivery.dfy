/** What every step keeps when a full replay fits a frame and allocations succeed: the sequence numbers of
    live clients, the frames of each connection, and the output each client program has assembled. */
module ProtocolDelivery {
  import opened Bytes
  import opened Framing
  import opened Messages
  import opened Clients
  import opened Protocol
  import opened ProtocolSafety
  import R = Ring

  /** A full REPLAY fits a frame, and no allocation fails. */
  predicate Good(env: Env) {
    env.cap + 8 <= MAX_FRAME - 1 && !env.allocFails
  }

  // ---------------------------------------------------------------- Sequence numbers

  predicate TurnIs(pty: PtyPc, c: ConnId) {
    pty.Broadcasting? && pty.i < |pty.snap| && pty.snap[pty.i] == c
  }

  /** The broadcast has not finished with `c`. */
  predicate Pending(pty: PtyPc, c: ConnId) {
    pty.Broadcasting? && pty.i <= |pty.snap| && c in pty.snap[pty.i..]
  }

  /** The live_seq values a client can have. While a chunk is in hand they are its two ends. */
  predicate SeqOk(pty: PtyPc, total: nat, c: ConnId, v: nat) {
    match pty
    case Appended(start, _) => v == start || v == total
    case Broadcasting(start, _, _, _, phase) =>
      if !Pending(pty, c) then v == total
      else if !TurnIs(pty, c) || phase.WantWriteMu? || phase.InWrite? then v == start || v == total
      else v == if phase == UnlockingOut(true) then total else start
    case _ => v == total
  }

  ghost predicate LiveOk(pty: PtyPc, total: nat, c: ConnId, k: Conn) {
    && (k.obj.authenticated && (!k.obj.dead || Pending(pty, c)) ==> SeqOk(pty, total, c, k.obj.liveSeq))
    && (k.pc.Snapped? && k.window.Some? ==> SeqOk(pty, total, c, k.window.value.next))
  }

  // ---------------------------------------------------------------- Frames of a connection

  /** STDOUT frames that carry hist[from..upto], each starting where the one before it ended. */
  ghost predicate Chain(hist: seq<byte>, fs: seq<Frame>, from: nat, upto: nat)
    decreases |fs|
  {
    if fs == [] then from == upto <= |hist|
    else
      var f := fs[|fs| - 1];
      && 8 < |f.payload| <= upto - from + 8 && upto <= |hist|
      && var start := upto - (|f.payload| - 8);
         && f == StreamFrame(STDOUT, start, hist[start..upto])
         && Chain(hist, fs[..|fs| - 1], from, start)
  }

  function ReplayFrame(w: R.Window): Frame {
    StreamFrame(REPLAY, w.from, w.data)
  }

  /** WELCOME, REPLAY of hist[from..next], then live output from there on up to `upto`. */
  ghost predicate Carries(hist: seq<byte>, w: R.Window, fs: seq<Frame>, upto: nat) {
    && |fs| >= 2 && fs[0] == WelcomeFrame(w.base, w.next) && fs[1] == ReplayFrame(w)
    && Chain(hist, fs[2..], w.next, upto)
  }

  /** `w` is the window of the history that answers `first`, as of some earlier moment. */
  ghost predicate WindowOk(hist: seq<byte>, cap: nat, first: FirstFrame, w: R.Window) {
    && w.next <= |hist| && w.base == R.Base(cap, w.next)
    && w.from == R.Clamp(Requested(first), w.base, w.next)
    && w.from <= w.next && w.data == hist[w.from..w.next]
  }

  /** How far a connection's complete frames reach; ahead of live_seq only between a broadcast's last byte
      and its update of live_seq. */
  function Through(pty: PtyPc, c: ConnId, k: Conn): nat {
    if TurnIs(pty, c) && pty.phase.SendingOut? && pty.phase.rest == [] then pty.start + |pty.chunk| else k.obj.liveSeq
  }

  predicate ErrorPath(pc: OwnPc) {
    || pc == Unlocking(false) || pc.WantErrorLock? || pc.ErrorUnlocking?
    || (pc.Sending? && pc.stage.SendsError?)
  }

  ghost predicate StreamOk(hist: seq<byte>, cap: nat, pty: PtyPc, c: ConnId, k: Conn) {
    && (k.window.Some? ==> WindowOk(hist, cap, k.first, k.window.value))
    && (Unpublished(k.pc) ==> k.frames == [] && (k.window.Some? ==> k.pc.Snapped?))
    && (!k.obj.authenticated ==> forall i :: 0 <= i < |k.frames| ==> k.frames[i].kind == ERROR)
    && (k.obj.authenticated && k.window.Some? ==>
          var w := k.window.value;
          var welcome := WelcomeFrame(w.base, w.next);
          && (ErrorPath(k.pc) ==> k.cut.Some?)
          && (k.pc == Unlocking(true) ==> Carries(hist, w, k.frames, k.obj.liveSeq))
          && if k.pc.Sending? && k.pc.stage.SendsWelcome? then
               && k.obj.liveSeq == w.next && k.pc.frame == welcome
               && k.frames == if k.pc.rest == [] then [welcome] else []
             else if k.pc.Sending? && k.pc.stage.SendsReplay? then
               && k.obj.liveSeq == w.next && k.pc.frame == ReplayFrame(w)
               && k.frames == if k.pc.rest == [] then [welcome, ReplayFrame(w)] else [welcome]
             else
               || Carries(hist, w, k.frames, Through(pty, c, k))
               || (k.cut.Some? && (k.frames == [] || k.frames == [welcome])))
    && (k.pc.Sending? && k.pc.stage.SendsError? ==> k.pc.frame.kind == ERROR)
    && (TurnIs(pty, c) && pty.phase.SendingOut? ==>
          pty.phase.frame == StreamFrame(STDOUT, pty.start, pty.chunk))
  }

  ghost predicate Lives(s: State) {
    forall c :: c in s.conns ==> LiveOk(s.pty, |s.hist|, c, s.conns[c])
  }

  ghost predicate Streams(env: Env, s: State) {
    forall c :: c in s.conns ==> StreamOk(s.hist, env.cap, s.pty, c, s.conns[c])
  }

  // ---------------------------------------------------------------- Chains

  lemma {:induction false} ChainGrows(hist: seq<byte>, more: seq<byte>, fs: seq<Frame>, from: nat, upto: nat)
    requires Chain(hist, fs, from, upto)
    ensures Chain(hist + more, fs, from, upto)
    decreases |fs|
  {
    if fs != [] {
      var start := upto - (|fs[|fs| - 1].payload| - 8);
      assert (hist + more)[start..upto] == hist[start..upto];
      ChainGrows(hist, more, fs[..|fs| - 1], from, start);
    }
  }

  lemma {:induction false} ChainBounds(hist: seq<byte>, fs: seq<Frame>, from: nat, upto: nat)
    requires Chain(hist, fs, from, upto)
    ensures from <= upto <= |hist|
    decreases |fs|
  {
    if fs != [] {
      ChainBounds(hist, fs[..|fs| - 1], from, upto - (|fs[|fs| - 1].payload| - 8));
    }
  }

  lemma CarriesGrows(hist: seq<byte>, more: seq<byte>, w: R.Window, fs: seq<Frame>, upto: nat)
    requires Carries(hist, w, fs, upto)
    ensures Carries(hist + more, w, fs, upto)
  {
    ChainGrows(hist, more, fs[2..], w.next, upto);
  }

  lemma CarriesMore(hist: seq<byte>, w: R.Window, fs: seq<Frame>, start: nat, chunk: seq<byte>)
    requires Carries(hist, w, fs, start) && ChunkOk(hist, start, chunk)
    ensures Carries(hist, w, fs + [StreamFrame(STDOUT, start, chunk)], |hist|)
  {
    hide ToBE;
    var f := StreamFrame(STDOUT, start, chunk);
    ChainBounds(hist, fs[2..], w.next, start);
    assert (fs + [f])[2..] == fs[2..] + [f];
    assert (fs[2..] + [f])[..|fs[2..]|] == fs[2..];
    assert hist[start..|hist|] == hist[start..];
  }

  // ---------------------------------------------------------------- Steps of a connection's own thread

  lemma OwnLive(env: Env, hist: seq<byte>, ring: R.RingState, clientsMu: Lock, ringMu: Lock, pty: PtyPc,
                listed: bool, c: ConnId, k: Conn, o: OwnStep)
    requires R.Represents(ring, hist) && RefsOk(listed, pty, c, k)
    requires LiveOk(pty, |hist|, c, k) && CanOwn(env, ring, clientsMu, ringMu, k, o)
    ensures LiveOk(pty, |hist|, c, OwnConn(env, ring, clientsMu, ringMu, c, k, o))
  {
    assert Pending(pty, c) ==> Pinned(pty, c);
    if o.FinishClient? {
      FinishReleases(k.obj, Pinned(pty, c));
    }
  }

  // Each lemma below is about some of the steps; OwnStream puts them together.

  predicate WaitStep(o: OwnStep) {
    o.Admit? || o.Reject? || o.Quit? || o.LockClients? || o.LockWrite? || o.LockRingMu?
  }

  lemma StreamWaits(env: Env, hist: seq<byte>, ring: R.RingState, clientsMu: Lock, ringMu: Lock, pty: PtyPc,
                listed: bool, c: ConnId, k: Conn, o: OwnStep)
    requires RefsOk(listed, pty, c, k) && StreamOk(hist, env.cap, pty, c, k)
    requires CanOwn(env, ring, clientsMu, ringMu, k, o)
    requires WaitStep(o)
    ensures StreamOk(hist, env.cap, pty, c, OwnConn(env, ring, clientsMu, ringMu, c, k, o))
  {
    hide Encode, EncodeAll, Chain;
  }

  lemma StreamFinishes(env: Env, hist: seq<byte>, ring: R.RingState, clientsMu: Lock, ringMu: Lock, pty: PtyPc,
                listed: bool, c: ConnId, k: Conn, o: OwnStep)
    requires RefsOk(listed, pty, c, k) && StreamOk(hist, env.cap, pty, c, k)
    requires CanOwn(env, ring, clientsMu, ringMu, k, o)
    requires o.FinishClient?
    ensures StreamOk(hist, env.cap, pty, c, OwnConn(env, ring, clientsMu, ringMu, c, k, o))
  {
    hide Encode, EncodeAll, Chain;
    FinishReleases(k.obj, Pinned(pty, c));
  }

  lemma StreamSnapshots(env: Env, hist: seq<byte>, ring: R.RingState, clientsMu: Lock, ringMu: Lock, pty: PtyPc,
                listed: bool, c: ConnId, k: Conn, o: OwnStep)
    requires RefsOk(listed, pty, c, k) && StreamOk(hist, env.cap, pty, c, k)
    requires CanOwn(env, ring, clientsMu, ringMu, k, o)
    requires |ring.buf| == env.cap && R.Represents(ring, hist)
    requires o.SnapshotRing?
    ensures StreamOk(hist, env.cap, pty, c, OwnConn(env, ring, clientsMu, ringMu, c, k, o))
  {
    R.SnapshotIsHistory(ring, hist, Requested(k.first));
  }

  lemma StreamPublishes(env: Env, hist: seq<byte>, ring: R.RingState, clientsMu: Lock, ringMu: Lock, pty: PtyPc,
                listed: bool, c: ConnId, k: Conn, o: OwnStep)
    requires RefsOk(listed, pty, c, k) && StreamOk(hist, env.cap, pty, c, k)
    requires CanOwn(env, ring, clientsMu, ringMu, k, o)
    requires LockOk(clientsMu, ringMu, pty, c, k)
    requires o.Publish?
    ensures StreamOk(hist, env.cap, pty, c, OwnConn(env, ring, clientsMu, ringMu, c, k, o))
  {
  }

  lemma StreamUnlocks(env: Env, hist: seq<byte>, ring: R.RingState, clientsMu: Lock, ringMu: Lock, pty: PtyPc,
                listed: bool, c: ConnId, k: Conn, o: OwnStep)
    requires RefsOk(listed, pty, c, k) && StreamOk(hist, env.cap, pty, c, k)
    requires CanOwn(env, ring, clientsMu, ringMu, k, o)
    requires LockOk(clientsMu, ringMu, pty, c, k)
    requires o.Unlock? || o.LockError?
    ensures StreamOk(hist, env.cap, pty, c, OwnConn(env, ring, clientsMu, ringMu, c, k, o))
  {
    hide Encode, EncodeAll, Chain;
  }

  lemma StreamWrites(env: Env, hist: seq<byte>, ring: R.RingState, clientsMu: Lock, ringMu: Lock, pty: PtyPc,
                listed: bool, c: ConnId, k: Conn, o: OwnStep)
    requires RefsOk(listed, pty, c, k) && StreamOk(hist, env.cap, pty, c, k)
    requires CanOwn(env, ring, clientsMu, ringMu, k, o)
    requires LockOk(clientsMu, ringMu, pty, c, k)
    requires WireOf(pty, c, k)
    requires o.Write?
    ensures StreamOk(hist, env.cap, pty, c, OwnConn(env, ring, clientsMu, ringMu, c, k, o))
  {
    hide Encode, EncodeAll, Chain;
    if k.obj.authenticated {
      assert k.cut.None?;
      assert o.n == |k.pc.rest| <==> k.pc.rest[o.n..] == [];
    }
  }

  lemma StreamSent(env: Env, hist: seq<byte>, ring: R.RingState, clientsMu: Lock, ringMu: Lock, pty: PtyPc,
                listed: bool, c: ConnId, k: Conn, o: OwnStep)
    requires RefsOk(listed, pty, c, k) && StreamOk(hist, env.cap, pty, c, k)
    requires CanOwn(env, ring, clientsMu, ringMu, k, o)
    requires LockOk(clientsMu, ringMu, pty, c, k)
    requires WireOf(pty, c, k)
    requires Good(env)
    requires o.Sent?
    ensures StreamOk(hist, env.cap, pty, c, OwnConn(env, ring, clientsMu, ringMu, c, k, o))
  {
    hide EncodeAll;
  }

  lemma StreamWriteFails(env: Env, hist: seq<byte>, ring: R.RingState, clientsMu: Lock, ringMu: Lock, pty: PtyPc,
                listed: bool, c: ConnId, k: Conn, o: OwnStep)
    requires RefsOk(listed, pty, c, k) && StreamOk(hist, env.cap, pty, c, k)
    requires CanOwn(env, ring, clientsMu, ringMu, k, o)
    requires LockOk(clientsMu, ringMu, pty, c, k)
    requires o.WriteFails?
    ensures StreamOk(hist, env.cap, pty, c, OwnConn(env, ring, clientsMu, ringMu, c, k, o))
  {
    hide Encode, EncodeAll, Chain;
  }

  lemma OwnStream(env: Env, hist: seq<byte>, ring: R.RingState, clientsMu: Lock, ringMu: Lock, pty: PtyPc,
                listed: bool, c: ConnId, k: Conn, o: OwnStep)
    requires Good(env)
    requires |ring.buf| == env.cap && R.Represents(ring, hist)
    requires RefsOk(listed, pty, c, k) && StreamOk(hist, env.cap, pty, c, k)
    requires CanOwn(env, ring, clientsMu, ringMu, k, o)
    requires LockOk(clientsMu, ringMu, pty, c, k)
    requires WireOf(pty, c, k)
    ensures StreamOk(hist, env.cap, pty, c, OwnConn(env, ring, clientsMu, ringMu, c, k, o))
  {
    if WaitStep(o) {
      StreamWaits(env, hist, ring, clientsMu, ringMu, pty, listed, c, k, o);
    } else if o.FinishClient? {
      StreamFinishes(env, hist, ring, clientsMu, ringMu, pty, listed, c, k, o);
    } else if o.SnapshotRing? {
      StreamSnapshots(env, hist, ring, clientsMu, ringMu, pty, listed, c, k, o);
    } else if o.Publish? {
      StreamPublishes(env, hist, ring, clientsMu, ringMu, pty, listed, c, k, o);
    } else if o.Unlock? || o.LockError? {
      StreamUnlocks(env, hist, ring, clientsMu, ringMu, pty, listed, c, k, o);
    } else if o.Write? {
      StreamWrites(env, hist, ring, clientsMu, ringMu, pty, listed, c, k, o);
    } else if o.Sent? {
      StreamSent(env, hist, ring, clientsMu, ringMu, pty, listed, c, k, o);
    } else {
      StreamWriteFails(env, hist, ring, clientsMu, ringMu, pty, listed, c, k, o);
    }
  }

  lemma OwnLives(env: Env, s: State, c: ConnId, o: OwnStep)
    requires Safe(env, s) && Lives(s) && Can(env, s, Own(c, o))
    ensures Lives(DoOwn(env, s, c, o))
  {
    hide OwnConn, CanOwn, LockOk, RefsOk, WireOf, LiveOk, Unlink, NoDup;
    var s', k := DoOwn(env, s, c, o), s.conns[c];
    assert RefsOk(c in s.list, s.pty, c, k) && LiveOk(s.pty, |s.hist|, c, k);
    OwnLive(env, s.hist, s.ring, s.clientsMu, s.ringMu, s.pty, c in s.list, c, k, o);
    forall d | d in s'.conns
      ensures LiveOk(s'.pty, |s'.hist|, d, s'.conns[d])
    {
      assert d in s.conns && LiveOk(s.pty, |s.hist|, d, s.conns[d]);
    }
  }

  lemma OwnStreams(env: Env, s: State, c: ConnId, o: OwnStep)
    requires Good(env) && Safe(env, s) && Streams(env, s) && Can(env, s, Own(c, o))
    ensures Streams(env, DoOwn(env, s, c, o))
  {
    hide OwnConn, CanOwn, LockOk, RefsOk, WireOf, StreamOk, Unlink, NoDup;
    var s', k := DoOwn(env, s, c, o), s.conns[c];
    assert LockOk(s.clientsMu, s.ringMu, s.pty, c, k) && RefsOk(c in s.list, s.pty, c, k) && WireOf(s.pty, c, k);
    assert StreamOk(s.hist, env.cap, s.pty, c, k);
    OwnStream(env, s.hist, s.ring, s.clientsMu, s.ringMu, s.pty, c in s.list, c, k, o);
    forall d | d in s'.conns
      ensures StreamOk(s'.hist, env.cap, s'.pty, d, s'.conns[d])
    {
      assert d in s.conns && StreamOk(s.hist, env.cap, s.pty, d, s.conns[d]);
    }
  }

  // ---------------------------------------------------------------- Turns of a broadcast

  /** While a chunk is in hand only its boundaries are live_seq values, so the trim of a broadcast never
      cuts a chunk: a client is sent all of it or nothing. */
  lemma NothingIsTrimmed(pty: PtyPc, total: nat, c: ConnId, k: Conn)
    requires LiveOk(pty, total, c, k) && k.obj.authenticated
    requires TurnIs(pty, c) && pty.phase.InWrite? && total == pty.start + |pty.chunk|
    ensures StdoutFor(k.obj.liveSeq, pty.start, pty.chunk)
            == if k.obj.liveSeq == pty.start && pty.chunk != [] then Some(StreamFrame(STDOUT, pty.start, pty.chunk))
               else None
  {
    assert pty.snap[pty.i..][0] == c;
    assert pty.chunk[0..] == pty.chunk;
  }

  lemma TurnLive(env: Env, clientsMu: Lock, pty: PtyPc, total: nat, listed: bool, c: ConnId, k: Conn, t: TurnStep)
    requires !env.allocFails
    requires TurnAt(pty, c) && CanTurn(env, clientsMu, pty, k, t) && total == pty.start + |pty.chunk|
    requires RefsOk(listed, pty, c, k) && LiveOk(pty, total, c, k)
    ensures LiveOk(TurnPty(env, clientsMu, pty, k, t), total, c, TurnConn(env, clientsMu, pty, k, t))
  {
    assert Pinned(pty, c) && pty.snap[pty.i..][0] == c;
    assert c !in pty.snap[pty.i + 1..];
    if t.TDecide? {
      NothingIsTrimmed(pty, total, c, k);
    } else if t.TMarkDead? {
      AbandonReleases(k.obj, Bit(!k.pc.Finished?) + 1);
    }
  }

  lemma TurnLiveOther(env: Env, clientsMu: Lock, pty: PtyPc, total: nat, c: ConnId, k: Conn, t: TurnStep,
                      d: ConnId, kd: Conn)
    requires TurnAt(pty, c) && CanTurn(env, clientsMu, pty, k, t) && total == pty.start + |pty.chunk|
    requires LiveOk(pty, total, d, kd) && d != c
    ensures LiveOk(TurnPty(env, clientsMu, pty, k, t), total, d, kd)
  {
    assert pty.snap[pty.i..] == [c] + pty.snap[pty.i + 1..];
    assert d in pty.snap[pty.i..] <==> d in pty.snap[pty.i + 1..];
  }

  lemma TurnStreamWrite(env: Env, hist: seq<byte>, clientsMu: Lock, ringMu: Lock, pty: PtyPc, listed: bool, c: ConnId,
                   k: Conn, t: TurnStep)
    requires TurnAt(pty, c) && CanTurn(env, clientsMu, pty, k, t) && ChunkOk(hist, pty.start, pty.chunk)
    requires !env.allocFails
    requires RefsOk(listed, pty, c, k) && LockOk(clientsMu, ringMu, pty, c, k) && WireOf(pty, c, k)
    requires LiveOk(pty, |hist|, c, k) && StreamOk(hist, env.cap, pty, c, k)
    requires t.TWrite?
    ensures StreamOk(hist, env.cap, TurnPty(env, clientsMu, pty, k, t), c, TurnConn(env, clientsMu, pty, k, t))
  {
    assert Pinned(pty, c) && pty.snap[pty.i..][0] == c;
    assert k.cut.None?;
    assert t.n == |pty.phase.rest| <==> pty.phase.rest[t.n..] == [];
    if t.n == |pty.phase.rest| {
      TurnFrameDone(hist, env.cap, pty, c, k, TurnConn(env, clientsMu, pty, k, t), TurnPty(env, clientsMu, pty, k, t));
    }
  }

  /** The last byte of a broadcast's frame extends what the connection carries by the chunk. */
  lemma TurnFrameDone(hist: seq<byte>, cap: nat, pty: PtyPc, c: ConnId, k: Conn, k': Conn, pty': PtyPc)
    requires TurnIs(pty, c) && pty.phase.SendingOut? && pty.phase.rest != [] && ChunkOk(hist, pty.start, pty.chunk)
    requires StreamOk(hist, cap, pty, c, k) && k.obj.authenticated && k.window.Some? && k.cut.None?
    requires !k.pc.Sending? && k.pc != Unlocking(true) && k.obj.liveSeq == pty.start
    requires k' == k.(wire := k'.wire, frames := k.frames + [pty.phase.frame])
    requires pty' == pty.(phase := SendingOut(pty.phase.frame, []))
    ensures StreamOk(hist, cap, pty', c, k')
  {
    CarriesMore(hist, k.window.value, k.frames, pty.start, pty.chunk);
  }

  lemma TurnStreamDecide(env: Env, hist: seq<byte>, clientsMu: Lock, ringMu: Lock, pty: PtyPc, listed: bool, c: ConnId,
                   k: Conn, t: TurnStep)
    requires TurnAt(pty, c) && CanTurn(env, clientsMu, pty, k, t) && ChunkOk(hist, pty.start, pty.chunk)
    requires !env.allocFails
    requires RefsOk(listed, pty, c, k) && LockOk(clientsMu, ringMu, pty, c, k) && WireOf(pty, c, k)
    requires LiveOk(pty, |hist|, c, k) && StreamOk(hist, env.cap, pty, c, k)
    requires t.TDecide?
    ensures StreamOk(hist, env.cap, TurnPty(env, clientsMu, pty, k, t), c, TurnConn(env, clientsMu, pty, k, t))
  {
    NothingIsTrimmed(pty, |hist|, c, k);
  }

  lemma TurnStreamMark(env: Env, hist: seq<byte>, clientsMu: Lock, ringMu: Lock, pty: PtyPc, listed: bool, c: ConnId,
                   k: Conn, t: TurnStep)
    requires TurnAt(pty, c) && CanTurn(env, clientsMu, pty, k, t) && ChunkOk(hist, pty.start, pty.chunk)
    requires !env.allocFails
    requires RefsOk(listed, pty, c, k) && LockOk(clientsMu, ringMu, pty, c, k) && WireOf(pty, c, k)
    requires LiveOk(pty, |hist|, c, k) && StreamOk(hist, env.cap, pty, c, k)
    requires t.TMarkDead?
    ensures StreamOk(hist, env.cap, TurnPty(env, clientsMu, pty, k, t), c, TurnConn(env, clientsMu, pty, k, t))
  {
    hide Encode, EncodeAll, Chain;
    assert Pinned(pty, c);
    AbandonReleases(k.obj, Bit(!k.pc.Finished?) + 1);
  }

  lemma TurnStreamLocks(env: Env, hist: seq<byte>, clientsMu: Lock, ringMu: Lock, pty: PtyPc, listed: bool, c: ConnId,
                   k: Conn, t: TurnStep)
    requires TurnAt(pty, c) && CanTurn(env, clientsMu, pty, k, t) && ChunkOk(hist, pty.start, pty.chunk)
    requires !env.allocFails
    requires RefsOk(listed, pty, c, k) && LockOk(clientsMu, ringMu, pty, c, k) && WireOf(pty, c, k)
    requires LiveOk(pty, |hist|, c, k) && StreamOk(hist, env.cap, pty, c, k)
    requires t.TLockWrite? || t.TUnlock?
    ensures StreamOk(hist, env.cap, TurnPty(env, clientsMu, pty, k, t), c, TurnConn(env, clientsMu, pty, k, t))
  {
    hide Encode, EncodeAll, Chain;
    assert Pinned(pty, c) && pty.snap[pty.i..][0] == c;
  }

  lemma TurnStreamSent(env: Env, hist: seq<byte>, clientsMu: Lock, ringMu: Lock, pty: PtyPc, listed: bool, c: ConnId,
                   k: Conn, t: TurnStep)
    requires TurnAt(pty, c) && CanTurn(env, clientsMu, pty, k, t) && ChunkOk(hist, pty.start, pty.chunk)
    requires !env.allocFails
    requires RefsOk(listed, pty, c, k) && LockOk(clientsMu, ringMu, pty, c, k) && WireOf(pty, c, k)
    requires LiveOk(pty, |hist|, c, k) && StreamOk(hist, env.cap, pty, c, k)
    requires t.TSent?
    ensures StreamOk(hist, env.cap, TurnPty(env, clientsMu, pty, k, t), c, TurnConn(env, clientsMu, pty, k, t))
  {
    hide Encode, EncodeAll, Chain;
    assert Pinned(pty, c) && pty.snap[pty.i..][0] == c;
  }

  lemma TurnStreamFails(env: Env, hist: seq<byte>, clientsMu: Lock, ringMu: Lock, pty: PtyPc, listed: bool, c: ConnId,
                   k: Conn, t: TurnStep)
    requires TurnAt(pty, c) && CanTurn(env, clientsMu, pty, k, t) && ChunkOk(hist, pty.start, pty.chunk)
    requires !env.allocFails
    requires RefsOk(listed, pty, c, k) && LockOk(clientsMu, ringMu, pty, c, k) && WireOf(pty, c, k)
    requires LiveOk(pty, |hist|, c, k) && StreamOk(hist, env.cap, pty, c, k)
    requires t.TWriteFails?
    ensures StreamOk(hist, env.cap, TurnPty(env, clientsMu, pty, k, t), c, TurnConn(env, clientsMu, pty, k, t))
  {
    hide Encode, EncodeAll, Chain;
    assert Pinned(pty, c) && pty.snap[pty.i..][0] == c;
  }

  lemma TurnStream(env: Env, hist: seq<byte>, clientsMu: Lock, ringMu: Lock, pty: PtyPc, listed: bool, c: ConnId,
                   k: Conn, t: TurnStep)
    requires TurnAt(pty, c) && CanTurn(env, clientsMu, pty, k, t) && ChunkOk(hist, pty.start, pty.chunk)
    requires !env.allocFails
    requires RefsOk(listed, pty, c, k) && LockOk(clientsMu, ringMu, pty, c, k) && WireOf(pty, c, k)
    requires LiveOk(pty, |hist|, c, k) && StreamOk(hist, env.cap, pty, c, k)
    ensures StreamOk(hist, env.cap, TurnPty(env, clientsMu, pty, k, t), c, TurnConn(env, clientsMu, pty, k, t))
  {
    if t.TWrite? {
      TurnStreamWrite(env, hist, clientsMu, ringMu, pty, listed, c, k, t);
    } else if t.TDecide? {
      TurnStreamDecide(env, hist, clientsMu, ringMu, pty, listed, c, k, t);
    } else if t.TMarkDead? {
      TurnStreamMark(env, hist, clientsMu, ringMu, pty, listed, c, k, t);
    } else if t.TSent? {
      TurnStreamSent(env, hist, clientsMu, ringMu, pty, listed, c, k, t);
    } else if t.TWriteFails? {
      TurnStreamFails(env, hist, clientsMu, ringMu, pty, listed, c, k, t);
    } else {
      TurnStreamLocks(env, hist, clientsMu, ringMu, pty, listed, c, k, t);
    }
  }

  lemma TurnStreamOther(env: Env, hist: seq<byte>, clientsMu: Lock, pty: PtyPc, c: ConnId, k: Conn, t: TurnStep,
                        d: ConnId, kd: Conn)
    requires TurnAt(pty, c) && CanTurn(env, clientsMu, pty, k, t) && d != c
    requires StreamOk(hist, env.cap, pty, d, kd)
    ensures StreamOk(hist, env.cap, TurnPty(env, clientsMu, pty, k, t), d, kd)
  {
    var pty' := TurnPty(env, clientsMu, pty, k, t);
    assert Through(pty', d, kd) == Through(pty, d, kd);
    assert !(TurnIs(pty', d) && pty'.phase.SendingOut?);
  }

  lemma TurnLives(env: Env, s: State, t: TurnStep)
    requires !env.allocFails && Safe(env, s) && Lives(s) && Can(env, s, Turn(t))
    ensures Lives(DoTurn(env, s, t))
  {
    hide TurnConn, TurnPty, CanTurn, LockOk, RefsOk, WireOf, LiveOk, Unlink;
    var s', c := DoTurn(env, s, t), TurnOf(s.pty);
    var k := s.conns[c];
    assert RefsOk(c in s.list, s.pty, c, k) && LiveOk(s.pty, |s.hist|, c, k);
    TurnLive(env, s.clientsMu, s.pty, |s.hist|, c in s.list, c, k, t);
    forall d | d in s'.conns
      ensures LiveOk(s'.pty, |s'.hist|, d, s'.conns[d])
    {
      if d != c {
        assert LiveOk(s.pty, |s.hist|, d, s.conns[d]);
        TurnLiveOther(env, s.clientsMu, s.pty, |s.hist|, c, k, t, d, s.conns[d]);
      }
    }
  }

  lemma TurnStreams(env: Env, s: State, t: TurnStep)
    requires Good(env) && Safe(env, s) && Lives(s) && Streams(env, s) && Can(env, s, Turn(t))
    ensures Streams(env, DoTurn(env, s, t))
  {
    hide TurnConn, TurnPty, CanTurn, LockOk, RefsOk, WireOf, LiveOk, StreamOk, Unlink;
    var s', c := DoTurn(env, s, t), TurnOf(s.pty);
    var k := s.conns[c];
    assert LockOk(s.clientsMu, s.ringMu, s.pty, c, k) && RefsOk(c in s.list, s.pty, c, k) && WireOf(s.pty, c, k);
    assert LiveOk(s.pty, |s.hist|, c, k) && StreamOk(s.hist, env.cap, s.pty, c, k);
    TurnStream(env, s.hist, s.clientsMu, s.ringMu, s.pty, c in s.list, c, k, t);
    forall d | d in s'.conns
      ensures StreamOk(s'.hist, env.cap, s'.pty, d, s'.conns[d])
    {
      if d != c {
        assert StreamOk(s.hist, env.cap, s.pty, d, s.conns[d]);
        TurnStreamOther(env, s.hist, s.clientsMu, s.pty, c, k, t, d, s.conns[d]);
      }
    }
  }

  // ---------------------------------------------------------------- Other steps of the PTY thread

  lemma StreamGrows(hist: seq<byte>, more: seq<byte>, cap: nat, pty: PtyPc, pty': PtyPc, c: ConnId, k: Conn)
    requires StreamOk(hist, cap, pty, c, k)
    requires !pty.Broadcasting? && !pty'.Broadcasting?
    ensures StreamOk(hist + more, cap, pty', c, k)
  {
    if k.window.Some? {
      var w := k.window.value;
      assert (hist + more)[w.from..w.next] == hist[w.from..w.next];
      if Carries(hist, w, k.frames, k.obj.liveSeq) {
        CarriesGrows(hist, more, w, k.frames, k.obj.liveSeq);
      }
    }
  }

  /** The list snapshot leaves out only clients that attached after the append, or that are gone. */
  lemma SnapshotLeavesOut(env: Env, s: State, c: ConnId)
    requires Safe(env, s) && CanPty(env, s, TakeSnapshot) && c in s.conns
    ensures var k, pty' := s.conns[c], DoPty(env, s, TakeSnapshot).pty;
            && !k.pc.Snapped?
            && (pty' == Reading
                || (pty'.Broadcasting? && pty'.start == s.pty.start && pty'.i == 0 && pty'.phase.WantWriteMu?))
            && (k.obj.authenticated && !k.obj.dead ==> pty'.Broadcasting? && c in pty'.snap)
            && (k.obj.dead ==> pty'.Reading? || c !in pty'.snap)
  {
    hide WireOf, NoDup, Pin, Filter;
    assert LockOk(s.clientsMu, s.ringMu, s.pty, c, s.conns[c]) && RefsOk(c in s.list, s.pty, c, s.conns[c]);
    assert c in LiveSet(s) <==> c in LiveList(s);
  }

  lemma PtyLive(s: State, p: PtyStep, env: Env, c: ConnId)
    requires !env.allocFails && Safe(env, s) && CanPty(env, s, p) && c in s.conns
    requires LiveOk(s.pty, |s.hist|, c, s.conns[c])
    ensures var s' := DoPty(env, s, p); c in s'.conns && LiveOk(s'.pty, |s'.hist|, c, s'.conns[c])
  {
    PtyConn(env, s, p, c);
    if p.TakeSnapshot? {
      SnapshotLeavesOut(env, s, c);
      SnapshotLive(|s.hist|, s.pty, DoPty(env, s, p).pty, c, s.conns[c], DoPty(env, s, p).conns[c]);
    } else {
      assert LockOk(s.clientsMu, s.ringMu, s.pty, c, s.conns[c]);
      hide LockOk, RefsOk, WireOf, NoDup, R.Append, R.Represents, Unpin, Pin, LiveList;
    }
  }

  lemma PtyLives(env: Env, s: State, p: PtyStep)
    requires !env.allocFails && Safe(env, s) && Lives(s) && CanPty(env, s, p)
    ensures Lives(DoPty(env, s, p))
  {
    hide Safe, LiveOk, DoPty, CanPty;
    forall c | c in DoPty(env, s, p).conns
      ensures LiveOk(DoPty(env, s, p).pty, |DoPty(env, s, p).hist|, c, DoPty(env, s, p).conns[c])
    {
      PtyKeys(env, s, p);
      PtyLive(s, p, env, c);
    }
  }

  lemma SnapshotLive(total: nat, pty: PtyPc, pty': PtyPc, c: ConnId, k: Conn, k': Conn)
    requires pty.Appended? && LiveOk(pty, total, c, k)
    requires pty' == Reading
             || (pty'.Broadcasting? && pty'.start == pty.start && pty'.i == 0 && pty'.phase.WantWriteMu?)
    requires k' == k.(obj := k.obj.(refs := k'.obj.refs, frees := k'.obj.frees)) && !k.pc.Snapped?
    requires k.obj.authenticated && !k.obj.dead ==> pty'.Broadcasting? && c in pty'.snap
    requires k.obj.dead ==> pty'.Reading? || c !in pty'.snap
    ensures LiveOk(pty', total, c, k')
  {
    if pty'.Broadcasting? {
      assert pty'.snap[0..] == pty'.snap;
    }
  }

  /** No turn of a broadcast is under way for the connection before or after the step. */
  lemma QuietStream(hist: seq<byte>, cap: nat, pty: PtyPc, pty': PtyPc, c: ConnId, k: Conn, k': Conn)
    requires StreamOk(hist, cap, pty, c, k)
    requires !(TurnIs(pty, c) && pty.phase.SendingOut?) && !(TurnIs(pty', c) && pty'.phase.SendingOut?)
    requires k' == k.(obj := k.obj.(refs := k'.obj.refs, frees := k'.obj.frees))
    ensures StreamOk(hist, cap, pty', c, k')
  {
    hide Chain, WindowOk;
  }

  lemma PtySends(env: Env, s: State, p: PtyStep, c: ConnId)
    requires Safe(env, s) && CanPty(env, s, p)
    ensures !(TurnIs(s.pty, c) && s.pty.phase.SendingOut?)
    ensures var pty' := DoPty(env, s, p).pty; !(TurnIs(pty', c) && pty'.phase.SendingOut?)
  {
    hide Locks, Refs, Output, Wires, Pin, Unpin, R.Append, Filter;
  }

  lemma PtyHist(env: Env, s: State, p: PtyStep)
    requires CanPty(env, s, p)
    ensures DoPty(env, s, p).hist == if p.Append? then s.hist + s.pty.chunk else s.hist
    ensures p.Append? ==>
              !s.pty.Broadcasting? && !DoPty(env, s, p).pty.Broadcasting? && DoPty(env, s, p).conns == s.conns
  {
    hide R.Append, Filter;
  }

  lemma PtyStream(env: Env, s: State, p: PtyStep, c: ConnId)
    requires Safe(env, s) && CanPty(env, s, p) && c in s.conns && StreamOk(s.hist, env.cap, s.pty, c, s.conns[c])
    ensures var s' := DoPty(env, s, p); c in s'.conns && StreamOk(s'.hist, env.cap, s'.pty, c, s'.conns[c])
  {
    PtyConn(env, s, p, c);
    PtySends(env, s, p, c);
    PtyHist(env, s, p);
    hide Safe, StreamOk, DoPty, CanPty;
    if p.Append? {
      StreamGrows(s.hist, s.pty.chunk, env.cap, s.pty, DoPty(env, s, p).pty, c, s.conns[c]);
    } else {
      QuietStream(s.hist, env.cap, s.pty, DoPty(env, s, p).pty, c, s.conns[c], DoPty(env, s, p).conns[c]);
    }
  }

  lemma PtyStreams(env: Env, s: State, p: PtyStep)
    requires Safe(env, s) && Streams(env, s) && CanPty(env, s, p)
    ensures Streams(env, DoPty(env, s, p))
  {
    hide Safe, StreamOk, DoPty, CanPty;
    forall c | c in DoPty(env, s, p).conns
      ensures StreamOk(DoPty(env, s, p).hist, env.cap, DoPty(env, s, p).pty, c, DoPty(env, s, p).conns[c])
    {
      PtyKeys(env, s, p);
      PtyStream(env, s, p, c);
    }
  }

  // ---------------------------------------------------------------- Arrivals and breakage

  lemma NewConnOk(hist: seq<byte>, cap: nat, pty: PtyPc, c: ConnId, first: FirstFrame)
    requires !TurnIs(pty, c)
    ensures LiveOk(pty, |hist|, c, NewConn(first)) && StreamOk(hist, cap, pty, c, NewConn(first))
  {
  }

  lemma Arrival(env: Env, s: State, c: ConnId, first: FirstFrame)
    requires Safe(env, s) && CanArrive(s, c)
    ensures Lives(s) ==> Lives(Arrive(env, s, c, first))
    ensures Streams(env, s) ==> Streams(env, Arrive(env, s, c, first))
  {
    assert !TurnIs(s.pty, c);
    NewConnOk(s.hist, env.cap, s.pty, c, first);
    hide Safe, LiveOk, StreamOk;
  }

  lemma BrokenOk(hist: seq<byte>, cap: nat, pty: PtyPc, c: ConnId, k: Conn)
    ensures LiveOk(pty, |hist|, c, k) ==> LiveOk(pty, |hist|, c, k.(broken := true))
    ensures StreamOk(hist, cap, pty, c, k) ==> StreamOk(hist, cap, pty, c, k.(broken := true))
  {
    hide Chain, WindowOk;
  }

  lemma Breaks(env: Env, s: State, conns: map<ConnId, Conn>)
    requires Broken(s.conns, conns)
    ensures Lives(s) ==> Lives(s.(conns := conns))
    ensures Streams(env, s) ==> Streams(env, s.(conns := conns))
  {
    hide LiveOk, StreamOk;
    forall c | c in conns
      ensures LiveOk(s.pty, |s.hist|, c, s.conns[c]) ==> LiveOk(s.pty, |s.hist|, c, conns[c])
      ensures StreamOk(s.hist, env.cap, s.pty, c, s.conns[c]) ==> StreamOk(s.hist, env.cap, s.pty, c, conns[c])
    {
      BrokenOk(s.hist, env.cap, s.pty, c, s.conns[c]);
    }
  }

  /** A step of a client program is an arrival, or leaves the server alone. */
  lemma ClientAtServer(env: Env, s: State, p: PeerId, q: PeerStep)
    requires CanPeer(s, p, q)
    ensures var s' := DoPeer(env, s, p, q);
            if q.Connect? then CanArrive(s, q.c) && s' == Arrive(env, s, q.c, s'.conns[q.c].first).(peers := s'.peers)
            else s' == s.(peers := s'.peers)
  {
    hide Receive, ProcessServerFrame, OutputStops, StreamOf;
  }

  lemma ClientDelivers(env: Env, s: State, p: PeerId, q: PeerStep)
    requires Safe(env, s) && CanPeer(s, p, q)
    ensures Lives(s) ==> Lives(DoPeer(env, s, p, q))
    ensures Streams(env, s) ==> Streams(env, DoPeer(env, s, p, q))
  {
    ClientAtServer(env, s, p, q);
    hide Safe, LiveOk, StreamOk, DoPeer, CanPeer, CanArrive;
    if q.Connect? {
      Arrival(env, s, q.c, DoPeer(env, s, p, q).conns[q.c].first);
    }
  }

  /** While allocations succeed, whatever the ring's capacity, every step keeps the sequence numbers. */
  lemma LivesNext(env: Env, s: State, step: Step)
    requires !env.allocFails && Safe(env, s) && Lives(s) && Can(env, s, step)
    ensures Lives(Do(env, s, step))
  {
    hide Safe, LiveOk, StreamOk, DoPty, DoTurn, DoOwn, DoPeer, CanPty, CanTurn, CanOwn, CanPeer, Arrive;
    match step
    case Pty(p) => PtyLives(env, s, p);
    case Turn(t) => TurnLives(env, s, t);
    case Own(c, o) => OwnLives(env, s, c, o);
    case Accept(c, first) => Arrival(env, s, c, first);
    case StoreThread(c) =>
    case ShutdownClients => Breaks(env, s, BreakAll(s.conns, s.list));
    case Break(c) => Breaks(env, s, s.conns[c := s.conns[c].(broken := true)]);
    case Client(p, q) => ClientDelivers(env, s, p, q);
  }

  lemma StreamsNext(env: Env, s: State, step: Step)
    requires Good(env) && Safe(env, s) && Lives(s) && Streams(env, s) && Can(env, s, step)
    ensures Streams(env, Do(env, s, step))
  {
    hide Safe, LiveOk, StreamOk, DoPty, DoTurn, DoOwn, DoPeer, CanPty, CanTurn, CanOwn, CanPeer, Arrive;
    match step
    case Pty(p) => PtyStreams(env, s, p);
    case Turn(t) => TurnStreams(env, s, t);
    case Own(c, o) => OwnStreams(env, s, c, o);
    case Accept(c, first) => Arrival(env, s, c, first);
    case StoreThread(c) =>
    case ShutdownClients => Breaks(env, s, BreakAll(s.conns, s.list));
    case Break(c) => Breaks(env, s, s.conns[c := s.conns[c].(broken := true)]);
    case Client(p, q) => ClientDelivers(env, s, p, q);
  }

  lemma {:induction false} LivesRun(env: Env, steps: seq<Step>)
    requires env.cap > 0 && !env.allocFails && Run(env, steps).Some?
    ensures Lives(Run(env, steps).value)
    decreases |steps|
  {
    hide Safe, LiveOk, Can, Do;
    if steps != [] {
      var init, last := steps[..|steps| - 1], steps[|steps| - 1];
      SafeRun(env, init);
      LivesRun(env, init);
      LivesNext(env, Run(env, init).value, last);
    }
  }
}
