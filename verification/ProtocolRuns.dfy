/** Runs of the protocol: one in which a client comes back any number of times and prints everything the ring
    still has, and the ones that show exactly when a connection can have a gap. */
module ProtocolRuns {
  import opened Bytes
  import opened Framing
  import opened Messages
  import opened Clients
  import opened Protocol
  import opened ProtocolSafety
  import opened ProtocolDelivery
  import opened ProtocolPeers
  import opened ProtocolTheorems
  import R = Ring

  // ---------------------------------------------------------------- Where runs begin

  /** What surrounds a connection `c` and a client `p`: the output so far, the clients listed, and the others. */
  datatype Scene = Scene(hist: seq<byte>, ring: R.RingState, list: seq<ConnId>, others: map<ConnId, Conn>, c: ConnId,
                         peers: map<PeerId, Peer>, p: PeerId)

  /** Before the client connects. */
  function Idle(x: Scene, q: Peer): State {
    State(x.hist, x.ring, Free, Free, x.list, x.others, Reading, x.peers[x.p := q], None)
  }

  function World(x: Scene, clientsMu: Lock, ringMu: Lock, k: Conn, pty: PtyPc, q: Peer): State {
    State(x.hist, x.ring, ringMu, clientsMu, x.list, x.others[x.c := k], pty, x.peers[x.p := q], None)
  }

  function Joined(x: Scene): Scene {
    x.(list := [x.c] + x.list)
  }

  ghost predicate Keeps(env: Env, x: Scene) {
    |x.ring.buf| == env.cap > 0 && R.Represents(x.ring, x.hist) && |x.hist| < U64_LIMIT
  }

  /** The first client program is started. */
  lemma Starts(env: Env) returns (x: Scene)
    requires env.cap > 0
    ensures x == Scene([], x.ring, [], map[], 0, map[], 0) && Keeps(env, x) && Reachable(env, Idle(x, NewPeer))
  {
    x := Scene([], Init(env).ring, [], map[], 0, map[], 0);
    ReachInit(env);
    ReachNext(env, Init(env), Client(0, Start));
  }

  /** One byte more, with nobody to send it to. */
  lemma ProduceOne(env: Env, x: Scene, q: Peer, b: byte)
    requires |x.hist| + 1 < U64_LIMIT && Keeps(env, x) && x.list == [] && Reachable(env, Idle(x, q))
    ensures x.ring.base <= x.ring.next
    ensures Reachable(env, Idle(x.(hist := x.hist + [b], ring := R.Append(x.ring, [b])), q))
  {
    hide Reachable, R.Append;
    var chunk := [b];
    var s0 := Idle(x, q);
    var s1 := s0.(pty := WantRingMu(chunk));
    var s2 := s1.(pty := InRingMu(chunk), ringMu := Held(PtyThread));
    var s3 := Idle(x.(hist := x.hist + chunk, ring := R.Append(x.ring, chunk)), q).(pty := Appended(|x.hist|, chunk));
    ReachNext(env, s0, Pty(Read(chunk)));
    ReachNext(env, s1, Pty(LockRing));
    ReachNext(env, s2, Pty(Append));
    assert LiveList(s3) == [];
    ReachNext(env, s3, Pty(TakeSnapshot));
  }

  /** Any output can follow while nobody is connected. */
  lemma {:induction false} Produce(env: Env, x: Scene, q: Peer, more: seq<byte>) returns (x': Scene)
    requires |x.hist| + |more| < U64_LIMIT && Keeps(env, x) && x.list == [] && Reachable(env, Idle(x, q))
    ensures x' == x.(hist := x.hist + more, ring := x'.ring) && Keeps(env, x') && Reachable(env, Idle(x', q))
    decreases |more|
  {
    hide Reachable, R.Append, R.Represents;
    if more == [] {
      x' := x;
      assert x.hist + more == x.hist;
    } else {
      var init, b := more[..|more| - 1], more[|more| - 1];
      var before := Produce(env, x, q, init);
      ProduceOne(env, before, q, b);
      x' := before.(hist := before.hist + [b], ring := R.Append(before.ring, [b]));
      R.AppendKeepsWindow(before.ring, before.hist, [b]);
      assert x.hist + init + [b] == x.hist + more;
    }
  }

  // ---------------------------------------------------------------- Single steps

  lemma OwnMoves(env: Env, x: Scene, clientsMu: Lock, ringMu: Lock, k: Conn, pty: PtyPc, q: Peer, o: OwnStep)
    requires Reachable(env, World(x, clientsMu, ringMu, k, pty, q))
    requires CanOwn(env, x.ring, clientsMu, ringMu, k, o) && !o.FinishClient?
    ensures Reachable(env, World(x, OwnClientsMu(clientsMu, x.c, o), OwnRingMu(ringMu, x.c, o),
                                 OwnConn(env, x.ring, clientsMu, ringMu, x.c, k, o), pty, q))
  {
    var s := World(x, clientsMu, ringMu, k, pty, q);
    var k' := OwnConn(env, x.ring, clientsMu, ringMu, x.c, k, o);
    hide Reachable, CanOwn, OwnConn;
    ReachNext(env, s, Own(x.c, o));
    assert x.others[x.c := k][x.c := k'] == x.others[x.c := k'];
  }

  lemma TurnMoves(env: Env, x: Scene, k: Conn, pty: PtyPc, q: Peer, t: TurnStep)
    requires Reachable(env, World(x, Free, Free, k, pty, q))
    requires pty.Broadcasting? && pty.i < |pty.snap| && pty.snap[pty.i] == x.c
    requires CanTurn(env, Free, pty, k, t) && !t.TMarkDead?
    ensures Reachable(env, World(x, Free, Free, TurnConn(env, Free, pty, k, t), TurnPty(env, Free, pty, k, t), q))
  {
    var s := World(x, Free, Free, k, pty, q);
    var k' := TurnConn(env, Free, pty, k, t);
    hide Reachable, CanTurn, TurnConn, TurnPty;
    ReachNext(env, s, Turn(t));
    assert x.others[x.c := k][x.c := k'] == x.others[x.c := k'];
  }

  /** A frame goes out in one write. */
  lemma OwnWrites(env: Env, x: Scene, k: Conn, pty: PtyPc, q: Peer)
    requires Reachable(env, World(x, Free, Free, k, pty, q))
    requires k.pc.Sending? && k.pc.rest != [] && !k.broken
    ensures Reachable(env, World(x, Free, Free, Written(k), pty, q))
  {
    OwnMoves(env, x, Free, Free, k, pty, q, Write(|k.pc.rest|));
    assert k.pc.rest[..|k.pc.rest|] == k.pc.rest && k.pc.rest[|k.pc.rest|..] == [];
  }

  function Written(k: Conn): Conn
    requires k.pc.Sending?
  {
    k.(wire := k.wire + k.pc.rest, frames := k.frames + [k.pc.frame], pc := k.pc.(rest := []))
  }

  /** A broadcast's frame goes out in one write. */
  lemma TurnWrites(env: Env, x: Scene, k: Conn, pty: PtyPc, q: Peer)
    requires Reachable(env, World(x, Free, Free, k, pty, q))
    requires pty.Broadcasting? && pty.i < |pty.snap| && pty.snap[pty.i] == x.c
    requires pty.phase.SendingOut? && pty.phase.rest != [] && !k.broken
    ensures Reachable(env, World(x, Free, Free,
                                 k.(wire := k.wire + pty.phase.rest, frames := k.frames + [pty.phase.frame]),
                                 pty.(phase := SendingOut(pty.phase.frame, [])), q))
  {
    var rest := pty.phase.rest;
    TurnMoves(env, x, k, pty, q, TWrite(|rest|));
    assert rest[..|rest|] == rest && rest[|rest|..] == [];
  }

  lemma NextIncoming(k: Conn, taken: nat, before: seq<Frame>, f: Frame)
    requires taken == |EncodeAll(before)| && Sendable(f) && EncodeAll(before) + Encode(f) <= k.wire
    ensures var avail := |EncodeAll(before + [f])|;
            taken <= avail <= |k.wire| && Receive(k.wire[taken..avail], MAX_FRAME - 1) == Got(f, [])
  {
    hide Encode, Receive;
    EncodeAllSplit(before, [f]);
    EncodeAllOne(f);
    ReceiveInvertsEncode(f, [], MAX_FRAME - 1);
    assert k.wire[taken..taken + |Encode(f)|] == Encode(f) + [];
  }

  /** The client takes a frame once all of it has arrived. */
  lemma Takes(env: Env, x: Scene, k: Conn, pty: PtyPc, q: Peer, before: seq<Frame>, f: Frame)
    requires Reachable(env, World(x, Free, Free, k, pty, q))
    requires q.conn == Some(x.c) && !q.stopped && q.taken == |EncodeAll(before)| && Sendable(f)
    requires EncodeAll(before) + Encode(f) <= k.wire
    ensures Reachable(env, World(x, Free, Free, k, pty,
                                 ProcessServerFrame(q, f, k.window).(taken := |EncodeAll(before + [f])|)))
  {
    hide Encode, EncodeAll, Receive, ProcessServerFrame;
    var avail := |EncodeAll(before + [f])|;
    NextIncoming(k, q.taken, before, f);
    TakesAvailable(env, x, k, pty, q, f, avail);
  }

  lemma TakesAvailable(env: Env, x: Scene, k: Conn, pty: PtyPc, q: Peer, f: Frame, avail: nat)
    requires Reachable(env, World(x, Free, Free, k, pty, q)) && q.conn == Some(x.c) && !q.stopped
    requires q.taken <= avail <= |k.wire| && Receive(k.wire[q.taken..avail], MAX_FRAME - 1) == Got(f, [])
    ensures Reachable(env, World(x, Free, Free, k, pty, ProcessServerFrame(q, f, k.window).(taken := avail)))
  {
    hide Receive, ProcessServerFrame, Reachable;
    var s := World(x, Free, Free, k, pty, q);
    var q' := ProcessServerFrame(q, f, k.window).(taken := avail);
    assert Incoming(s, x.p, avail) == Got(f, []);
    ReachNext(env, s, Client(x.p, TakeFrame(avail)));
    assert x.peers[x.p := q][x.p := q'] == x.peers[x.p := q'];
  }

  /** The client takes a WELCOME and then a frame of output. */
  lemma TakesTwo(env: Env, x: Scene, k: Conn, pty: PtyPc, q: Peer, f: Frame, g: Frame, st: Stream) returns (q': Peer)
    requires Reachable(env, World(x, Free, Free, k, pty, q)) && AtStart(q, x.c)
    requires WelcomeOf(f).Some? && StreamOf(g) == Some(st) && Sendable(f) && Sendable(g)
    requires k.wire == Encode(f) + Encode(g)
    ensures Reachable(env, World(x, Free, Free, k, pty, q'))
    ensures q' == q.(out := q.out + st.data, lastSeq := Max(q.lastSeq, st.start + |st.data|), got := 2,
                     taken := |k.wire|,
                     spans := Note(q.spans, g.kind, st.start, |st.data|, k.window, q.conn))
  {
    hide Encode, EncodeAll;
    assert EncodeAll([]) == [] by { EncodeNothing(); }
    assert [] + Encode(f) == Encode(f) && [] + [f] == [f];
    Takes(env, x, k, pty, q, [], f);
    var q1 := q.(got := 1, taken := |EncodeAll([f])|);
    assert ProcessServerFrame(q, f, k.window).(taken := |EncodeAll([f])|) == q1;
    EncodeAllOne(f);
    Takes(env, x, k, pty, q1, [f], g);
    EncodeAllSplit([f], [g]);
    EncodeAllOne(g);
    q' := ProcessServerFrame(q1, g, k.window).(taken := |EncodeAll([f] + [g])|);
    assert WelcomeOf(g).None?;
  }

  lemma EncodeNothing()
    ensures EncodeAll([]) == []
  {
  }

  /** The client has just connected. */
  predicate AtStart(q: Peer, c: ConnId) {
    q.conn == Some(c) && q.taken == 0 && q.got == 0 && !q.stopped
  }

  // ---------------------------------------------------------------- Attaching

  function FirstOf(q: Peer): FirstFrame {
    if q.connectedOnce then Reconnect(q.lastSeq) else Hello
  }

  function Connected(q: Peer, c: ConnId): Peer {
    q.(conn := Some(c), taken := 0, got := 0)
  }

  /** A client connects. */
  lemma Arrives(env: Env, x: Scene, q: Peer)
    requires Reachable(env, Idle(x, q)) && !q.stopped && q.conn.None? && x.c !in x.others
    ensures Reachable(env, World(Joined(x), Free, Free, NewConn(FirstOf(q)), Reading, Connected(q, x.c)))
  {
    hide Reachable;
    var s := Idle(x, q);
    var t := World(Joined(x), Free, Free, NewConn(FirstOf(q)), Reading, Connected(q, x.c));
    ReachNext(env, s, Client(x.p, Connect(x.c)));
    assert x.peers[x.p := q][x.p := Connected(q, x.c)] == x.peers[x.p := Connected(q, x.c)];
    var s' := Do(env, s, Client(x.p, Connect(x.c)));
    assert s' == t.(storing := s'.storing);
    if env.lateStore {
      ReachNext(env, s', StoreThread(x.c));
    }
  }

  /** The connection after its WELCOME is out. */
  function Welcomed(c: ConnId, first: FirstFrame, w: R.Window): Conn {
    var f := WelcomeFrame(w.base, w.next);
    NewConn(first).(obj := NewFields.(authenticated := true, liveSeq := w.next), writeMu := Held(Owner(c)),
                    pc := Sending(SendsWelcome, f, []), window := Some(w), wire := Encode(f), frames := [f])
  }

  lemma AttachUpToSnapshot(env: Env, x: Scene, first: FirstFrame, q: Peer)
    requires Keeps(env, x) && !first.Other?
    requires Reachable(env, World(x, Free, Free, NewConn(first), Reading, q))
    ensures x.ring.base <= x.ring.next <= x.ring.base + |x.ring.buf|
    ensures Reachable(env, World(x, Held(Owner(x.c)), Free,
                                 NewConn(first).(pc := Snapped, writeMu := Held(Owner(x.c)),
                                                 window := Some(R.Snapshot(x.ring, Requested(first)))),
                                 Reading, q))
  {
    hide Reachable;
    var me, k := Held(Owner(x.c)), NewConn(first);
    OwnMoves(env, x, Free, Free, k, Reading, q, Admit);
    var k1 := k.(pc := WantClients);
    OwnMoves(env, x, Free, Free, k1, Reading, q, LockClients);
    var k2 := k.(pc := WantWrite);
    OwnMoves(env, x, me, Free, k2, Reading, q, LockWrite);
    var k3 := k.(pc := WantRing, writeMu := me);
    OwnMoves(env, x, me, Free, k3, Reading, q, LockRingMu);
    var k4 := k.(pc := InRing, writeMu := me);
    OwnMoves(env, x, me, me, k4, Reading, q, SnapshotRing);
  }

  /** A new connection attaches, whether it is the client's first or not, and is sent its WELCOME. */
  lemma Attach(env: Env, x: Scene, first: FirstFrame, q: Peer) returns (w: R.Window)
    requires Keeps(env, x) && !first.Other?
    requires Reachable(env, World(x, Free, Free, NewConn(first), Reading, q))
    ensures x.ring.base <= x.ring.next <= x.ring.base + |x.ring.buf| && w == R.Snapshot(x.ring, Requested(first))
    ensures w.base == R.Base(env.cap, |x.hist|) && w.next == |x.hist|
    ensures w.from == R.Clamp(Requested(first), w.base, w.next) && w.data == x.hist[w.from..]
    ensures Reachable(env, World(x, Free, Free, Welcomed(x.c, first, w), Reading, q))
  {
    hide Encode, EncodeAll, Reachable;
    R.SnapshotIsHistory(x.ring, x.hist, Requested(first));
    w := R.Snapshot(x.ring, Requested(first));
    AttachUpToSnapshot(env, x, first, q);
    var k := NewConn(first).(pc := Snapped, writeMu := Held(Owner(x.c)), window := Some(w));
    OwnMoves(env, x, Held(Owner(x.c)), Free, k, Reading, q, Publish);
    var f := WelcomeFrame(w.base, w.next);
    k := k.(pc := Sending(SendsWelcome, f, Encode(f)), obj := k.obj.(authenticated := true, liveSeq := w.next));
    assert Reachable(env, World(x, Free, Free, k, Reading, q));
    assert Encode(f) != [] by { NotEmpty(f); }
    OwnWrites(env, x, k, Reading, q);
    assert [] + Encode(f) == Encode(f) && [] + [f] == [f];
  }

  lemma NotEmpty(f: Frame)
    ensures Encode(f) != []
  {
  }

  /** The connection once WELCOME and REPLAY are out and it is in its input loop. */
  function Attached(first: FirstFrame, w: R.Window): Conn {
    var f, g := WelcomeFrame(w.base, w.next), ReplayFrame(w);
    NewConn(first).(obj := NewFields.(authenticated := true, liveSeq := w.next), pc := InputLoop, window := Some(w),
                    wire := Encode(f) + Encode(g), frames := [f] + [g])
  }

  lemma SendsTheReplay(env: Env, x: Scene, first: FirstFrame, w: R.Window, q: Peer)
    requires Reachable(env, World(x, Free, Free, Welcomed(x.c, first, w), Reading, q)) && Sendable(ReplayFrame(w))
    ensures Reachable(env, World(x, Free, Free, Attached(first, w), Reading, q))
  {
    hide Encode, EncodeAll, Reachable;
    var k, g := Welcomed(x.c, first, w), ReplayFrame(w);
    OwnMoves(env, x, Free, Free, k, Reading, q, Sent);
    k := k.(pc := Sending(SendsReplay, g, Encode(g)));
    assert Reachable(env, World(x, Free, Free, k, Reading, q));
    NotEmpty(g);
    OwnWrites(env, x, k, Reading, q);
    k := Written(k);
    OwnMoves(env, x, Free, Free, k, Reading, q, Sent);
    k := k.(pc := Unlocking(true));
    OwnMoves(env, x, Free, Free, k, Reading, q, Unlock);
  }

  // ---------------------------------------------------------------- A run that resumes

  /** The client is cut off, and the server lets the connection go. */
  lemma Leaves(env: Env, x: Scene, first: FirstFrame, w: R.Window, q: Peer) returns (x': Scene)
    requires Reachable(env, World(x, Free, Free, Attached(first, w), Reading, q)) && q.conn.Some?
    ensures x' == x.(list := Unlink(x.list, x.c), others := x'.others) && x'.others.Keys == x.others.Keys + {x.c}
    ensures Reachable(env, Idle(x', q.(conn := None, connectedOnce := true)))
  {
    hide Encode, Reachable, Finish, Unlink;
    var k, q' := Attached(first, w), q.(conn := None, connectedOnce := true);
    ReachNext(env, World(x, Free, Free, k, Reading, q), Client(x.p, Cut));
    assert x.peers[x.p := q][x.p := q'] == x.peers[x.p := q'];
    OwnMoves(env, x, Free, Free, k, Reading, q', Quit);
    k := k.(pc := WantFinish);
    ReachNext(env, World(x, Free, Free, k, Reading, q'), Own(x.c, FinishClient));
    var others := x.others[x.c := k];
    others := others[x.c := OwnConn(env, x.ring, Free, Free, x.c, k, FinishClient)];
    x' := x.(list := Unlink(x.list, x.c), others := others);
  }

  /** What a client that stood at the end of `h[..before]` prints when it connects at the end of `h`. */
  function Missed(cap: nat, before: nat, upto: nat, c: ConnId): Span {
    Span(Max(before, R.Base(cap, upto)), upto, upto, Some(c))
  }

  /** The client connects, for the first time or again, and prints what it has missed. */
  lemma OneSession(env: Env, x: Scene, q: Peer) returns (w: R.Window, q': Peer)
    requires Good(env) && Keeps(env, x) && x.c !in x.others && Reachable(env, Idle(x, q))
    requires !q.stopped && q.conn.None? && q.lastSeq <= |x.hist| && (!q.connectedOnce ==> q.lastSeq == 0)
    ensures x.ring.base <= x.ring.next <= x.ring.base + |x.ring.buf|
    ensures w == R.Snapshot(x.ring, Requested(FirstOf(q)))
    ensures w.base == R.Base(env.cap, |x.hist|) && w.next == |x.hist|
    ensures Reachable(env, World(Joined(x), Free, Free, Attached(FirstOf(q), w), Reading, q'))
    ensures var piece := Missed(env.cap, q.lastSeq, |x.hist|, x.c);
            && w.from == piece.from && w.data == x.hist[piece.from..]
            && q' == q.(out := q.out + x.hist[piece.from..], lastSeq := |x.hist|, conn := Some(x.c), got := 2,
                        taken := |Attached(FirstOf(q), w).wire|, spans := q.spans + [piece])
  {
    hide Encode, EncodeAll, Reachable, R.Represents;
    Arrives(env, x, q);
    var first, q1 := FirstOf(q), Connected(q, x.c);
    w := Attach(env, Joined(x), first, q1);
    ServerMessagesRoundTrip(REPLAY, w.from, w.data, w.base, w.next);
    var f, g := WelcomeFrame(w.base, w.next), ReplayFrame(w);
    SendsTheReplay(env, Joined(x), first, w, q1);
    hide WelcomeFrame, ReplayFrame, StreamOf, WelcomeOf;
    q' := TakesTwo(env, Joined(x), Attached(first, w), Reading, q1, f, g, Stream(w.from, w.data));
    hide Keeps, World, Idle, Good;
    assert w.from == Max(q.lastSeq, R.Base(env.cap, |x.hist|));
    assert w.data == x.hist[w.from..|x.hist|];
  }

  /** Where the client stood before session `i`, when session `j` ends at `ends[j]`. */
  function Before(ends: seq<nat>, i: nat): nat
    requires i <= |ends|
  {
    if i == 0 then 0 else ends[i - 1]
  }

  predicate Rises(ends: seq<nat>, total: nat) {
    (forall i :: 0 < i < |ends| ==> ends[i - 1] <= ends[i]) && Before(ends, |ends|) == total
  }

  /** What a client has printed after a session for each of `ends`. */
  predicate Printed(cap: nat, ends: seq<nat>, q: Peer) {
    && !q.stopped && q.lastSeq == Before(ends, |ends|) && |q.spans| == |ends|
    && forall i :: 0 <= i < |ends| ==> q.spans[i] == Missed(cap, Before(ends, i), ends[i], i)
  }

  lemma {:induction false} Sessions(env: Env, h: seq<byte>, ends: seq<nat>) returns (x: Scene, q: Peer)
    requires Good(env) && 0 < env.cap && |h| < U64_LIMIT && Rises(ends, |h|)
    ensures Reachable(env, Idle(x, q)) && Keeps(env, x)
    ensures x == Scene(h, x.ring, [], x.others, x.c, map[], 0) && forall c :: c in x.others ==> c < |ends|
    ensures Printed(env.cap, ends, q) && q.conn.None? && q.connectedOnce == (ends != [])
    decreases |ends|, 1
  {
    if ends == [] {
      x := Starts(env);
      q := NewPeer;
    } else {
      hide Reachable, R.Represents;
      var y, w, q' := LastSession(env, h, ends);
      x := Leaves(env, y, FirstAfter(ends), w, q');
      q := q'.(conn := None, connectedOnce := true);
    }
  }

  /** How the last of these sessions begins. */
  function FirstAfter(ends: seq<nat>): FirstFrame
    requires ends != []
  {
    if |ends| == 1 then Hello else Reconnect(ends[|ends| - 2])
  }

  lemma {:induction false} LastSession(env: Env, h: seq<byte>, ends: seq<nat>)
      returns (x: Scene, w: R.Window, q: Peer)
    requires Good(env) && 0 < env.cap && |h| < U64_LIMIT && Rises(ends, |h|) && ends != []
    ensures x == Scene(h, x.ring, [|ends| - 1], x.others, |ends| - 1, map[], 0) && Keeps(env, x)
    ensures forall c :: c in x.others ==> c < |ends| - 1
    ensures Reachable(env, World(x, Free, Free, Attached(FirstAfter(ends), w), Reading, q))
    ensures Printed(env.cap, ends, q) && q.conn == Some(|ends| - 1)
    decreases |ends|, 0
  {
    hide Reachable, R.Represents, Attached, World, Printed, Rises;
    var n := |ends| - 1;
    var init, before := ends[..n], Before(ends, n);
    RisesBefore(ends, |h|);
    var x0, q0 := Sessions(env, h[..before], init);
    var x1 := Produce(env, x0, q0, h[before..]);
    assert h[..before] + h[before..] == h;
    x1 := x1.(c := n);
    StandsAtLast(env.cap, init, q0);
    w, q := OneSession(env, x1, q0);
    x := Joined(x1);
    assert [n] + [] == [n];
    PrintsOneMore(env.cap, ends, q0, q);
  }

  lemma RisesBefore(ends: seq<nat>, total: nat)
    requires Rises(ends, total) && ends != []
    ensures var n := |ends| - 1;
            Before(ends, n) <= total == ends[n] && Rises(ends[..n], Before(ends, n))
  {
    var n := |ends| - 1;
    assert n > 0 ==> ends[n - 1] <= ends[n];
  }

  lemma StandsAtLast(cap: nat, ends: seq<nat>, q: Peer)
    requires Printed(cap, ends, q)
    ensures q.lastSeq == Before(ends, |ends|) && !q.stopped
  {
  }

  lemma PrintsOneMore(cap: nat, ends: seq<nat>, q: Peer, q': Peer)
    requires ends != [] && Printed(cap, ends[..|ends| - 1], q)
    requires q'.spans == q.spans + [Missed(cap, q.lastSeq, ends[|ends| - 1], |ends| - 1)]
    requires q'.lastSeq == ends[|ends| - 1] && !q'.stopped
    ensures Printed(cap, ends, q')
  {
    hide Missed;
    var n := |ends| - 1;
    var init := ends[..n];
    forall i | 0 <= i < n
      ensures q'.spans[i] == Missed(cap, Before(ends, i), ends[i], i)
    {
      assert q'.spans[i] == q.spans[i] == Missed(cap, Before(init, i), init[i], i);
    }
    assert q'.spans[n] == Missed(cap, Before(ends, n), ends[n], n);
  }

  /** The protocol can do its work: for every output, and every list of places in it at which the client is
      connected while nothing is lost after them, there is a run in which each connection but the first is a
      RECONNECT that asks for exactly what is missing, each is served, and the client prints everything the
      ring still held when it came. It ends with the last connection listed and in its input loop. */
  lemma SomeRunResumes(env: Env, h: seq<byte>, ends: seq<nat>) returns (s: State)
    requires Good(env) && 0 < env.cap && |h| < U64_LIMIT && Rises(ends, |h|) && ends != []
    ensures Reachable(env, s) && s.hist == h && s.list == [|ends| - 1] && |ends| - 1 in s.conns && 0 in s.peers
    ensures var k := s.conns[|ends| - 1];
            && k.obj.authenticated && !k.obj.dead && !k.broken && k.pc.InputLoop? && k.writeMu.Free?
            && k.first == if |ends| == 1 then Hello else Reconnect(ends[|ends| - 2])
    ensures var q := s.peers[0];
            && q.conn == Some(|ends| - 1) && !q.stopped && q.lastSeq == |h| && |q.spans| == |ends|
            && (forall i :: 0 <= i < |ends| ==>
                  q.spans[i] == Span(Max(Before(ends, i), R.Base(env.cap, ends[i])), ends[i], ends[i], Some(i)))
            && q.out == Gather(h, q.spans)
  {
    hide Reachable, R.Represents;
    var x, w, q := LastSession(env, h, ends);
    s := World(x, Free, Free, Attached(FirstAfter(ends), w), Reading, q);
    EndToEnd(env, s, 0);
  }

  /** Cut off once: the client has printed the end of `h1` that the ring held, and then what it missed. */
  lemma SomeRunResumesOnce(env: Env, h1: seq<byte>, h2: seq<byte>) returns (s: State)
    requires Good(env) && 0 < env.cap && |h1| + |h2| < U64_LIMIT
    ensures Reachable(env, s) && s.hist == h1 + h2 && 0 in s.peers && s.peers[0].conn == Some(1)
    ensures 1 in s.conns && s.conns[1].first == Reconnect(|h1|) && s.conns[1].pc.InputLoop? && 1 in s.list
    ensures s.peers[0].out
            == h1[R.Base(env.cap, |h1|)..] + (h1 + h2)[Max(|h1|, R.Base(env.cap, |h1| + |h2|))..]
  {
    hide Reachable, Gather;
    var h, ends := h1 + h2, [|h1|, |h1| + |h2|];
    s := SomeRunResumes(env, h, ends);
    var spans := s.peers[0].spans;
    var a, b := Missed(env.cap, 0, |h1|, 0), Missed(env.cap, |h1|, |h|, 1);
    assert ends[0] == |h1| && ends[1] == |h|;
    assert spans[0] == a;
    assert spans[1] == b;
    assert spans == [a, b];
    GathersTwo(h, a, b);
    hide Missed, Before, Printed, Rises, Good, Max, R.Base;
    TwoSlices(h1, h2, a, b);
  }

  lemma TwoSlices(h1: seq<byte>, h2: seq<byte>, a: Span, b: Span)
    requires a.from <= a.to == |h1| && b.from <= b.to == |h1| + |h2|
    ensures (h1 + h2)[a.from..a.to] == h1[a.from..] && (h1 + h2)[b.from..b.to] == (h1 + h2)[b.from..]
  {
  }

  lemma GathersTwo(h: seq<byte>, a: Span, b: Span)
    requires a.from <= a.to <= |h| && b.from <= b.to <= |h|
    ensures Gather(h, [a, b]) == h[a.from..a.to] + h[b.from..b.to]
  {
    GatherSnoc(h, [], a);
    GatherSnoc(h, [a], b);
    hide Gather;
    assert [] + [a] == [a] && [a] + [b] == [a, b];
    assert [] + h[a.from..a.to] == h[a.from..a.to];
  }

  lemma GatherSnoc(h: seq<byte>, spans: seq<Span>, x: Span)
    requires x.from <= x.to <= |h|
    ensures Gather(h, []) == [] && Gather(h, spans + [x]) == Gather(h, spans) + h[x.from..x.to]
  {
    assert (spans + [x])[..|spans|] == spans;
  }

  // ---------------------------------------------------------------- A run that serves many at once

  /** A chunk is appended. */
  lemma Appends(env: Env, x: Scene, k: Conn, q: Peer, chunk: seq<byte>)
    requires 0 < |chunk| <= 4096 && |x.hist| + |chunk| < U64_LIMIT && Keeps(env, x)
    requires Reachable(env, World(x, Free, Free, k, Reading, q))
    ensures x.ring.base <= x.ring.next <= x.ring.base + |x.ring.buf| && x.ring.next == |x.hist|
    ensures Reachable(env, World(x.(hist := x.hist + chunk, ring := R.Append(x.ring, chunk)), Free, Free, k,
                                 Appended(|x.hist|, chunk), q))
  {
    hide Reachable;
    var s := World(x, Free, Free, k, Reading, q);
    ReachNext(env, s, Pty(Read(chunk)));
    ReachNext(env, s.(pty := WantRingMu(chunk)), Pty(LockRing));
    ReachNext(env, s.(pty := InRingMu(chunk), ringMu := Held(PtyThread)), Pty(Append));
  }

  /** A connection that was up to date when the chunk was appended, and has been sent it. */
  function Served(k: Conn, start: nat, chunk: seq<byte>): Conn {
    var f := StreamFrame(STDOUT, start, chunk);
    k.(wire := k.wire + Encode(f), frames := k.frames + [f], obj := k.obj.(liveSeq := start + |chunk|))
  }

  /** One client's turn in a broadcast, from end to end. */
  lemma TurnSends(env: Env, x: Scene, k: Conn, pty: PtyPc, q: Peer)
    requires Reachable(env, World(x, Free, Free, k, pty, q))
    requires pty.Broadcasting? && pty.i < |pty.snap| && pty.snap[pty.i] == x.c && pty.phase.WantWriteMu?
    requires !k.broken && k.writeMu.Free? && k.obj.liveSeq <= pty.start && pty.chunk != []
    ensures Reachable(env, World(x, Free, Free, Served(k, pty.start, pty.chunk), pty.(i := pty.i + 1), q))
  {
    hide Encode, EncodeAll, Reachable;
    var start, chunk := pty.start, pty.chunk;
    var f := StreamFrame(STDOUT, start, chunk);
    TurnMoves(env, x, k, pty, q, TLockWrite);
    var k1, pty1 := k.(writeMu := Held(PtyThread)), pty.(phase := InWrite);
    TurnMoves(env, x, k1, pty1, q, TDecide);
    assert StdoutFor(k1.obj.liveSeq, start, chunk) == Some(f) by { assert chunk[0..] == chunk; }
    pty1 := pty.(phase := SendingOut(f, Encode(f)));
    NotEmpty(f);
    TurnWrites(env, x, k1, pty1, q);
    k1, pty1 := k1.(wire := k.wire + Encode(f), frames := k.frames + [f]), pty.(phase := SendingOut(f, []));
    TurnMoves(env, x, k1, pty1, q, TSent);
    k1, pty1 := k1.(obj := k.obj.(liveSeq := start + |chunk|)), pty.(phase := UnlockingOut(true));
    TurnMoves(env, x, k1, pty1, q, TUnlock);
  }

  /** The clients in the order of the list, the last to arrive first. */
  function Down(n: nat): (s: seq<ConnId>)
    ensures |s| == n && (forall i :: 0 <= i < n ==> s[i] == n - 1 - i)
  {
    if n == 0 then [] else [n - 1] + Down(n - 1)
  }

  lemma DownHasAll(n: nat)
    ensures forall c: ConnId :: c < n ==> c in Down(n)
  {
    forall c: ConnId | c < n
      ensures c in Down(n)
    {
      assert Down(n)[n - 1 - c] == c;
    }
  }

  function Below(n: nat): (s: set<nat>)
    ensures forall c: nat :: c in s <==> c < n
  {
    if n == 0 then {} else Below(n - 1) + {n - 1}
  }

  lemma FilterAll(s: seq<ConnId>, keep: set<ConnId>)
    requires forall i :: 0 <= i < |s| ==> s[i] in keep
    ensures Filter(s, keep) == s
  {
    FilterUpTo(s, keep, |s|);
    hide Filter;
    assert s[..|s|] == s;
  }

  lemma {:induction false} FilterUpTo(s: seq<ConnId>, keep: set<ConnId>, n: nat)
    requires n <= |s| && forall i :: 0 <= i < |s| ==> s[i] in keep
    ensures Filter(s[..n], keep) == s[..n]
  {
    hide Filter;
    if n == 0 {
      assert s[..n] == [];
      FilterNone(keep);
    } else {
      FilterUpTo(s, keep, n - 1);
      FilterNext(s, keep, n - 1);
      assert s[..n] == s[..n - 1] + [s[n - 1]];
    }
  }

  lemma FilterNone(keep: set<ConnId>)
    ensures Filter<ConnId>([], keep) == []
  {
  }

  /** A client that has printed what the ring held when it came, and `more`. */
  function Reader(w: R.Window, more: seq<byte>, taken: nat, got: nat, p: PeerId): Peer {
    Peer(w.next + |more|, w.data + more, false, Some(p), taken, false, got,
         [Span(w.from, w.next + |more|, w.next, Some(p))])
  }

  /** `n` clients are connected at once. */
  function Party(h: seq<byte>, ring: R.RingState, n: nat, conns: map<ConnId, Conn>, pty: PtyPc,
                 peers: map<PeerId, Peer>): State
  {
    State(h, ring, Free, Free, Down(n), conns, pty, peers, None)
  }

  function SceneIn(s: State, c: ConnId): Scene {
    Scene(s.hist, s.ring, s.list, s.conns, c, s.peers, c)
  }

  /** Any of them can be looked at alone. */
  lemma LookAt(h: seq<byte>, ring: R.RingState, n: nat, conns: map<ConnId, Conn>, pty: PtyPc, peers: map<PeerId, Peer>,
               c: ConnId, k: Conn, q: Peer)
    ensures var s := Party(h, ring, n, conns, pty, peers);
            World(SceneIn(s, c), Free, Free, k, pty, q) == Party(h, ring, n, conns[c := k], pty, peers[c := q])
    ensures c in conns && conns[c] == k ==> conns[c := k] == conns
    ensures c in peers && peers[c] == q ==> peers[c := q] == peers
  {
  }

  function Alike(n: nat, k: Conn): map<ConnId, Conn> {
    map c | c in Below(n) :: k
  }

  /** The first `j` clients have printed `more` too. */
  function Readers(w: R.Window, n: nat, j: nat, more: seq<byte>, taken: nat, later: nat): map<PeerId, Peer> {
    map p | p in Below(n) :: if p < j then Reader(w, more, later, 3, p) else Reader(w, [], taken, 2, p)
  }

  /** `n` clients are attached at once, and have printed what the ring held. */
  lemma {:induction false} Gathered(env: Env, h: seq<byte>, n: nat) returns (ring: R.RingState, w: R.Window)
    requires Good(env) && 0 < env.cap && |h| < U64_LIMIT && 0 < n
    ensures |ring.buf| == env.cap && R.Represents(ring, h)
    ensures ring.base <= ring.next <= ring.base + |ring.buf| && w == R.Snapshot(ring, 0)
    ensures w.base == w.from == R.Base(env.cap, |h|) && w.next == |h| && w.data == h[w.from..]
    ensures var k := Attached(Hello, w);
            Reachable(env, Party(h, ring, n, Alike(n, k), Reading, Readers(w, n, 0, [], |k.wire|, 0)))
  {
    hide Reachable, R.Represents, R.Snapshot, Attached;
    var x;
    if n == 1 {
      x := Starts(env);
      x := Produce(env, x, NewPeer, h);
      ring := x.ring;
      assert [] + h == h;
    } else {
      ring, w := Gathered(env, h, n - 1);
      var s := Party(h, ring, n - 1, Alike(n - 1, Attached(Hello, w)), Reading,
                     Readers(w, n - 1, 0, [], |Attached(Hello, w).wire|, 0));
      ReachNext(env, s, Client(n - 1, Start));
      x := SceneIn(s, n - 1);
    }
    var q;
    w, q := OneSession(env, x, NewPeer);
    assert q == Reader(w, [], |Attached(Hello, w).wire|, 2, n - 1);
    GatherOneMore(x, w, n, q);
  }

  lemma GatherOneMore(x: Scene, w: R.Window, n: nat, q: Peer)
    requires 0 < n && x == Scene(x.hist, x.ring, Down(n - 1), Alike(n - 1, Attached(Hello, w)), n - 1,
                                 Readers(w, n - 1, 0, [], |Attached(Hello, w).wire|, 0), n - 1)
    requires q == Reader(w, [], |Attached(Hello, w).wire|, 2, n - 1)
    ensures World(Joined(x), Free, Free, Attached(Hello, w), Reading, q)
            == Party(x.hist, x.ring, n, Alike(n, Attached(Hello, w)), Reading,
                     Readers(w, n, 0, [], |Attached(Hello, w).wire|, 0))
  {
    hide Attached, Reader;
    assert x.others[n - 1 := Attached(Hello, w)] == Alike(n, Attached(Hello, w));
    assert x.peers[n - 1 := q] == Readers(w, n, 0, [], |Attached(Hello, w).wire|, 0);
  }

  /** After `i` turns of a broadcast. */
  function SomeServed(n: nat, i: nat, k: Conn, start: nat, chunk: seq<byte>): map<ConnId, Conn> {
    map c | c in Below(n) :: if c >= n - i then Served(k, start, chunk) else k
  }

  lemma {:induction false} Turns(env: Env, h: seq<byte>, ring: R.RingState, n: nat, k: Conn, start: nat,
                                 chunk: seq<byte>, peers: map<PeerId, Peer>, i: nat)
    requires i <= n && !k.broken && k.writeMu.Free? && k.obj.liveSeq <= start && chunk != []
    requires peers.Keys == Alike(n, k).Keys
    requires Reachable(env, Party(h, ring, n, Alike(n, k), Broadcasting(start, chunk, Down(n), 0, WantWriteMu), peers))
    ensures Reachable(env, Party(h, ring, n, SomeServed(n, i, k, start, chunk),
                                 Broadcasting(start, chunk, Down(n), i, WantWriteMu), peers))
  {
    hide Reachable, Served;
    if i == 0 {
      assert SomeServed(n, 0, k, start, chunk) == Alike(n, k);
    } else {
      Turns(env, h, ring, n, k, start, chunk, peers, i - 1);
      var c, conns := n - i, SomeServed(n, i - 1, k, start, chunk);
      var pty := Broadcasting(start, chunk, Down(n), i - 1, WantWriteMu);
      assert c in peers && c in conns && conns[c] == k && Down(n)[i - 1] == c;
      LookAt(h, ring, n, conns, pty, peers, c, k, peers[c]);
      TurnSends(env, SceneIn(Party(h, ring, n, conns, pty, peers), c), k, pty, peers[c]);
      var pty' := Broadcasting(start, chunk, Down(n), i, WantWriteMu);
      LookAt(h, ring, n, conns, pty', peers, c, Served(k, start, chunk), peers[c]);
      assert conns[c := Served(k, start, chunk)] == SomeServed(n, i, k, start, chunk);
    }
  }

  function WithPin(k: Conn): Conn {
    k.(obj := k.obj.(refs := k.obj.refs + 1))
  }

  /** A chunk goes out to all of them. */
  lemma Broadcasts(env: Env, h: seq<byte>, ring: R.RingState, n: nat, k: Conn, chunk: seq<byte>,
                   peers: map<PeerId, Peer>)
    requires 0 < n && 0 < |chunk| <= 4096 && |h| + |chunk| < U64_LIMIT && |ring.buf| == env.cap > 0
    requires R.Represents(ring, h) && peers.Keys == Alike(n, k).Keys
    requires Broadcastable(k.obj) && !k.broken && k.writeMu.Free? && k.obj.liveSeq <= |h| && k.obj.refs > 0
    requires Reachable(env, Party(h, ring, n, Alike(n, k), Reading, peers))
    ensures ring.base <= ring.next <= ring.base + |ring.buf|
    ensures Reachable(env, Party(h + chunk, R.Append(ring, chunk), n, Alike(n, Served(k, |h|, chunk)), Reading, peers))
  {
    hide Reachable, Served, R.Represents, R.Append, Down;
    var conns, start := Alike(n, k), |h|;
    LookAt(h, ring, n, conns, Reading, peers, 0, k, peers[0]);
    Appends(env, SceneIn(Party(h, ring, n, conns, Reading, peers), 0), k, peers[0], chunk);
    var h', ring' := h + chunk, R.Append(ring, chunk);
    LookAt(h', ring', n, conns, Appended(start, chunk), peers, 0, k, peers[0]);
    PinsAll(env, h', ring', n, k, start, chunk, peers);
    Turns(env, h', ring', n, WithPin(k), start, chunk, peers, n);
    UnpinsAll(env, h', ring', n, k, start, chunk, peers);
  }

  lemma PinsAll(env: Env, h: seq<byte>, ring: R.RingState, n: nat, k: Conn, start: nat, chunk: seq<byte>,
                peers: map<PeerId, Peer>)
    requires 0 < n && Broadcastable(k.obj)
    requires Reachable(env, Party(h, ring, n, Alike(n, k), Appended(start, chunk), peers))
    ensures Reachable(env, Party(h, ring, n, Alike(n, WithPin(k)), Broadcasting(start, chunk, Down(n), 0, WantWriteMu),
                                 peers))
  {
    hide Reachable, Filter, Broadcastable, Below;
    var s := Party(h, ring, n, Alike(n, k), Appended(start, chunk), peers);
    assert forall c :: c in Down(n) ==> c in LiveSet(s);
    DownHasAll(n);
    FilterAll(Down(n), LiveSet(s));
    assert Pin(s.conns, LiveSet(s)) == Alike(n, WithPin(k));
    hide Pin, LiveSet, WithPin;
    assert Down(n) != [];
    ReachNext(env, s, Pty(TakeSnapshot));
  }

  lemma UnpinsAll(env: Env, h: seq<byte>, ring: R.RingState, n: nat, k: Conn, start: nat, chunk: seq<byte>,
                  peers: map<PeerId, Peer>)
    requires k.obj.refs > 0
    requires Reachable(env, Party(h, ring, n, SomeServed(n, n, WithPin(k), start, chunk),
                                  Broadcasting(start, chunk, Down(n), n, WantWriteMu), peers))
    ensures Reachable(env, Party(h, ring, n, Alike(n, Served(k, start, chunk)), Reading, peers))
  {
    hide Reachable, Encode;
    var s := Party(h, ring, n, SomeServed(n, n, WithPin(k), start, chunk),
                   Broadcasting(start, chunk, Down(n), n, WantWriteMu), peers);
    var a, b := Served(WithPin(k), start, chunk), Served(k, start, chunk);
    assert a.(obj := Release(a.obj)) == b;
    hide Served, Release, Below;
    DownHasAll(n);
    assert Unpin(s.conns, Down(n)) == Alike(n, b);
    hide Unpin;
    ReachNext(env, s, Pty(ReleaseSnapshot));
  }

  /** Each of them takes the chunk. */
  lemma {:induction false} AllTake(env: Env, h: seq<byte>, ring: R.RingState, n: nat, w: R.Window, chunk: seq<byte>,
                                   j: nat)
    requires j <= n && w.next + |chunk| < U64_LIMIT && Sendable(StreamFrame(STDOUT, w.next, chunk))
    requires w.from + |w.data| == w.next
    requires var k := Served(Attached(Hello, w), w.next, chunk);
             Reachable(env, Party(h, ring, n, Alike(n, k), Reading,
                                  Readers(w, n, 0, chunk, |Attached(Hello, w).wire|, |k.wire|)))
    ensures var k := Served(Attached(Hello, w), w.next, chunk);
            Reachable(env, Party(h, ring, n, Alike(n, k), Reading,
                                 Readers(w, n, j, chunk, |Attached(Hello, w).wire|, |k.wire|)))
  {
    if j > 0 {
      AllTake(env, h, ring, n, w, chunk, j - 1);
      hide Reachable, Served, Attached, Reader, StreamFrame, Encode, World, Readers, Below, Alike, Down;
      var k, p, taken := Served(Attached(Hello, w), w.next, chunk), j - 1, |Attached(Hello, w).wire|;
      var peers := Readers(w, n, j - 1, chunk, taken, |k.wire|);
      var q, q' := Reader(w, [], taken, 2, p), Reader(w, chunk, |k.wire|, 3, p);
      OneMoreTook(w, n, j, chunk, taken, |k.wire|);
      LookAt(h, ring, n, Alike(n, k), Reading, peers, p, k, q);
      TakesChunk(env, SceneIn(Party(h, ring, n, Alike(n, k), Reading, peers), p), w, chunk);
      LookAt(h, ring, n, Alike(n, k), Reading, peers, p, k, q');
    }
  }

  lemma OneMoreTook(w: R.Window, n: nat, j: nat, more: seq<byte>, taken: nat, later: nat)
    requires 0 < j <= n
    ensures Readers(w, n, j - 1, more, taken, later)[j - 1 := Reader(w, more, later, 3, j - 1)]
            == Readers(w, n, j, more, taken, later)
    ensures j - 1 in Readers(w, n, j - 1, more, taken, later)
    ensures Readers(w, n, j - 1, more, taken, later)[j - 1] == Reader(w, [], taken, 2, j - 1)
    ensures forall k: Conn :: j - 1 in Alike(n, k) && Alike(n, k)[j - 1] == k
  {
    hide Reader;
  }

  lemma TakesChunk(env: Env, x: Scene, w: R.Window, chunk: seq<byte>)
    requires w.next + |chunk| < U64_LIMIT && Sendable(StreamFrame(STDOUT, w.next, chunk)) && x.c == x.p
    requires w.from + |w.data| == w.next
    requires Reachable(env, World(x, Free, Free, Served(Attached(Hello, w), w.next, chunk), Reading,
                                  Reader(w, [], |Attached(Hello, w).wire|, 2, x.p)))
    ensures var k := Served(Attached(Hello, w), w.next, chunk);
            Reachable(env, World(x, Free, Free, k, Reading, Reader(w, chunk, |k.wire|, 3, x.p)))
  {
    hide Encode, EncodeAll, Reachable;
    var f, g, st := WelcomeFrame(w.base, w.next), ReplayFrame(w), StreamFrame(STDOUT, w.next, chunk);
    var k := Served(Attached(Hello, w), w.next, chunk);
    var q := Reader(w, [], |Attached(Hello, w).wire|, 2, x.p);
    EncodeAllSplit([f], [g]);
    EncodeAllOne(f);
    EncodeAllOne(g);
    EncodeAllOne(st);
    EncodeAllSplit([f] + [g], [st]);
    Takes(env, x, k, Reading, q, [f] + [g], st);
    TakesMore(w, q, st, chunk, x.p);
  }

  lemma TakesMore(w: R.Window, q: Peer, f: Frame, chunk: seq<byte>, p: PeerId)
    requires w.next + |chunk| < U64_LIMIT && f == StreamFrame(STDOUT, w.next, chunk)
    requires q == Reader(w, [], q.taken, 2, p)
    ensures ProcessServerFrame(q, f, Some(w)) == Reader(w, chunk, q.taken, 3, p)
  {
    ServerMessagesRoundTrip(STDOUT, w.next, chunk, 0, 0);
    assert f.kind == STDOUT && WelcomeOf(f).None?;
    hide StreamFrame, StreamOf;
    assert w.data + [] + chunk == w.data + chunk;
    var piece := Span(w.from, w.next + |chunk|, w.next, Some(p));
    assert q.spans[0 := piece] == [piece];
  }

  /** The protocol can do its work for many: for every output, every chunk the PTY can deliver at once, and every
      number of clients there is a run in which all of them are attached at the same time and each prints what
      the ring held when it came, and then the chunk, live. */
  lemma SomeRunServesMany(env: Env, h: seq<byte>, chunk: seq<byte>, n: nat) returns (s: State)
    requires Good(env) && 0 < env.cap && 0 < n && 0 < |chunk| <= 4096 && |h| + |chunk| < U64_LIMIT
    ensures Reachable(env, s) && s.hist == h + chunk && s.pty.Reading? && |s.list| == n
    ensures forall c: ConnId :: c < n ==>
              c in s.list && c in s.conns && s.conns[c].pc.InputLoop? && !s.conns[c].broken
              && |s.conns[c].frames| == 3 && s.conns[c].frames[2] == StreamFrame(STDOUT, |h|, chunk)
    ensures forall p: PeerId :: p < n ==>
              p in s.peers && s.peers[p].conn == Some(p) && !s.peers[p].stopped
              && s.peers[p].out == h[R.Base(env.cap, |h|)..] + chunk && s.peers[p].lastSeq == |h| + |chunk|
  {
    hide Reachable, R.Represents, R.Snapshot, Encode, Attached, Served, Alike, Readers, Down;
    var ring, w := Gathered(env, h, n);
    var k, taken := Attached(Hello, w), |Attached(Hello, w).wire|;
    var k' := Served(k, |h|, chunk);
    UpToDate(w, n, chunk, taken, |k'.wire|);
    Broadcasts(env, h, ring, n, k, chunk, Readers(w, n, 0, [], taken, 0));
    AllTake(env, h + chunk, R.Append(ring, chunk), n, w, chunk, n);
    s := Party(h + chunk, R.Append(ring, chunk), n, Alike(n, k'), Reading, Readers(w, n, n, chunk, taken, |k'.wire|));
    AllServed(w, n, chunk, taken, |k'.wire|);
  }

  lemma UpToDate(w: R.Window, n: nat, chunk: seq<byte>, taken: nat, later: nat)
    requires 0 < n
    ensures Readers(w, n, 0, [], taken, 0) == Readers(w, n, 0, chunk, taken, later)
    ensures forall k: Conn :: Readers(w, n, 0, [], taken, 0).Keys == Alike(n, k).Keys
    ensures var k := Attached(Hello, w);
            Broadcastable(k.obj) && !k.broken && k.writeMu.Free? && k.obj.liveSeq == w.next && k.obj.refs > 0
  {
    hide Reader;
  }

  lemma AllServed(w: R.Window, n: nat, chunk: seq<byte>, taken: nat, later: nat)
    ensures |Down(n)| == n
    ensures var k := Served(Attached(Hello, w), w.next, chunk);
            && k.pc.InputLoop? && !k.broken && |k.frames| == 3 && k.frames[2] == StreamFrame(STDOUT, w.next, chunk)
            && forall c: ConnId :: c < n ==> c in Down(n) && c in Alike(n, k) && Alike(n, k)[c] == k
    ensures var peers := Readers(w, n, n, chunk, taken, later);
            forall p: PeerId :: p < n ==>
              p in peers && peers[p].conn == Some(p) && !peers[p].stopped
              && peers[p].out == w.data + chunk && peers[p].lastSeq == w.next + |chunk|
  {
    DownHasAll(n);
    hide Encode, Down;
  }

  // ---------------------------------------------------------------- A run that serves anybody

  /** Whatever a RECONNECT asks for, from before what the ring holds to beyond the end of the history, there is a run
      in which it is answered with WELCOME and the nearest part there is. */
  lemma SomeRunServesStrangers(env: Env, h: seq<byte>, first: FirstFrame) returns (s: State)
    requires Good(env) && 0 < env.cap && |h| < U64_LIMIT && !first.Other?
    ensures Reachable(env, s) && s.hist == h && 0 in s.conns && s.conns[0].first == first && s.conns[0].pc.InputLoop?
    ensures var base, asked := R.Base(env.cap, |h|), if first.Reconnect? then first.lastSeq else 0;
            var from := if asked < base then base else if asked > |h| then |h| else asked;
            s.conns[0].frames == [WelcomeFrame(base, |h|), StreamFrame(REPLAY, from, h[from..])]
  {
    hide Encode, EncodeAll, Reachable, R.Represents;
    var x := Starts(env);
    x := Produce(env, x, NewPeer, h);
    assert [] + h == h;
    AcceptsOne(env, x, first);
    var w := Attach(env, Joined(x), first, NewPeer);
    SendsTheReplay(env, Joined(x), first, w, NewPeer);
    s := World(Joined(x), Free, Free, Attached(first, w), Reading, NewPeer);
  }

  lemma AcceptsOne(env: Env, x: Scene, first: FirstFrame)
    requires Reachable(env, Idle(x, NewPeer)) && x.c !in x.others
    ensures Reachable(env, World(Joined(x), Free, Free, NewConn(first), Reading, NewPeer))
  {
    hide Reachable;
    var s, t := Idle(x, NewPeer), World(Joined(x), Free, Free, NewConn(first), Reading, NewPeer);
    ReachNext(env, s, Accept(x.c, first));
    var s' := Do(env, s, Accept(x.c, first));
    assert s' == t.(storing := s'.storing);
    if env.lateStore {
      ReachNext(env, s', StoreThread(x.c));
    }
  }

  // ---------------------------------------------------------------- A run that turns a client away

  /** A rejected client gets the message in an ERROR frame, prints nothing and exits. */
  lemma SomeRunRejects(env: Env, message: seq<byte>) returns (s: State)
    requires 0 < env.cap && |message| < MAX_FRAME
    ensures Reachable(env, s) && 0 in s.conns && 0 in s.peers
    ensures s.conns[0].frames == [Frame(ERROR, message)] && s.conns[0].pc.WantFinish? && s.conns[0].writeMu.Free?
    ensures s.peers[0].stopped && s.peers[0].out == []
  {
    hide Encode, EncodeAll, Reachable;
    var x := Starts(env);
    var f, q := Frame(ERROR, message), Connected(NewPeer, 0);
    Arrives(env, x, NewPeer);
    x := Joined(x);
    var k := NewConn(Hello);
    OwnMoves(env, x, Free, Free, k, Reading, q, Reject);
    k := k.(pc := WantErrorLock);
    OwnMoves(env, x, Free, Free, k, Reading, q, LockError(message));
    k := k.(writeMu := Held(Owner(0)), pc := Sending(SendsError, f, Encode(f)));
    NotEmpty(f);
    OwnWrites(env, x, k, Reading, q);
    k := Written(k);
    OwnMoves(env, x, Free, Free, k, Reading, q, Sent);
    k := k.(pc := ErrorUnlocking);
    OwnMoves(env, x, Free, Free, k, Reading, q, Unlock);
    k := k.(writeMu := Free, pc := WantFinish);
    assert EncodeAll([]) == [] by { EncodeNothing(); }
    assert [] + Encode(f) == Encode(f) == k.wire && [] + [f] == [f];
    Takes(env, x, k, Reading, q, [], f);
    s := World(x, Free, Free, k, Reading, ProcessServerFrame(q, f, k.window).(taken := |EncodeAll([] + [f])|));
  }

  // ---------------------------------------------------------------- Runs with a gap

  /** A first client that attached after `h` was produced. */
  lemma FirstAttach(env: Env, h: seq<byte>) returns (x: Scene, w: R.Window)
    requires 0 < env.cap && |h| <= env.cap && |h| < U64_LIMIT
    ensures x == Scene(h, x.ring, [0], map[], 0, map[], 0) && Keeps(env, x) && w == R.Window(0, 0, |h|, h)
    ensures Reachable(env, World(x, Free, Free, Welcomed(0, Hello, w), Reading, FRESH))
  {
    hide Reachable, R.Represents;
    x := Starts(env);
    x := Produce(env, x, NewPeer, h);
    assert [] + h == h && [0] + [] == [0];
    Arrives(env, x, NewPeer);
    x := Joined(x);
    w := Attach(env, x, Hello, FRESH);
    assert h[0..] == h;
  }

  const FRESH := Connected(NewPeer, 0)

  /** Bytes that fit the ring although their REPLAY may not fit a frame. */
  function Unlucky(env: Env): seq<byte>
    requires !Good(env)
  {
    if env.allocFails then [0] else seq(MAX_FRAME - 8, i => 0)
  }

  /** After a REPLAY that could not be sent, the connection stays listed and authenticated for a while. */
  lemma ReplayIsSkipped(env: Env, x: Scene, w: R.Window)
    requires !Good(env) && 0 < env.cap && x.hist == Unlucky(env) && w == R.Window(0, 0, |x.hist|, x.hist)
    requires Reachable(env, World(x, Free, Free, Welcomed(x.c, Hello, w), Reading, FRESH))
    ensures Reachable(env, World(x, Free, Free, Welcomed(x.c, Hello, w).(pc := WantErrorLock, writeMu := Free), Reading,
                                 FRESH))
  {
    hide Encode, Reachable;
    var k := Welcomed(x.c, Hello, w);
    OwnMoves(env, x, Free, Free, k, Reading, FRESH, if env.allocFails then ReplayFails else Sent);
    OwnMoves(env, x, Free, Free, k.(pc := Unlocking(false)), Reading, FRESH, Unlock);
  }

  /** A broadcast of one byte reaches the only connection. */
  lemma BroadcastReaches(env: Env, x: Scene, k: Conn, b: byte) returns (x': Scene, k': Conn, pty: PtyPc)
    requires |x.hist| + 1 < U64_LIMIT && Keeps(env, x) && x == Scene(x.hist, x.ring, [0], map[], 0, map[], 0)
    requires Reachable(env, World(x, Free, Free, k, Reading, FRESH))
    requires Broadcastable(k.obj) && !k.broken && k.writeMu.Free? && k.obj.liveSeq <= |x.hist|
    ensures var f := StreamFrame(STDOUT, |x.hist|, [b]);
            && Reachable(env, World(x', Free, Free, k', pty, FRESH)) && x' == x.(hist := x.hist + [b], ring := x'.ring)
            && k'.frames == k.frames + [f] && k'.wire == k.wire + Encode(f)
            && k'.window == k.window && k'.first == k.first
  {
    hide Encode, EncodeAll, Reachable;
    var chunk, start := [b], |x.hist|;
    Appends(env, x, k, FRESH, chunk);
    x' := x.(hist := x.hist + chunk, ring := R.Append(x.ring, chunk));
    SnapshotsOne(env, x', k, start, chunk);
    k' := k.(obj := k.obj.(refs := k.obj.refs + 1));
    pty := Broadcasting(start, chunk, [0], 0, WantWriteMu);
    TurnSends(env, x', k', pty, FRESH);
    k', pty := Served(k', start, chunk), pty.(i := 1);
  }

  lemma SnapshotsOne(env: Env, x: Scene, k: Conn, start: nat, chunk: seq<byte>)
    requires x.list == [0] && x.c == 0 && x.others == map[] && Broadcastable(k.obj)
    requires Reachable(env, World(x, Free, Free, k, Appended(start, chunk), FRESH))
    ensures Reachable(env, World(x, Free, Free, k.(obj := k.obj.(refs := k.obj.refs + 1)),
                                 Broadcasting(start, chunk, [0], 0, WantWriteMu), FRESH))
  {
    var s := World(x, Free, Free, k, Appended(start, chunk), FRESH);
    assert LiveSet(s) == {0};
    FilterAll([0], {0});
    PinsOne(0, k);
    hide Filter, Pin, LiveSet;
    ReachNext(env, s, Pty(TakeSnapshot));
  }

  lemma PinsOne(c: ConnId, k: Conn)
    ensures Pin(map[][c := k], {c}) == map[][c := k.(obj := k.obj.(refs := k.obj.refs + 1))]
  {
    var conns, k' := map[][c := k], k.(obj := k.obj.(refs := k.obj.refs + 1));
    assert Pin(conns, {c}).Keys == {c} && Pin(conns, {c})[c] == k';
  }

  /** Live output straight after WELCOME is a gap, for the connection and for the client. */
  lemma WelcomeThenOutput(hist: seq<byte>, cap: nat, conns: map<ConnId, Conn>, n: nat, g: Frame, q: Peer)
    requires g.kind == STDOUT && 0 < n <= cap && q.spans == [Span(n, n + 1, n, Some(0))]
    ensures !GapFree(hist, cap, 0, [WelcomeFrame(0, n), g]) && !ResumesExactly(hist, cap, conns, q)
  {
    assert !FollowsOn(hist, cap, 0, [WelcomeFrame(0, n), g], 1);
    assert !SpanFollows(cap, q.spans, 0);
  }

  /** Outside a good environment there is a run in which live output follows WELCOME at once: the client
      prints it, having silently skipped bytes the ring still held. */
  lemma BadEnvironmentsHaveGaps(env: Env) returns (s: State)
    requires 0 < env.cap && !Good(env)
    ensures Reachable(env, s) && 0 in s.conns && 0 in s.peers
    ensures !GapFree(s.hist, env.cap, Requested(s.conns[0].first), s.conns[0].frames)
    ensures !ResumesExactly(s.hist, env.cap, s.conns, s.peers[0])
    ensures s.peers[0].spans == [Span(|Unlucky(env)|, |Unlucky(env)| + 1, |Unlucky(env)|, Some(0))]
    ensures R.Base(env.cap, |Unlucky(env)|) == 0 < |Unlucky(env)|
  {
    hide Encode, EncodeAll, GapFree, ResumesExactly;
    var h := Unlucky(env);
    var x, w := FirstAttach(env, h);
    ReplayIsSkipped(env, x, w);
    var k := Welcomed(0, Hello, w).(pc := WantErrorLock, writeMu := Free);
    var x', k', pty := BroadcastReaches(env, x, k, 1);
    var f, g := WelcomeFrame(0, |h|), StreamFrame(STDOUT, |h|, [1]);
    ServerMessagesRoundTrip(STDOUT, |h|, [1], 0, |h|);
    var q := TakesTwo(env, x', k', pty, FRESH, f, g, Stream(|h|, [1]));
    s := World(x', Free, Free, k', pty, q);
    assert [f] + [g] == [f, g];
    var piece := Span(|h|, |h| + 1, |h|, Some(0));
    assert [] + [piece] == [piece];
    WelcomeThenOutput(h + [1], env.cap, s.conns, |h|, g, q);
  }

  /** The first client is attached and up to date, and nothing has been produced yet. */
  lemma AttachedEarly(env: Env) returns (x: Scene, k: Conn)
    requires 0 < env.cap
    ensures x == Scene([], x.ring, [0], map[], 0, map[], 0) && Keeps(env, x)
    ensures Reachable(env, World(x, Free, Free, k, Reading, FRESH))
    ensures Broadcastable(k.obj) && !k.broken && k.writeMu.Free? && k.obj.liveSeq == 0 && k.first == Hello
    ensures k.frames == [WelcomeFrame(0, 0), StreamFrame(REPLAY, 0, [])]
  {
    hide Encode, EncodeAll, Reachable;
    var w;
    x, w := FirstAttach(env, []);
    SendsTheReplay(env, x, Hello, w, FRESH);
    k := Attached(Hello, w);
  }

  /** One failed allocation in the snapshot of the client list is enough: the chunk in hand is never sent, and
      the next one leaves a gap. */
  lemma FailedSnapshotLeavesAGap(env: Env) returns (s: State)
    requires 0 < env.cap && env.allocFails
    ensures Reachable(env, s) && 0 in s.conns
    ensures s.conns[0].frames
            == [WelcomeFrame(0, 0), StreamFrame(REPLAY, 0, []), StreamFrame(STDOUT, 1, [2])]
    ensures !GapFree(s.hist, env.cap, Requested(s.conns[0].first), s.conns[0].frames)
  {
    var x, k := AttachedEarly(env);
    var x', k', pty := MissesOne(env, x, k);
    s := World(x', Free, Free, k', pty, FRESH);
    ServerMessagesRoundTrip(REPLAY, 0, [], 0, 0);
    ServerMessagesRoundTrip(STDOUT, 1, [2], 0, 0);
    assert !FollowsOn(s.hist, env.cap, 0, k'.frames, 2);
  }

  /** One byte is appended, and the snapshot of the client list fails. */
  lemma SkipsOne(env: Env, x: Scene, k: Conn) returns (later: Scene)
    requires env.allocFails && x.hist == [] && Keeps(env, x)
    requires Reachable(env, World(x, Free, Free, k, Reading, FRESH))
    ensures later == x.(hist := [1], ring := later.ring) && Keeps(env, later)
    ensures Reachable(env, World(later, Free, Free, k, Reading, FRESH))
  {
    hide Encode, EncodeAll, Reachable;
    var one: seq<byte> := [1];
    Appends(env, x, k, FRESH, one);
    assert [] + one == one;
    later := x.(hist := one, ring := R.Append(x.ring, one));
    R.AppendKeepsWindow(x.ring, [], one);
    var s := World(later, Free, Free, k, Appended(0, one), FRESH);
    ReachNext(env, s, Pty(SnapshotFails));
    assert Do(env, s, Pty(SnapshotFails)) == World(later, Free, Free, k, Reading, FRESH);
  }

  /** It leaves a live client behind, between chunks. */
  lemma FailedSnapshotLeavesAClientBehind(env: Env) returns (s: State)
    requires 0 < env.cap && env.allocFails
    ensures Reachable(env, s) && 0 in s.conns && s.conns[0].obj.authenticated && !s.conns[0].obj.dead
    ensures !StandsAtChunkEnd(s, 0, s.conns[0].obj.liveSeq)
  {
    var x, k := AttachedEarly(env);
    var later := SkipsOne(env, x, k);
    s := World(later, Free, Free, k, Reading, FRESH);
  }

  /** Exactly when every live client of every run stands at a chunk's end: when allocations succeed. The ring's
      capacity plays no part. */
  lemma LiveClientsStandExactlyWhenAllocated(env: Env)
    requires 0 < env.cap
    ensures (forall s: State, c: ConnId ::
               Reachable(env, s) && c in s.conns && s.conns[c].obj.authenticated && !s.conns[c].obj.dead ==>
                 StandsAtChunkEnd(s, c, s.conns[c].obj.liveSeq))
            <==> !env.allocFails
  {
    hide Reachable, StandsAtChunkEnd;
    if env.allocFails {
      var s := FailedSnapshotLeavesAClientBehind(env);
    } else {
      forall s: State, c: ConnId
        | Reachable(env, s) && c in s.conns && s.conns[c].obj.authenticated && !s.conns[c].obj.dead
        ensures StandsAtChunkEnd(s, c, s.conns[c].obj.liveSeq)
      {
        LiveClientsStandAtChunkEnds(env, s, c);
      }
    }
  }

  lemma MissesOne(env: Env, x: Scene, k: Conn) returns (x': Scene, k': Conn, pty: PtyPc)
    requires env.allocFails && x == Scene([], x.ring, [0], map[], 0, map[], 0) && Keeps(env, x)
    requires Reachable(env, World(x, Free, Free, k, Reading, FRESH))
    requires Broadcastable(k.obj) && !k.broken && k.writeMu.Free? && k.obj.liveSeq == 0
    ensures Reachable(env, World(x', Free, Free, k', pty, FRESH)) && x' == x.(hist := [1, 2], ring := x'.ring)
    ensures k'.frames == k.frames + [StreamFrame(STDOUT, 1, [2])] && k'.first == k.first
  {
    hide Encode, EncodeAll, Reachable;
    var later := SkipsOne(env, x, k);
    x', k', pty := BroadcastReaches(env, later, k, 2);
    assert [1] + [2] == [1, 2];
  }

  // ---------------------------------------------------------------- Late stores of thread handles

  function JustAccepted(env: Env, list: seq<ConnId>, k: Conn): State {
    Init(env).(list := list, conns := map[0 := k], storing := Some(0))
  }

  lemma OwnMovesAlone(env: Env, list: seq<ConnId>, k: Conn, o: OwnStep)
    requires Reachable(env, JustAccepted(env, list, k)) && (o.Quit? || o.FinishClient?)
    requires CanOwn(env, Init(env).ring, Free, Free, k, o)
    ensures Reachable(env, JustAccepted(env, if o.FinishClient? then Unlink(list, 0) else list,
                                        OwnConn(env, Init(env).ring, Free, Free, 0, k, o)))
  {
    hide Reachable, OwnConn, CanOwn, Unlink;
    var s, k' := JustAccepted(env, list, k), OwnConn(env, Init(env).ring, Free, Free, 0, k, o);
    ReachNext(env, s, Own(0, o));
    assert map[0 := k][0 := k'] == map[0 := k'];
  }

  /** A connection whose thread ends at once: its object is freed while the main thread is still to store the
      handle of that thread in it. */
  lemma LateStoreTouchesFreed(env: Env) returns (s: State)
    requires 0 < env.cap && env.lateStore
    ensures Reachable(env, s) && Can(env, s, StoreThread(0)) && 0 in s.conns && s.conns[0].obj.frees == 1
  {
    hide Reachable, Unlink, Finish;
    ReachInit(env);
    var k := NewConn(Other);
    ReachNext(env, Init(env), Accept(0, Other));
    assert map[][0 := k] == map[0 := k] && [0] + [] == [0];
    OwnMovesAlone(env, [0], k, Quit);
    k := k.(pc := WantFinish);
    OwnMovesAlone(env, [0], k, FinishClient);
    FinishReleases(k.obj, false);
    s := JustAccepted(env, Unlink([0], 0), OwnConn(env, Init(env).ring, Free, Free, 0, k, FinishClient));
  }

  /** Exactly when no step of any run touches a freed client: when pthread_create stores the new thread's handle
      before that thread runs. */
  lemma StoresAreSafeExactly(env: Env)
    requires 0 < env.cap
    ensures (forall s: State, step: Step, c: ConnId ::
               Reachable(env, s) && Can(env, s, step) && c in s.conns && Touches(s, step, c) ==>
                 s.conns[c].obj.frees == 0)
            <==> !env.lateStore
  {
    hide Reachable, Can;
    if env.lateStore {
      var s := LateStoreTouchesFreed(env);
      assert Touches(s, StoreThread(0), 0);
    } else {
      forall s: State, step: Step, c: ConnId
        | Reachable(env, s) && Can(env, s, step) && c in s.conns && Touches(s, step, c)
        ensures s.conns[c].obj.frees == 0
      {
        NoUseAfterFree(env, s, step, c);
      }
    }
  }

  /** Exactly when every run keeps every connection gap-free and every client's output resuming exactly: when
      a full REPLAY fits a frame and allocations succeed. */
  lemma GapFreeExactlyWhenGood(env: Env)
    requires 0 < env.cap
    ensures (forall s: State, c: ConnId :: Reachable(env, s) && c in s.conns ==>
               GapFree(s.hist, env.cap, Requested(s.conns[c].first), s.conns[c].frames))
            <==> Good(env)
    ensures (forall s: State, p: PeerId :: Reachable(env, s) && p in s.peers ==>
               ResumesExactly(s.hist, env.cap, s.conns, s.peers[p]))
            <==> Good(env)
  {
    if Good(env) {
      forall s: State, c: ConnId | Reachable(env, s) && c in s.conns
        ensures GapFree(s.hist, env.cap, Requested(s.conns[c].first), s.conns[c].frames)
      {
        ConnectionsAreGapFree(env, s, c);
      }
      forall s: State, p: PeerId | Reachable(env, s) && p in s.peers
        ensures ResumesExactly(s.hist, env.cap, s.conns, s.peers[p])
      {
        EndToEnd(env, s, p);
      }
    } else {
      var s := BadEnvironmentsHaveGaps(env);
    }
  }
}
