/** End to end: what the client programs of the protocol print, over any number of connections. */
module ProtocolPeers {
  import opened Bytes
  import opened Framing
  import opened Messages
  import opened Clients
  import opened Protocol
  import opened ProtocolSafety
  import opened ProtocolDelivery
  import R = Ring

  // ---------------------------------------------------------------- What has been printed

  function EndOf(spans: seq<Span>): nat {
    if spans == [] then 0 else spans[|spans| - 1].to
  }

  /** Each span starts where the one before it ended, or where the ring began at its attach if that is later. */
  ghost predicate SpansOk(hist: seq<byte>, cap: nat, spans: seq<Span>) {
    spans == []
    || (var init, last := spans[..|spans| - 1], spans[|spans| - 1];
        && SpansOk(hist, cap, init)
        && last.from == Max(EndOf(init), R.Base(cap, last.attachedAt))
        && last.from <= last.to <= |hist|
        && last.attachedAt <= |hist|)
  }

  function Gather(hist: seq<byte>, spans: seq<Span>): seq<byte> {
    if spans == [] then []
    else
      var last := spans[|spans| - 1];
      Gather(hist, spans[..|spans| - 1])
      + if last.from <= last.to <= |hist| then hist[last.from..last.to] else []
  }

  /** The first `n` spans reach at least as far as the history did at their attach. */
  ghost predicate Caught(spans: seq<Span>, n: int) {
    forall i :: 0 <= i < n && i < |spans| ==> spans[i].attachedAt <= spans[i].to
  }

  /** The attach a span records is the attach of its connection. */
  ghost predicate Anchored(conns: map<ConnId, Conn>, x: Span) {
    && x.conn.Some? && x.conn.value in conns && conns[x.conn.value].window.Some?
    && conns[x.conn.value].window.value.next == x.attachedAt
  }

  ghost predicate AllAnchored(conns: map<ConnId, Conn>, spans: seq<Span>) {
    forall i :: 0 <= i < |spans| ==> Anchored(conns, spans[i])
  }

  ghost predicate PrintedOk(hist: seq<byte>, cap: nat, q: Peer) {
    && SpansOk(hist, cap, q.spans)
    && q.out == Gather(hist, q.spans)
    && Caught(q.spans, if q.stopped then |q.spans| - 1 else |q.spans|)
    && (!q.stopped ==> q.lastSeq == EndOf(q.spans) <= |hist|)
    && (q.stopped ==> q.conn.None?)
    && (!q.stopped && q.conn.None? && !q.connectedOnce ==> q.lastSeq == 0)
  }

  /** The client has consumed the first `got` frames of its connection. */
  ghost predicate LinkOk(hist: seq<byte>, q: Peer, k: Conn) {
    && !k.first.Other? && Requested(k.first) <= |hist|
    && (k.window.Some? ==> Requested(k.first) <= k.window.value.next)
    && q.got <= |k.frames| && q.taken == |EncodeAll(k.frames[..q.got])|
    && (!k.obj.authenticated ==> q.got == 0)
    && (q.got <= 1 ==> q.lastSeq == Requested(k.first))
    && (q.got >= 2 && k.window.Some? ==>
          var w := k.window.value;
          && Carries(hist, w, k.frames[..q.got], q.lastSeq)
          && q.spans != [] && q.spans[|q.spans| - 1] == Span(w.from, q.lastSeq, w.next, q.conn))
  }

  ghost predicate PeerOk(hist: seq<byte>, cap: nat, q: Peer, conns: map<ConnId, Conn>) {
    && PrintedOk(hist, cap, q)
    && AllAnchored(conns, q.spans)
    && (q.conn.Some? ==> q.conn.value in conns && LinkOk(hist, q, conns[q.conn.value]))
  }

  ghost predicate Peers(env: Env, s: State) {
    forall p :: p in s.peers ==> PeerOk(s.hist, env.cap, s.peers[p], s.conns)
  }

  // ---------------------------------------------------------------- Steps of the server

  /** What a step may do to a connection, as far as its client can tell. */
  ghost predicate ConnGrows(total: nat, k: Conn, k': Conn) {
    && k'.first == k.first && k.frames <= k'.frames
    && (k.window.Some? ==> k'.window == k.window)
    && (k'.window.Some? ==> k'.window == k.window || k'.window.value.next == total)
    && (k.obj.authenticated ==> k'.obj.authenticated && k'.window.Some?)
  }

  lemma OwnGrows(env: Env, hist: seq<byte>, ring: R.RingState, clientsMu: Lock, ringMu: Lock, pty: PtyPc,
                 listed: bool, c: ConnId, k: Conn, o: OwnStep)
    requires R.Represents(ring, hist) && RefsOk(listed, pty, c, k) && StreamOk(hist, env.cap, pty, c, k)
    requires CanOwn(env, ring, clientsMu, ringMu, k, o)
    ensures ConnGrows(|hist|, k, OwnConn(env, ring, clientsMu, ringMu, c, k, o))
  {
    if o.FinishClient? {
      FinishReleases(k.obj, Pinned(pty, c));
    }
  }

  lemma TurnGrows(env: Env, clientsMu: Lock, pty: PtyPc, total: nat, k: Conn, t: TurnStep)
    requires pty.Broadcasting? && CanTurn(env, clientsMu, pty, k, t)
    requires k.obj.authenticated ==> k.window.Some?
    requires k.obj.refs == Bit(k.obj.inList) + Bit(!k.pc.Finished?) + 1
    ensures ConnGrows(total, k, TurnConn(env, clientsMu, pty, k, t))
  {
    if t.TMarkDead? {
      AbandonReleases(k.obj, Bit(!k.pc.Finished?) + 1);
    }
  }

  lemma PtyGrows(env: Env, s: State, p: PtyStep, c: ConnId)
    requires CanPty(env, s, p) && c in s.conns
    requires s.conns[c].obj.authenticated ==> s.conns[c].window.Some?
    ensures c in DoPty(env, s, p).conns && ConnGrows(|s.hist|, s.conns[c], DoPty(env, s, p).conns[c])
  {
    var k, k' := s.conns[c], DoPty(env, s, p).conns[c];
    assert k' == k.(obj := k'.obj) && k'.obj.authenticated == k.obj.authenticated;
  }

  lemma WorldGrows(env: Env, s: State, step: Step, c: ConnId)
    requires Can(env, s, step) && !step.Own? && !step.Turn? && !step.Pty?
    requires c in s.conns && (s.conns[c].obj.authenticated ==> s.conns[c].window.Some?)
    ensures c in Do(env, s, step).conns && ConnGrows(|s.hist|, s.conns[c], Do(env, s, step).conns[c])
  {
  }

  lemma StepGrows(env: Env, s: State, step: Step, c: ConnId)
    requires Good(env) && Safe(env, s) && Streams(env, s) && Can(env, s, step) && c in s.conns
    ensures c in Do(env, s, step).conns && ConnGrows(|s.hist|, s.conns[c], Do(env, s, step).conns[c])
  {
    var k := s.conns[c];
    assert RefsOk(c in s.list, s.pty, c, k) && StreamOk(s.hist, env.cap, s.pty, c, k);
    if step.Own? {
      assert step.c != c ==> Do(env, s, step).conns[c] == k;
      if step.c == c {
        OwnGrows(env, s.hist, s.ring, s.clientsMu, s.ringMu, s.pty, c in s.list, c, k, step.own);
      }
    } else if step.Turn? {
      assert TurnOf(s.pty) != c ==> Do(env, s, step).conns[c] == k;
      if TurnOf(s.pty) == c {
        TurnGrows(env, s.clientsMu, s.pty, |s.hist|, k, step.turn);
      }
    } else if step.Pty? {
      PtyGrows(env, s, step.pty, c);
    } else {
      WorldGrows(env, s, step, c);
    }
  }

  lemma {:induction false} GatherGrows(hist: seq<byte>, hist': seq<byte>, cap: nat, spans: seq<Span>)
    requires SpansOk(hist, cap, spans) && hist <= hist'
    ensures SpansOk(hist', cap, spans) && Gather(hist', spans) == Gather(hist, spans)
  {
    if spans != [] {
      var init, last := spans[..|spans| - 1], spans[|spans| - 1];
      GatherGrows(hist, hist', cap, init);
      assert hist'[last.from..last.to] == hist[last.from..last.to];
    }
  }

  lemma PrintedGrows(hist: seq<byte>, hist': seq<byte>, cap: nat, q: Peer)
    requires PrintedOk(hist, cap, q) && hist <= hist'
    ensures PrintedOk(hist', cap, q)
  {
    GatherGrows(hist, hist', cap, q.spans);
  }

  lemma LinkGrows(hist: seq<byte>, hist': seq<byte>, q: Peer, k: Conn, k': Conn)
    requires LinkOk(hist, q, k) && hist <= hist' && ConnGrows(|hist|, k, k')
    requires k.obj.authenticated ==> k.window.Some?
    ensures LinkOk(hist', q, k')
  {
    assert k'.frames[..q.got] == k.frames[..q.got];
    if q.got >= 2 {
      assert hist' == hist + hist'[|hist|..];
      CarriesGrows(hist, hist'[|hist|..], k.window.value, k.frames[..q.got], q.lastSeq);
    }
  }

  lemma AnchorGrows(env: Env, s: State, step: Step, x: Span)
    requires Good(env) && Safe(env, s) && Streams(env, s) && Can(env, s, step) && Anchored(s.conns, x)
    ensures Anchored(Do(env, s, step).conns, x)
  {
    hide Safe, Streams, Do, Can;
    StepGrows(env, s, step, x.conn.value);
  }

  lemma PeerGrows(env: Env, s: State, step: Step, q: Peer)
    requires Good(env) && Safe(env, s) && Streams(env, s) && Can(env, s, step)
    requires PeerOk(s.hist, env.cap, q, s.conns)
    ensures PeerOk(Do(env, s, step).hist, env.cap, q, Do(env, s, step).conns)
  {
    hide Streams, Do, Can, PrintedOk, LinkOk, Anchored, ConnGrows, LockOk, WireOf, NoDup;
    var s' := Do(env, s, step);
    HistGrows(env, s, step);
    PrintedGrows(s.hist, s'.hist, env.cap, q);
    forall i | 0 <= i < |q.spans|
      ensures Anchored(s'.conns, q.spans[i])
    {
      AnchorGrows(env, s, step, q.spans[i]);
    }
    if q.conn.Some? {
      var c := q.conn.value;
      StepGrows(env, s, step, c);
      assert RefsOk(c in s.list, s.pty, c, s.conns[c]);
      LinkGrows(s.hist, s'.hist, q, s.conns[c], s'.conns[c]);
    }
  }

  lemma HistGrows(env: Env, s: State, step: Step)
    requires Can(env, s, step)
    ensures s.hist <= Do(env, s, step).hist
  {
  }

  // ---------------------------------------------------------------- What a client receives

  /** The bytes on the wire are the complete frames and a proper part of one more. */
  lemma WireTail(pty: PtyPc, c: ConnId, k: Conn) returns (g: Frame, m: nat)
    requires WireOf(pty, c, k)
    ensures Sendable(g) && m < |Encode(g)| && k.wire == EncodeAll(k.frames) + Encode(g)[..m]
  {
    var whole := EncodeAll(k.frames);
    m := |k.wire| - |whole|;
    match k.cut
    case Some(f) =>
      g := f;
      assert k.wire == (whole + Encode(f))[..|k.wire|];
    case None =>
      match Writer(pty, c, k)
      case None =>
        g := Frame(0, []);
      case Some(fr) =>
        g := fr.0;
        assert k.wire == (whole + Encode(g))[..|k.wire|];
  }

  lemma SameEncoding(f: Frame, a: seq<byte>, g: Frame, b: seq<byte>)
    requires Sendable(f) && Sendable(g) && Encode(f) + a == Encode(g) + b
    ensures f == g
  {
    ReceiveInvertsEncode(f, a, MAX_FRAME - 1);
    ReceiveInvertsEncode(g, b, MAX_FRAME - 1);
  }

  /** What is on the wire after `got` frames. */
  lemma WireAfter(wire: seq<byte>, frames: seq<Frame>, tail: seq<byte>, got: nat)
    requires wire == EncodeAll(frames) + tail && got <= |frames|
    ensures |EncodeAll(frames[..got])| <= |wire|
    ensures wire[|EncodeAll(frames[..got])|..] == EncodeAll(frames[got..]) + tail
  {
    assert frames == frames[..got] + frames[got..];
    EncodeAllSplit(frames[..got], frames[got..]);
    Assoc(EncodeAll(frames[..got]), EncodeAll(frames[got..]), tail);
  }

  /** A receive from an initial part of the rest of the wire. */
  lemma NextOf(later: seq<Frame>, g: Frame, m: nat, j: nat)
    requires (forall i :: 0 <= i < |later| ==> Sendable(later[i])) && Sendable(g) && m < |Encode(g)|
    requires j <= |EncodeAll(later) + Encode(g)[..m]|
    requires Receive((EncodeAll(later) + Encode(g)[..m])[..j], MAX_FRAME - 1).Got?
    ensures later != [] && Receive((EncodeAll(later) + Encode(g)[..m])[..j], MAX_FRAME - 1).frame == later[0]
  {
    var all := EncodeAll(later) + Encode(g)[..m];
    var input := all[..j];
    var r := Receive(input, MAX_FRAME - 1);
    ReceiveAcceptsOnlyEncodings(input, MAX_FRAME - 1);
    if later == [] {
      assert all == Encode(g)[..m];
      assert input == Encode(g)[..j];
      if j > 0 {
        CutInsideFrame(g, j, MAX_FRAME - 1);
      }
      assert false;
    } else {
      Assoc(Encode(r.frame), r.rest, all[j..]);
      assert all == input + all[j..];
      EncodeAllHead(later);
      Assoc(Encode(later[0]), EncodeAll(later[1..]), Encode(g)[..m]);
      SameEncoding(r.frame, r.rest + all[j..], later[0], EncodeAll(later[1..]) + Encode(g)[..m]);
    }
  }

  /** Whatever part of the wire has arrived, a receive that delivers a frame delivers the next one sent. */
  lemma NextFrame(pty: PtyPc, c: ConnId, k: Conn, got: nat, taken: nat, avail: nat)
    requires WireOf(pty, c, k) && got <= |k.frames| && taken == |EncodeAll(k.frames[..got])|
    requires taken <= avail <= |k.wire| && Receive(k.wire[taken..avail], MAX_FRAME - 1).Got?
    ensures got < |k.frames|
    ensures var r := Receive(k.wire[taken..avail], MAX_FRAME - 1);
            r.frame == k.frames[got] && avail - |r.rest| == |EncodeAll(k.frames[..got + 1])|
  {
    hide Encode, EncodeAll, Receive;
    var g, m := WireTail(pty, c, k);
    var r := Receive(k.wire[taken..avail], MAX_FRAME - 1);
    WireAfter(k.wire, k.frames, Encode(g)[..m], got);
    assert k.wire[taken..avail] == k.wire[taken..][..avail - taken];
    NextOf(k.frames[got..], g, m, avail - taken);
    assert |Encode(r.frame)| + |r.rest| == avail - taken by {
      ReceiveAcceptsOnlyEncodings(k.wire[taken..avail], MAX_FRAME - 1);
    }
    assert |EncodeAll(k.frames[..got + 1])| == taken + |Encode(k.frames[got])| by {
      EncodeAllSnoc(k.frames, got);
    }
  }

  // ---------------------------------------------------------------- The next frame of a good connection

  function Total(fs: seq<Frame>): int {
    if fs == [] then 0 else Total(fs[..|fs| - 1]) + |fs[|fs| - 1].payload| - 8
  }

  lemma {:induction false} ChainTotal(hist: seq<byte>, fs: seq<Frame>, from: nat, upto: nat)
    requires Chain(hist, fs, from, upto)
    ensures upto == from + Total(fs)
    decreases |fs|
  {
    if fs != [] {
      ChainTotal(hist, fs[..|fs| - 1], from, upto - (|fs[|fs| - 1].payload| - 8));
    }
  }

  /** Frame `j` of a chain starts where the frames before it end. */
  lemma {:induction false} ChainAt(hist: seq<byte>, fs: seq<Frame>, from: nat, upto: nat, j: nat, mid: nat)
    requires Chain(hist, fs, from, upto) && j < |fs| && Chain(hist, fs[..j], from, mid)
    ensures var n := |fs[j].payload| - 8;
            && 0 < n && mid + n <= |hist|
            && fs[j] == StreamFrame(STDOUT, mid, hist[mid..mid + n])
            && Chain(hist, fs[..j + 1], from, mid + n)
    decreases |fs|
  {
    hide StreamPayload;
    var init := fs[..|fs| - 1];
    var start := upto - (|fs[|fs| - 1].payload| - 8);
    if j == |fs| - 1 {
      ChainTotal(hist, init, from, start);
      ChainTotal(hist, fs[..j], from, mid);
      assert fs[..j + 1] == fs;
    } else {
      assert init[..j] == fs[..j] && init[..j + 1] == fs[..j + 1];
      ChainAt(hist, init, from, start, j, mid);
      ChainBounds(hist, init, from, start);
    }
  }

  lemma CarriesAt(hist: seq<byte>, w: R.Window, fs: seq<Frame>, upto: nat, j: nat, mid: nat)
    requires Carries(hist, w, fs, upto) && 2 <= j < |fs| && Carries(hist, w, fs[..j], mid)
    ensures var n := |fs[j].payload| - 8;
            && 0 < n && mid + n <= |hist|
            && fs[j] == StreamFrame(STDOUT, mid, hist[mid..mid + n])
            && Carries(hist, w, fs[..j + 1], mid + n)
  {
    assert fs[..j][2..] == fs[2..][..j - 2];
    assert fs[..j + 1][2..] == fs[2..][..j - 1];
    ChainAt(hist, fs[2..], w.next, upto, j - 2, mid);
  }

  /** A published connection's frames are an initial part of WELCOME, REPLAY, or all of that and live output. */
  lemma FramesOf(hist: seq<byte>, cap: nat, pty: PtyPc, c: ConnId, k: Conn) returns (upto: nat)
    requires StreamOk(hist, cap, pty, c, k) && k.obj.authenticated && k.window.Some?
    ensures var w := k.window.value;
            var welcome := WelcomeFrame(w.base, w.next);
            || Carries(hist, w, k.frames, upto)
            || k.frames == [] || k.frames == [welcome] || k.frames == [welcome, ReplayFrame(w)]
    ensures |k.frames| >= 3 ==> Carries(hist, k.window.value, k.frames, upto)
  {
    upto := Through(pty, c, k);
  }

  // ---------------------------------------------------------------- Printing one more piece

  lemma PrintSpan(hist: seq<byte>, cap: nat, spans: seq<Span>, x: Span)
    requires SpansOk(hist, cap, spans)
    requires x.from == Max(EndOf(spans), R.Base(cap, x.attachedAt))
    requires x.from <= x.to <= |hist| && x.attachedAt <= |hist|
    ensures SpansOk(hist, cap, spans + [x])
    ensures Gather(hist, spans + [x]) == Gather(hist, spans) + hist[x.from..x.to]
  {
    var more := spans + [x];
    assert more[..|spans|] == spans;
  }

  lemma PrintMore(hist: seq<byte>, cap: nat, spans: seq<Span>, n: nat)
    requires SpansOk(hist, cap, spans) && spans != [] && spans[|spans| - 1].to + n <= |hist|
    ensures var last := spans[|spans| - 1];
            var more := spans[|spans| - 1 := last.(to := last.to + n)];
            && SpansOk(hist, cap, more) && EndOf(more) == last.to + n
            && Gather(hist, more) == Gather(hist, spans) + hist[last.to..last.to + n]
  {
    var last := spans[|spans| - 1];
    var more := spans[|spans| - 1 := last.(to := last.to + n)];
    assert more[..|spans| - 1] == spans[..|spans| - 1];
    assert hist[last.from..last.to] + hist[last.to..last.to + n] == hist[last.from..last.to + n];
  }

  /** The stream frame a client is about to process continues its output exactly where it stands. */
  ghost predicate Continues(hist: seq<byte>, cap: nat, q: Peer, f: Frame, st: Stream, w: R.Window) {
    && st.start + |st.data| <= |hist| && st.data == hist[st.start..st.start + |st.data|]
    && w.next <= |hist| && q.lastSeq <= st.start + |st.data|
    && if f.kind == REPLAY then st.start == Max(q.lastSeq, R.Base(cap, w.next)) && st.start + |st.data| == w.next
       else q.spans != [] && q.spans[|q.spans| - 1].to == st.start
  }

  lemma PrintReplay(hist: seq<byte>, cap: nat, spans: seq<Span>, start: nat, n: nat, at: nat, conn: Option<ConnId>)
    requires SpansOk(hist, cap, spans) && start + n <= |hist| && at <= |hist|
    requires start == Max(EndOf(spans), R.Base(cap, at))
    ensures var more := spans + [Span(start, start + n, at, conn)];
            && SpansOk(hist, cap, more) && EndOf(more) == start + n
            && Gather(hist, more) == Gather(hist, spans) + hist[start..start + n]
  {
    PrintSpan(hist, cap, spans, Span(start, start + n, at, conn));
  }

  lemma PrintFrame(hist: seq<byte>, cap: nat, q: Peer, f: Frame, st: Stream, w: R.Window, n: nat)
    requires PrintedOk(hist, cap, q) && !q.stopped && Continues(hist, cap, q, f, st, w) && n <= |st.data|
    ensures var spans := Note(q.spans, f.kind, st.start, n, Some(w), q.conn);
            && SpansOk(hist, cap, spans) && EndOf(spans) == st.start + n
            && Gather(hist, spans) == q.out + st.data[..n]
  {
    hide SpansOk, Gather;
    TakeSlice(hist, st.start, |st.data|, n);
    if f.kind == REPLAY {
      PrintReplay(hist, cap, q.spans, st.start, n, w.next, q.conn);
    } else {
      PrintMore(hist, cap, q.spans, n);
    }
  }

  lemma TakeSlice(hist: seq<byte>, from: nat, len: nat, n: nat)
    requires from + len <= |hist| && n <= len
    ensures hist[from..from + len][..n] == hist[from..from + n]
  {
  }

  lemma NextContinues(hist: seq<byte>, cap: nat, pty: PtyPc, c: ConnId, k: Conn, q: Peer) returns (st: Stream)
    requires |hist| < U64_LIMIT
    requires StreamOk(hist, cap, pty, c, k) && k.obj.authenticated && k.window.Some?
    requires PrintedOk(hist, cap, q) && !q.stopped && LinkOk(hist, q, k) && 0 < q.got < |k.frames|
    ensures var f, w := k.frames[q.got], k.window.value;
            && StreamOf(f) == Some(st) && WelcomeOf(f).None?
            && Continues(hist, cap, q, f, st, w)
            && f.kind == (if q.got == 1 then REPLAY else STDOUT)
            && (q.got == 1 ==> st == Stream(w.from, w.data))
            && Carries(hist, w, k.frames[..q.got + 1], st.start + |st.data|)
  {
    hide Encode, EncodeAll, Chain, Receive, StreamOk, SpansOk, Gather, StreamOf;
    if q.got == 1 {
      st := ReplayContinues(hist, cap, pty, c, k, q);
    } else {
      st := StdoutContinues(hist, cap, pty, c, k, q);
    }
  }

  lemma ReplayContinues(hist: seq<byte>, cap: nat, pty: PtyPc, c: ConnId, k: Conn, q: Peer) returns (st: Stream)
    requires |hist| < U64_LIMIT
    requires StreamOk(hist, cap, pty, c, k) && k.obj.authenticated && k.window.Some?
    requires LinkOk(hist, q, k) && 1 == q.got < |k.frames|
    ensures var f, w := k.frames[1], k.window.value;
            && f.kind == REPLAY && StreamOf(f) == Some(st) && st == Stream(w.from, w.data)
            && Continues(hist, cap, q, f, st, w)
            && Carries(hist, w, k.frames[..2], w.next) && st.start + |st.data| == w.next
  {
    hide ToBE, GetU64, Encode, EncodeAll;
    var f, w := k.frames[1], k.window.value;
    var upto := FramesOf(hist, cap, pty, c, k);
    assert f == ReplayFrame(w) && k.frames[0] == WelcomeFrame(w.base, w.next);
    st := Stream(w.from, w.data);
    ServerMessagesRoundTrip(REPLAY, w.from, w.data, 0, 0);
    assert k.frames[..2][2..] == [];
  }

  lemma LiveFrame(hist: seq<byte>, w: R.Window, fs: seq<Frame>, upto: nat, j: nat, mid: nat) returns (st: Stream)
    requires |hist| < U64_LIMIT
    requires Carries(hist, w, fs, upto) && 2 <= j < |fs| && Carries(hist, w, fs[..j], mid)
    ensures fs[j].kind == STDOUT && StreamOf(fs[j]) == Some(st) && st.start == mid
    ensures mid + |st.data| <= |hist| && st.data == hist[mid..mid + |st.data|]
    ensures Carries(hist, w, fs[..j + 1], mid + |st.data|)
  {
    hide ToBE, GetU64, Chain;
    CarriesAt(hist, w, fs, upto, j, mid);
    var n := |fs[j].payload| - 8;
    st := Stream(mid, hist[mid..mid + n]);
    ServerMessagesRoundTrip(STDOUT, mid, st.data, 0, 0);
  }

  lemma StdoutContinues(hist: seq<byte>, cap: nat, pty: PtyPc, c: ConnId, k: Conn, q: Peer) returns (st: Stream)
    requires |hist| < U64_LIMIT
    requires StreamOk(hist, cap, pty, c, k) && k.obj.authenticated && k.window.Some?
    requires LinkOk(hist, q, k) && 2 <= q.got < |k.frames|
    ensures var f, w := k.frames[q.got], k.window.value;
            && f.kind == STDOUT && StreamOf(f) == Some(st)
            && Continues(hist, cap, q, f, st, w)
            && Carries(hist, w, k.frames[..q.got + 1], st.start + |st.data|)
  {
    hide Encode, EncodeAll, Chain, Receive, StreamOf, ToBE;
    var upto := FramesOf(hist, cap, pty, c, k);
    st := LiveFrame(hist, k.window.value, k.frames, upto, q.got, q.lastSeq);
  }

  // ---------------------------------------------------------------- Steps of a client

  lemma ProcessStream(q: Peer, f: Frame, window: Option<R.Window>, st: Stream)
    requires StreamOf(f) == Some(st) && WelcomeOf(f).None? && q.lastSeq <= st.start + |st.data|
    ensures ProcessServerFrame(q, f, window)
            == q.(out := q.out + st.data, lastSeq := st.start + |st.data|, got := q.got + 1,
                  spans := Note(q.spans, f.kind, st.start, |st.data|, window, q.conn))
  {
  }

  lemma StreamPrinted(hist: seq<byte>, cap: nat, q: Peer, f: Frame, st: Stream, w: R.Window, q': Peer)
    requires PrintedOk(hist, cap, q) && !q.stopped && q.conn.Some? && Continues(hist, cap, q, f, st, w)
    requires q'.spans == Note(q.spans, f.kind, st.start, |st.data|, Some(w), q.conn) && q'.out == q.out + st.data
    requires q'.lastSeq == st.start + |st.data| && q'.conn == q.conn && !q'.stopped
    ensures PrintedOk(hist, cap, q')
  {
    PrintFrame(hist, cap, q, f, st, w, |st.data|);
    NoteCaught(q.spans, f.kind, st.start, |st.data|, w, q.conn);
    assert st.data[..|st.data|] == st.data;
  }

  /** One more piece of output keeps the earlier spans caught up, and the last if the frame is whole. */
  lemma NoteCaught(spans: seq<Span>, kind: byte, start: nat, n: nat, w: R.Window, conn: Option<ConnId>)
    requires Caught(spans, |spans|)
    requires if kind == REPLAY then true else spans != [] && spans[|spans| - 1].to <= start
    ensures var more := Note(spans, kind, start, n, Some(w), conn);
            && Caught(more, |more| - 1)
            && (kind == REPLAY && start + n == w.next ==> Caught(more, |more|))
            && (kind != REPLAY ==> Caught(more, |more|))
  {
  }

  /** The spans that `Note` leaves are those there were, or of this connection. */
  lemma NoteAnchored(conns: map<ConnId, Conn>, spans: seq<Span>, kind: byte, start: nat, n: nat, w: R.Window, c: ConnId)
    requires AllAnchored(conns, spans) && c in conns && conns[c].window == Some(w)
    ensures AllAnchored(conns, Note(spans, kind, start, n, Some(w), Some(c)))
  {
    var more := Note(spans, kind, start, n, Some(w), Some(c));
    forall i | 0 <= i < |more|
      ensures Anchored(conns, more[i])
    {
      if i < |spans| {
        assert Anchored(conns, spans[i]);
      }
    }
  }

  /** The client has written out stream frame `got` in full. */
  lemma StreamLinked(hist: seq<byte>, cap: nat, k: Conn, q: Peer, st: Stream, q': Peer)
    requires LinkOk(hist, q, k) && k.obj.authenticated && k.window.Some? && 0 < q.got < |k.frames|
    requires var f, w := k.frames[q.got], k.window.value;
             && Continues(hist, cap, q, f, st, w)
             && f.kind == (if q.got == 1 then REPLAY else STDOUT)
             && (q.got == 1 ==> st == Stream(w.from, w.data) && w.from + |w.data| == w.next)
             && Carries(hist, w, k.frames[..q.got + 1], st.start + |st.data|)
             && q'.spans == Note(q.spans, f.kind, st.start, |st.data|, Some(w), q.conn)
    requires q'.taken == |EncodeAll(k.frames[..q.got + 1])| && q'.got == q.got + 1 && q'.conn == q.conn
    requires q'.lastSeq == st.start + |st.data|
    ensures LinkOk(hist, q', k)
  {
    hide Encode, EncodeAll, Carries, WelcomeFrame, ReplayFrame, StreamOf;
  }

  /** The client of a connection, and the connection. */
  ghost predicate Reads(hist: seq<byte>, cap: nat, pty: PtyPc, c: ConnId, k: Conn, q: Peer) {
    && |hist| < U64_LIMIT && StreamOk(hist, cap, pty, c, k) && WireOf(pty, c, k)
    && (k.obj.authenticated ==> k.window.Some?)
    && PrintedOk(hist, cap, q) && !q.stopped && q.conn == Some(c) && LinkOk(hist, q, k)
  }

  /** WELCOME, or an ERROR that turns the client away. */
  lemma TakeOther(hist: seq<byte>, cap: nat, pty: PtyPc, c: ConnId, k: Conn, q: Peer, taken: nat)
    requires Reads(hist, cap, pty, c, k, q) && q.got < |k.frames| && taken == |EncodeAll(k.frames[..q.got + 1])|
    requires !k.obj.authenticated || q.got == 0
    ensures var q' := ProcessServerFrame(q, k.frames[q.got], k.window).(taken := taken);
            PrintedOk(hist, cap, q') && (q'.conn.Some? ==> q'.conn == q.conn && LinkOk(hist, q', k))
  {
    hide Encode, EncodeAll, Chain, SpansOk, Gather, ToBE, GetU64;
    if !k.obj.authenticated {
      assert k.frames[q.got].kind == ERROR;
    } else {
      var upto := FramesOf(hist, cap, pty, c, k);
      assert k.frames[0] == WelcomeFrame(k.window.value.base, k.window.value.next);
    }
  }

  lemma TakeStream(hist: seq<byte>, cap: nat, pty: PtyPc, c: ConnId, k: Conn, q: Peer, taken: nat)
    requires Reads(hist, cap, pty, c, k, q) && 0 < q.got < |k.frames| && taken == |EncodeAll(k.frames[..q.got + 1])|
    requires k.obj.authenticated
    ensures var q' := ProcessServerFrame(q, k.frames[q.got], k.window).(taken := taken);
            PrintedOk(hist, cap, q') && q'.conn == q.conn && LinkOk(hist, q', k)
  {
    hide Encode, EncodeAll, Chain, Carries, StreamOf, WelcomeOf, SpansOk, Gather, StreamOk, WireOf, LinkOk, Note;
    var st := NextContinues(hist, cap, pty, c, k, q);
    var f, w := k.frames[q.got], k.window.value;
    var q' := ProcessServerFrame(q, f, k.window).(taken := taken);
    ProcessStream(q, f, k.window, st);
    StreamPrinted(hist, cap, q, f, st, w, q');
    StreamLinked(hist, cap, k, q, st, q');
  }

  lemma TakeFrameOk(hist: seq<byte>, cap: nat, pty: PtyPc, c: ConnId, k: Conn, q: Peer, avail: nat)
    requires Reads(hist, cap, pty, c, k, q)
    requires q.taken <= avail <= |k.wire| && Receive(k.wire[q.taken..avail], MAX_FRAME - 1).Got?
    ensures var r := Receive(k.wire[q.taken..avail], MAX_FRAME - 1);
            var q' := ProcessServerFrame(q, r.frame, k.window).(taken := avail - |r.rest|);
            PrintedOk(hist, cap, q') && (q'.conn.Some? ==> q'.conn == q.conn && LinkOk(hist, q', k))
  {
    hide Encode, EncodeAll, Receive, StreamOk, WireOf, PrintedOk, ProcessServerFrame;
    NextFrame(pty, c, k, q.got, q.taken, avail);
    var taken := |EncodeAll(k.frames[..q.got + 1])|;
    hide LinkOk;
    if !k.obj.authenticated || q.got == 0 {
      TakeOther(hist, cap, pty, c, k, q, taken);
    } else {
      TakeStream(hist, cap, pty, c, k, q, taken);
    }
  }

  lemma OutputStopsOk(hist: seq<byte>, cap: nat, pty: PtyPc, c: ConnId, k: Conn, q: Peer, avail: nat, n: nat)
    requires Reads(hist, cap, pty, c, k, q)
    requires q.taken <= avail <= |k.wire| && Receive(k.wire[q.taken..avail], MAX_FRAME - 1).Got?
    requires var f := Receive(k.wire[q.taken..avail], MAX_FRAME - 1).frame;
             StreamOf(f).Some? && n <= |StreamOf(f).value.data|
    ensures PrintedOk(hist, cap, OutputStops(q, Receive(k.wire[q.taken..avail], MAX_FRAME - 1).frame, n, k.window))
  {
    hide Encode, EncodeAll, Chain, Receive;
    NextFrame(pty, c, k, q.got, q.taken, avail);
    if !k.obj.authenticated {
      assert false;
    } else if q.got == 0 {
      var upto := FramesOf(hist, cap, pty, c, k);
      assert false;
    } else {
      var st := NextContinues(hist, cap, pty, c, k, q);
      PrintFrame(hist, cap, q, k.frames[q.got], st, k.window.value, n);
      NoteCaught(q.spans, k.frames[q.got].kind, st.start, n, k.window.value, q.conn);
    }
  }

  /** Output comes only over a connection that has attached. */
  lemma OutputMeansAttached(hist: seq<byte>, cap: nat, pty: PtyPc, c: ConnId, k: Conn, q: Peer, avail: nat)
    requires Reads(hist, cap, pty, c, k, q)
    requires q.taken <= avail <= |k.wire| && Receive(k.wire[q.taken..avail], MAX_FRAME - 1).Got?
    ensures StreamOf(Receive(k.wire[q.taken..avail], MAX_FRAME - 1).frame).Some? ==> k.window.Some?
  {
    hide Encode, EncodeAll, Chain, Receive;
    NextFrame(pty, c, k, q.got, q.taken, avail);
  }

  lemma ProcessAnchored(conns: map<ConnId, Conn>, q: Peer, f: Frame, c: ConnId, n: nat)
    requires AllAnchored(conns, q.spans) && q.conn == Some(c) && c in conns
    requires StreamOf(f).Some? ==> conns[c].window.Some?
    ensures AllAnchored(conns, ProcessServerFrame(q, f, conns[c].window).spans)
    ensures StreamOf(f).Some? && n <= |StreamOf(f).value.data| ==>
              AllAnchored(conns, OutputStops(q, f, n, conns[c].window).spans)
  {
    hide Anchored, Note;
    if StreamOf(f).Some? {
      var st := StreamOf(f).value;
      NoteAnchored(conns, q.spans, f.kind, st.start, |st.data|, conns[c].window.value, c);
      NoteAnchored(conns, q.spans, f.kind, st.start, n, conns[c].window.value, c);
    }
  }

  lemma ReadsItsConn(env: Env, s: State, p: PeerId)
    requires Safe(env, s) && Streams(env, s)
    requires p in s.peers && !s.peers[p].stopped && s.peers[p].conn.Some?
    requires PeerOk(s.hist, env.cap, s.peers[p], s.conns)
    ensures var q := s.peers[p];
            && q.conn.value in s.conns && AllAnchored(s.conns, q.spans)
            && Reads(s.hist, env.cap, s.pty, q.conn.value, s.conns[q.conn.value], q)
  {
    var q := s.peers[p];
    var c := q.conn.value;
    var k := s.conns[c];
    assert StreamOk(s.hist, env.cap, s.pty, c, k) && WireOf(s.pty, c, k) && RefsOk(c in s.list, s.pty, c, k);
    hide StreamOk, WireOf, PrintedOk, LinkOk, Receive, LockOk, NoDup, AllAnchored;
  }

  /** The client after it takes a frame, or stops at one. */
  lemma AfterReceipt(env: Env, s: State, p: PeerId, step: PeerStep)
    requires CanPeer(s, p, step) && (step.TakeFrame? || step.OutputFails?)
    ensures p in s.peers && !s.peers[p].stopped && s.peers[p].conn.Some? && s.peers[p].conn.value in s.conns
    ensures var q := s.peers[p];
            var k := s.conns[q.conn.value];
            && q.taken <= step.avail <= |k.wire|
            && Receive(k.wire[q.taken..step.avail], MAX_FRAME - 1).Got?
            && var r := Receive(k.wire[q.taken..step.avail], MAX_FRAME - 1);
               && (step.OutputFails? ==> StreamOf(r.frame).Some? && step.n <= |StreamOf(r.frame).value.data|)
               && p in DoPeer(env, s, p, step).peers
               && DoPeer(env, s, p, step).peers[p]
                  == if step.TakeFrame? then
                       ProcessServerFrame(q, r.frame, k.window).(taken := step.avail - |r.rest|)
                     else OutputStops(q, r.frame, step.n, k.window)
  {
    hide Receive, StreamOf, ProcessServerFrame, OutputStops;
  }

  lemma TakenOk(hist: seq<byte>, cap: nat, pty: PtyPc, conns: map<ConnId, Conn>, c: ConnId, q: Peer, avail: nat)
    requires c in conns && Reads(hist, cap, pty, c, conns[c], q) && AllAnchored(conns, q.spans)
    requires q.taken <= avail <= |conns[c].wire| && Receive(conns[c].wire[q.taken..avail], MAX_FRAME - 1).Got?
    ensures var r := Receive(conns[c].wire[q.taken..avail], MAX_FRAME - 1);
            PeerOk(hist, cap, ProcessServerFrame(q, r.frame, conns[c].window).(taken := avail - |r.rest|), conns)
  {
    assert q.conn == Some(c);
    hide PrintedOk, LinkOk, Reads, AllAnchored, Receive, StreamOf, ProcessServerFrame;
    OutputMeansAttached(hist, cap, pty, c, conns[c], q, avail);
    TakeFrameOk(hist, cap, pty, c, conns[c], q, avail);
    ProcessAnchored(conns, q, Receive(conns[c].wire[q.taken..avail], MAX_FRAME - 1).frame, c, 0);
  }

  lemma StoppedOk(hist: seq<byte>, cap: nat, pty: PtyPc, conns: map<ConnId, Conn>, c: ConnId, q: Peer, avail: nat,
                  n: nat)
    requires c in conns && Reads(hist, cap, pty, c, conns[c], q) && AllAnchored(conns, q.spans)
    requires q.taken <= avail <= |conns[c].wire| && Receive(conns[c].wire[q.taken..avail], MAX_FRAME - 1).Got?
    requires var f := Receive(conns[c].wire[q.taken..avail], MAX_FRAME - 1).frame;
             StreamOf(f).Some? && n <= |StreamOf(f).value.data|
    ensures PeerOk(hist, cap, OutputStops(q, Receive(conns[c].wire[q.taken..avail], MAX_FRAME - 1).frame, n,
                                          conns[c].window), conns)
  {
    assert q.conn == Some(c);
    hide PrintedOk, LinkOk, Reads, AllAnchored, Receive, StreamOf, OutputStops;
    var f := Receive(conns[c].wire[q.taken..avail], MAX_FRAME - 1).frame;
    OutputMeansAttached(hist, cap, pty, c, conns[c], q, avail);
    OutputStopsOk(hist, cap, pty, c, conns[c], q, avail, n);
    ProcessAnchored(conns, q, f, c, n);
    Stops(q, f, n, conns[c].window);
  }

  lemma Receives(env: Env, s: State, p: PeerId, step: PeerStep)
    requires Good(env) && Safe(env, s) && Streams(env, s) && CanPeer(s, p, step)
    requires step.TakeFrame? || step.OutputFails?
    requires PeerOk(s.hist, env.cap, s.peers[p], s.conns)
    ensures p in DoPeer(env, s, p, step).peers
            && PeerOk(s.hist, env.cap, DoPeer(env, s, p, step).peers[p], s.conns)
  {
    hide DoPeer, CanPeer, Safe, Streams, Reads, AllAnchored, Receive, StreamOf, ProcessServerFrame, OutputStops,
      PeerOk;
    AfterReceipt(env, s, p, step);
    ReadsItsConn(env, s, p);
    var q := s.peers[p];
    if step.TakeFrame? {
      TakenOk(s.hist, env.cap, s.pty, s.conns, q.conn.value, q, step.avail);
    } else {
      StoppedOk(s.hist, env.cap, s.pty, s.conns, q.conn.value, q, step.avail, step.n);
    }
  }

  lemma Stops(q: Peer, f: Frame, n: nat, window: Option<R.Window>)
    requires StreamOf(f).Some? && n <= |StreamOf(f).value.data|
    ensures OutputStops(q, f, n, window).conn.None?
  {
  }

  lemma Connects(env: Env, s: State, q: Peer, c: ConnId, first: FirstFrame)
    requires PeerOk(s.hist, env.cap, q, s.conns) && !q.stopped && q.conn.None? && CanArrive(s, c)
    requires first == if q.connectedOnce then Reconnect(q.lastSeq) else Hello
    ensures PeerOk(s.hist, env.cap, q.(conn := Some(c), taken := 0, got := 0), Arrive(env, s, c, first).conns)
  {
    hide SpansOk, Gather;
    var conns' := Arrive(env, s, c, first).conns;
    forall i | 0 <= i < |q.spans|
      ensures Anchored(conns', q.spans[i])
    {
      assert Anchored(s.conns, q.spans[i]);
    }
  }

  /** The client that takes the step; the others see it as a step of the world around them. */
  lemma OwnStepPeer(env: Env, s: State, p: PeerId, step: PeerStep)
    requires Good(env) && Safe(env, s) && Streams(env, s) && CanPeer(s, p, step)
    requires p in s.peers ==> PeerOk(s.hist, env.cap, s.peers[p], s.conns)
    ensures p in DoPeer(env, s, p, step).peers
            && PeerOk(s.hist, env.cap, DoPeer(env, s, p, step).peers[p], DoPeer(env, s, p, step).conns)
  {
    hide Safe, Streams, Anchored, Receive, StreamOf, ProcessServerFrame, OutputStops, Arrive;
    match step
    case Connect(c) =>
      var first := if s.peers[p].connectedOnce then Reconnect(s.peers[p].lastSeq) else Hello;
      Connects(env, s, s.peers[p], c, first);
    case TakeFrame(_) => Receives(env, s, p, step);
    case OutputFails(_, _) => Receives(env, s, p, step);
    case _ =>
  }

  lemma OtherPeers(env: Env, s: State, step: Step, p: PeerId)
    requires step.Client? && CanPeer(s, step.p, step.peer) && p != step.p
    ensures p in DoPeer(env, s, step.p, step.peer).peers <==> p in s.peers
    ensures p in s.peers ==> DoPeer(env, s, step.p, step.peer).peers[p] == s.peers[p]
  {
    hide Receive, StreamOf, ProcessServerFrame, OutputStops;
  }

  lemma SamePeers(env: Env, s: State, step: Step)
    requires Can(env, s, step) && !step.Client?
    ensures Do(env, s, step).peers == s.peers
  {
    hide CanOwn, OwnConn, TurnConn, TurnPty, CanTurn, R.Append, Pin, Unpin;
  }

  lemma PeersNext(env: Env, s: State, step: Step)
    requires Good(env) && Safe(env, s) && Streams(env, s) && Peers(env, s) && Can(env, s, step)
    ensures Peers(env, Do(env, s, step))
  {
    hide Safe, Streams, PeerOk, DoPeer, CanPeer, DoPty, DoTurn, DoOwn, CanPty, CanTurn, CanOwn;
    var s' := Do(env, s, step);
    forall p | p in s'.peers
      ensures PeerOk(s'.hist, env.cap, s'.peers[p], s'.conns)
    {
      if step.Client? && step.p == p {
        ClientAtServer(env, s, p, step.peer);
        OwnStepPeer(env, s, p, step.peer);
      } else {
        if step.Client? {
          OtherPeers(env, s, step, p);
        } else {
          SamePeers(env, s, step);
        }
        PeerGrows(env, s, step, s.peers[p]);
      }
    }
  }

  // ---------------------------------------------------------------- Every reachable state

  lemma {:induction false} DeliveryRun(env: Env, steps: seq<Step>)
    requires env.cap > 0 && Good(env) && Run(env, steps).Some?
    ensures var s := Run(env, steps).value;
            Safe(env, s) && Lives(s) && Streams(env, s) && Peers(env, s)
    decreases |steps|
  {
    hide Safe, Lives, Streams, Peers, Can, Do;
    SafeRun(env, steps);
    LivesRun(env, steps);
    if steps != [] {
      var init, last := steps[..|steps| - 1], steps[|steps| - 1];
      DeliveryRun(env, init);
      var s := Run(env, init).value;
      StreamsNext(env, s, last);
      PeersNext(env, s, last);
    } else {
      NothingYet(env);
    }
  }

  lemma NothingYet(env: Env)
    ensures Streams(env, Init(env)) && Peers(env, Init(env))
  {
  }
}
