/** The main results about the protocol: statements over every run of it. */
module ProtocolTheorems {
  import opened Bytes
  import opened Framing
  import opened Messages
  import opened Clients
  import opened Protocol
  import opened ProtocolSafety
  import opened ProtocolDelivery
  import opened ProtocolPeers
  import R = Ring

  lemma SafeReach(env: Env, s: State)
    requires env.cap > 0 && Reachable(env, s)
    ensures Safe(env, s)
  {
    hide Safe;
    var steps: seq<Step> :| Run(env, steps) == Some(s);
    SafeRun(env, steps);
  }

  lemma LivesReach(env: Env, s: State)
    requires env.cap > 0 && !env.allocFails && Reachable(env, s)
    ensures Safe(env, s) && Lives(s)
  {
    hide Safe, Lives;
    var steps: seq<Step> :| Run(env, steps) == Some(s);
    SafeRun(env, steps);
    LivesRun(env, steps);
  }

  lemma DeliveryReach(env: Env, s: State)
    requires env.cap > 0 && Good(env) && Reachable(env, s)
    ensures Safe(env, s) && Lives(s) && Streams(env, s) && Peers(env, s)
  {
    hide Safe, Lives, Streams, Peers;
    var steps: seq<Step> :| Run(env, steps) == Some(s);
    DeliveryRun(env, steps);
  }

  // ---------------------------------------------------------------- The ring

  /** In every reachable state the ring holds the last `cap` bytes ever produced, byte `i` at `i % cap`. */
  lemma RingHoldsTheTail(env: Env, s: State, i: nat)
    requires env.cap > 0 && Reachable(env, s)
    ensures |s.ring.buf| == env.cap && s.ring.next == |s.hist| < U64_LIMIT
    ensures s.ring.base == if |s.hist| > env.cap then |s.hist| - env.cap else 0
    ensures s.ring.base <= i < s.ring.next ==> s.ring.buf[i % env.cap] == s.hist[i]
  {
    SafeReach(env, s);
    R.ModIsRemainder(i, env.cap);
    if s.ring.base <= i < s.ring.next {
      assert s.hist[i] == s.ring.buf[R.Mod(i, env.cap)];
    }
  }

  /** The chunks read from the PTY, one after the other. */
  function Produced(steps: seq<Step>): seq<byte> {
    if steps == [] then []
    else
      var init, last := Produced(steps[..|steps| - 1]), steps[|steps| - 1];
      if last.Pty? && last.pty.Read? then init + last.pty.chunk else init
  }

  /** The chunk that is read and not yet appended. */
  function InHand(pty: PtyPc): seq<byte> {
    if pty.WantRingMu? || pty.InRingMu? then pty.chunk else []
  }

  lemma ReadsOrKeeps(env: Env, s: State, step: Step)
    requires Can(env, s, step)
    ensures var s' := Do(env, s, step);
            s'.hist + InHand(s'.pty)
            == s.hist + InHand(s.pty) + if step.Pty? && step.pty.Read? then step.pty.chunk else []
  {
    hide CanTurn, CanOwn, CanPeer, TurnConn, OwnConn, R.Append;
  }

  /** Over any run the history, with the chunk in hand, is what was read from the PTY. */
  lemma {:induction false} HistoryIsWhatWasRead(env: Env, steps: seq<Step>)
    requires Run(env, steps).Some?
    ensures Run(env, steps).value.hist + InHand(Run(env, steps).value.pty) == Produced(steps)
    decreases |steps|
  {
    if steps != [] {
      hide Can, Do, InHand;
      var init := steps[..|steps| - 1];
      HistoryIsWhatWasRead(env, init);
      ReadsOrKeeps(env, Run(env, init).value, steps[|steps| - 1]);
    }
  }

  // ---------------------------------------------------------------- Client objects

  /** The references to a client, wherever they are held. */
  function Holders(s: State, c: ConnId): nat
    requires c in s.conns
  {
    Bit(c in s.list) + Bit(!s.conns[c].pc.Finished?) + Bit(Pinned(s.pty, c))
  }

  /** Reference counts are exact, and a client is freed, once, exactly when nothing refers to it. */
  lemma CountsAreExact(env: Env, s: State, c: ConnId)
    requires env.cap > 0 && Reachable(env, s) && c in s.conns
    ensures s.conns[c].obj.refs == Holders(s, c)
    ensures s.conns[c].obj.frees == if Holders(s, c) == 0 then 1 else 0
    ensures s.conns[c].obj.inList <==> c in s.list
  {
    SafeReach(env, s);
    assert RefsOk(c in s.list, s.pty, c, s.conns[c]);
  }

  /** The server's steps that read or write the client object of `c`. */
  predicate Touches(s: State, step: Step, c: ConnId) {
    match step
    case Pty(p) => (p.TakeSnapshot? && c in s.list) || (p.ReleaseSnapshot? && s.pty.Broadcasting? && c in s.pty.snap)
    case Turn(t) =>
      s.pty.Broadcasting? && s.pty.i < |s.pty.snap| && (TurnOf(s.pty) == c || (t.TMarkDead? && c in s.list))
    case Own(d, o) => d == c || (o.FinishClient? && c in s.list)
    case StoreThread(d) => d == c
    case ShutdownClients => c in s.list
    case _ => false
  }

  /** No step touches a freed client, except a late store of its thread handle: that is the only step that
      reaches a client object without a reference. `StoresAreSafeExactly` says when it does. */
  lemma NoUseAfterFree(env: Env, s: State, step: Step, c: ConnId)
    requires env.cap > 0 && Reachable(env, s) && Can(env, s, step) && c in s.conns && Touches(s, step, c)
    ensures s.conns[c].obj.frees > 0 ==> env.lateStore && step == StoreThread(c)
  {
    hide LockOk, WireOf, NoDup, CanPty, CanTurn, R.Represents;
    SafeReach(env, s);
    assert RefsOk(c in s.list, s.pty, c, s.conns[c]);
  }

  /** A freed client stays as it is: it is never freed again, listed, or pinned. */
  lemma FreedForGood(env: Env, s: State, step: Step, c: ConnId)
    requires env.cap > 0 && Reachable(env, s) && Can(env, s, step) && c in s.conns && s.conns[c].obj.frees > 0
    ensures var s' := Do(env, s, step);
            c in s'.conns && s'.conns[c].obj == s.conns[c].obj && c !in s'.list && !Pinned(s'.pty, c)
  {
    hide LockOk, WireOf, NoDup, Can, Do, R.Represents;
    SafeReach(env, s);
    SafeNext(env, s, step);
    assert RefsOk(c in s.list, s.pty, c, s.conns[c]);
    if Touches(s, step, c) && step != StoreThread(c) {
      NoUseAfterFree(env, s, step, c);
    }
    Untouched(env, s, step, c);
    assert RefsOk(c in Do(env, s, step).list, Do(env, s, step).pty, c, Do(env, s, step).conns[c]);
  }

  /** A step that does not touch a client leaves its object as it is. */
  lemma Untouched(env: Env, s: State, step: Step, c: ConnId)
    requires Refs(s) && Can(env, s, step) && c in s.conns && (!Touches(s, step, c) || step == StoreThread(c))
    ensures c in Do(env, s, step).conns && Do(env, s, step).conns[c].obj == s.conns[c].obj
  {
    hide NoDup, RefsOk, CanTurn, TurnConn, TurnPty, CanOwn, OwnConn, R.Append, Receive, ProcessServerFrame, OutputStops,
      StreamOf, Release;
  }

  // ---------------------------------------------------------------- Locks

  datatype LockName = ClientsMu | WriteMu(c: ConnId) | RingMu

  /** The order in which locks nest. */
  function Rank(l: LockName): nat {
    match l
    case ClientsMu => 0
    case WriteMu(_) => 1
    case RingMu => 2
  }

  function HolderOf(s: State, l: LockName): Lock {
    match l
    case ClientsMu => s.clientsMu
    case WriteMu(c) => if c in s.conns then s.conns[c].writeMu else Free
    case RingMu => s.ringMu
  }

  /** The lock a thread asks for next, if that is what it is about to do. */
  function Wants(s: State, t: Thread): Option<LockName> {
    match t
    case PtyThread =>
      (match s.pty
       case WantRingMu(_) => Some(RingMu)
       case Appended(_, _) => Some(ClientsMu)
       case Broadcasting(_, _, snap, i, phase) =>
         if i >= |snap| then Some(ClientsMu)
         else if phase.WantWriteMu? then Some(WriteMu(snap[i]))
         else if phase.WantMarkDead? then Some(ClientsMu) else None
       case _ => None)
    case Owner(c) =>
      if c !in s.conns then None
      else
        match s.conns[c].pc
        case WantClients => Some(ClientsMu)
        case WantWrite => Some(WriteMu(c))
        case WantRing => Some(RingMu)
        case WantErrorLock => Some(WriteMu(c))
        case WantFinish => Some(ClientsMu)
        case _ => None
  }

  /** Locks nest in rank order, so no cycle of threads waits for one another. */
  lemma LocksAreOrdered(env: Env, s: State, held: LockName, t: Thread)
    requires env.cap > 0 && Reachable(env, s)
    requires HolderOf(s, held) == Held(t) && Wants(s, t).Some?
    ensures Rank(held) < Rank(Wants(s, t).value)
  {
    hide Output, Wires, Refs;
    SafeReach(env, s);
    if t.Owner? && t.c in s.conns {
      assert LockOk(s.clientsMu, s.ringMu, s.pty, t.c, s.conns[t.c]);
    }
    if held.WriteMu? {
      assert LockOk(s.clientsMu, s.ringMu, s.pty, held.c, s.conns[held.c]);
    }
  }

  /** While a client is not yet authenticated nobody else takes its write_mu, so an attach never waits for
      it while it holds clients_mu. */
  lemma AttachFindsWriteMuFree(env: Env, s: State, c: ConnId)
    requires env.cap > 0 && Reachable(env, s) && c in s.conns
    ensures Unpublished(s.conns[c].pc) ==> s.conns[c].writeMu != Held(PtyThread)
    ensures s.conns[c].pc.WantWrite? ==> s.conns[c].writeMu.Free?
  {
    SafeReach(env, s);
    assert LockOk(s.clientsMu, s.ringMu, s.pty, c, s.conns[c]) && RefsOk(c in s.list, s.pty, c, s.conns[c]);
  }

  predicate StepOf(step: Step, t: Thread) {
    match t
    case PtyThread => step.Pty? || step.Turn?
    case Owner(c) => step.Own? && step.c == c
  }

  /** The thread has not come to its end. */
  predicate Running(s: State, t: Thread) {
    match t
    case PtyThread => !s.pty.Stopped?
    case Owner(c) => c in s.conns && !s.conns[c].pc.Finished?
  }

  /** Nothing goes wrong: no write fails on a healthy connection, no allocation fails, no HELLO or RECONNECT is
      turned away, and no connection ends before its first frame is judged. */
  predicate Plausible(s: State, step: Step) {
    && (step == Turn(TWriteFails) && AtTurn(s) ==> s.conns[TurnOf(s.pty)].broken)
    && step != Turn(TAllocFails) && step != Pty(SnapshotFails)
    && (step.Own? && step.c in s.conns ==>
          var k := s.conns[step.c];
          && (step.own.WriteFails? ==> k.broken)
          && !step.own.SnapshotRingFails? && !step.own.ReplayFails?
          && (step.own.Reject? ==> k.first.Other?)
          && (step.own.Quit? ==> k.pc.InputLoop?))
  }

  /** Every running thread that does not wait for a held lock can go on with nothing going wrong; a thread whose
      client says HELLO or RECONNECT then goes on by admitting it. */
  lemma ThreadGoesOn(env: Env, s: State, t: Thread) returns (step: Step)
    requires env.cap > 0 && Reachable(env, s) && Running(s, t)
    requires Wants(s, t).None? || HolderOf(s, Wants(s, t).value).Free?
    ensures StepOf(step, t) && Can(env, s, step) && Plausible(s, step)
    ensures t.Owner? && s.conns[t.c].pc.ReadIntro? && !s.conns[t.c].first.Other? ==> step == Own(t.c, Admit)
  {
    SafeReach(env, s);
    match t
    case PtyThread => step := PtyGoesOn(env, s);
    case Owner(c) => step := OwnGoesOn(env, s, c);
  }

  lemma PtyGoesOn(env: Env, s: State) returns (step: Step)
    requires Safe(env, s) && !s.pty.Stopped?
    requires Wants(s, PtyThread).None? || HolderOf(s, Wants(s, PtyThread).value).Free?
    ensures StepOf(step, PtyThread) && Can(env, s, step) && Plausible(s, step)
  {
    hide WireOf, NoDup, LockOk;
    match s.pty
    case Reading => step := Pty(if |s.hist| + 1 < U64_LIMIT then Read([0]) else Stop);
    case WantRingMu(_) => step := Pty(LockRing);
    case InRingMu(_) => step := Pty(Append);
    case Appended(_, _) => step := Pty(TakeSnapshot);
    case Broadcasting(_, _, snap, i, phase) =>
      if i == |snap| {
        step := Pty(ReleaseSnapshot);
      } else {
        step := Turn(match phase
                     case WantWriteMu => TLockWrite
                     case InWrite => TDecide
                     case SendingOut(_, rest) =>
                       if rest == [] then TSent else if s.conns[snap[i]].broken then TWriteFails else TWrite(1)
                     case UnlockingOut(_) => TUnlock
                     case WantMarkDead => TMarkDead);
      }
  }

  lemma OwnGoesOn(env: Env, s: State, c: ConnId) returns (step: Step)
    requires Safe(env, s) && c in s.conns && !s.conns[c].pc.Finished?
    requires Wants(s, Owner(c)).None? || HolderOf(s, Wants(s, Owner(c)).value).Free?
    ensures StepOf(step, Owner(c)) && Can(env, s, step) && Plausible(s, step)
    ensures s.conns[c].pc.ReadIntro? && !s.conns[c].first.Other? ==> step == Own(c, Admit)
  {
    hide WireOf, NoDup, LockOk;
    var k := s.conns[c];
    assert RefsOk(c in s.list, s.pty, c, k);
    step := Own(c, match k.pc
                   case ReadIntro => if k.first.Other? then Reject else Admit
                   case WantClients => LockClients
                   case WantWrite => LockWrite
                   case WantRing => LockRingMu
                   case InRing => SnapshotRing
                   case Snapped => Publish
                   case Sending(_, _, rest) => if rest == [] then Sent else if k.broken then WriteFails else Write(1)
                   case WantErrorLock => LockError([])
                   case InputLoop => Quit
                   case WantFinish => FinishClient
                   case _ => Unlock);
  }

  /** Who holds a lock is running. */
  lemma HolderRuns(env: Env, s: State, held: LockName, t: Thread)
    requires Safe(env, s) && HolderOf(s, held) == Held(t)
    ensures Running(s, t)
  {
    hide WireOf, NoDup, RefsOk;
    if held.WriteMu? {
      assert LockOk(s.clientsMu, s.ringMu, s.pty, held.c, s.conns[held.c]);
    }
    if t.Owner? && t.c in s.conns {
      assert LockOk(s.clientsMu, s.ringMu, s.pty, t.c, s.conns[t.c]);
    }
  }

  /** No reachable state is a deadlock on clients_mu, the write_mus and ring.mu: if any of them is held, then
      following who waits for whom, at most three long, ends at a thread that holds one of them and can go on. */
  lemma {:induction false} NoDeadlock(env: Env, s: State, held: LockName, t: Thread)
      returns (last: LockName, runner: Thread, step: Step)
    requires env.cap > 0 && Reachable(env, s)
    requires HolderOf(s, held) == Held(t)
    ensures HolderOf(s, last) == Held(runner) && Rank(last) >= Rank(held)
    ensures StepOf(step, runner) && Can(env, s, step) && Plausible(s, step)
    decreases 2 - Rank(held)
  {
    var w := Wants(s, t);
    if w.Some? && HolderOf(s, w.value).Held? {
      LocksAreOrdered(env, s, held, t);
      last, runner, step := NoDeadlock(env, s, w.value, HolderOf(s, w.value).holder);
    } else {
      last, runner := held, t;
      SafeReach(env, s);
      HolderRuns(env, s, held, t);
      step := ThreadGoesOn(env, s, t);
    }
  }

  // ---------------------------------------------------------------- Bytes and frames

  /** Whatever the interleaving of partial writes, a connection's bytes are whole frames and at most part of
      one more, and a receiver that has seen any initial part of them has exactly an initial part of the
      frames and no other frame. */
  lemma BytesAreWholeFrames(env: Env, s: State, c: ConnId, seen: nat) returns (last: Frame, n: nat, m: nat)
    requires env.cap > 0 && Reachable(env, s) && c in s.conns && seen <= |s.conns[c].wire|
    ensures var k := s.conns[c];
            && Sendable(last) && n < |Encode(last)| && k.wire == EncodeAll(k.frames) + Encode(last)[..n]
            && m <= |k.frames| && ReceiveAll(k.wire[..seen], MAX_FRAME - 1).frames == k.frames[..m]
            && (seen == |k.wire| ==> m == |k.frames|)
  {
    SafeReach(env, s);
    var k := s.conns[c];
    assert WireOf(s.pty, c, k);
    last, n := WireTail(s.pty, c, k);
    m := SeenFrames(k.frames, last, n, seen);
  }

  lemma SeenFrames(fs: seq<Frame>, last: Frame, n: nat, seen: nat) returns (m: nat)
    requires AllSendable(fs, MAX_FRAME - 1) && Sendable(last) && n < |Encode(last)|
    requires seen <= |EncodeAll(fs)| + n
    ensures var wire := EncodeAll(fs) + Encode(last)[..n];
            m <= |fs| && ReceiveAll(wire[..seen], MAX_FRAME - 1).frames == fs[..m] && (seen == |wire| ==> m == |fs|)
  {
    var wire := EncodeAll(fs) + Encode(last)[..n];
    if seen < |EncodeAll(fs)| {
      CutAnywhere(fs, seen, MAX_FRAME - 1);
      assert wire[..seen] == EncodeAll(fs)[..seen];
      m := WholeFrames(fs, seen);
    } else {
      m := |fs|;
      var rest := seen - |EncodeAll(fs)|;
      assert wire[..seen] == EncodeAll(fs) + Encode(last)[..rest];
      StreamRoundTrip(fs, last, rest, MAX_FRAME - 1);
      assert fs[..m] == fs;
    }
  }

  // ---------------------------------------------------------------- Sequence numbers during a broadcast

  /** The places where a live client can stand. */
  predicate StandsAtChunkEnd(s: State, c: ConnId, v: nat) {
    match s.pty
    case Appended(start, chunk) => v == start || v == start + |chunk|
    case Broadcasting(start, chunk, snap, i, phase) =>
      && (v == start || v == start + |chunk|)
      && (!Pending(s.pty, c) ==> v == start + |chunk|)
      && (TurnIs(s.pty, c) && phase.InWrite? ==>
            StdoutFor(v, start, chunk) == if v == start then Some(StreamFrame(STDOUT, start, chunk)) else None)
    case _ => v == |s.hist| == s.ring.next
  }

  /** While allocations succeed, whatever the ring's capacity: while a chunk is in hand, every live client
      stands at one of its two ends, so the trim in a broadcast
      never cuts a chunk; between chunks every live client stands at the end of the history. */
  lemma LiveClientsStandAtChunkEnds(env: Env, s: State, c: ConnId)
    requires env.cap > 0 && !env.allocFails && Reachable(env, s)
    requires c in s.conns && s.conns[c].obj.authenticated && !s.conns[c].obj.dead
    ensures StandsAtChunkEnd(s, c, s.conns[c].obj.liveSeq)
  {
    LivesReach(env, s);
    hide LockOk, RefsOk, WireOf, NoDup, R.Represents;
    assert LiveOk(s.pty, |s.hist|, c, s.conns[c]);
    if TurnIs(s.pty, c) && s.pty.phase.InWrite? {
      NothingIsTrimmed(s.pty, |s.hist|, c, s.conns[c]);
    }
  }

  // ---------------------------------------------------------------- One connection, as its client reads it

  function EndOfStream(st: Stream): nat {
    st.start + |st.data|
  }

  /** `st` is a slice of the history. */
  ghost predicate IsSlice(hist: seq<byte>, st: Stream) {
    EndOfStream(st) <= |hist| && st.data == hist[st.start..EndOfStream(st)]
  }

  /** Frame `i` of a connection, read with the client's decoders, follows on from the frames before it:
      WELCOME announces the window, REPLAY is the requested part of it, and each STDOUT is the part of the
      history that starts where the frame before it ends. A connection turned away has ERROR frames only. */
  ghost predicate FollowsOn(hist: seq<byte>, cap: nat, requested: nat, fs: seq<Frame>, i: nat)
    requires i < |fs|
  {
    || (fs[0].kind == ERROR && fs[i].kind == ERROR)
    || (i == 0 && WelcomeOf(fs[0]).Some?
        && var (base, next) := WelcomeOf(fs[0]).value; base == R.Base(cap, next) && next <= |hist|)
    || (i == 1 && WelcomeOf(fs[0]).Some? && fs[1].kind == REPLAY && StreamOf(fs[1]).Some?
        && var (base, next), st := WelcomeOf(fs[0]).value, StreamOf(fs[1]).value;
           st.start == R.Clamp(requested, base, next) && EndOfStream(st) == next && IsSlice(hist, st))
    || (i >= 2 && StreamOf(fs[i - 1]).Some? && fs[i].kind == STDOUT && StreamOf(fs[i]).Some?
        && var before, st := StreamOf(fs[i - 1]).value, StreamOf(fs[i]).value;
           st.start == EndOfStream(before) && IsSlice(hist, st))
  }

  ghost predicate GapFree(hist: seq<byte>, cap: nat, requested: nat, fs: seq<Frame>) {
    forall i :: 0 <= i < |fs| ==> FollowsOn(hist, cap, requested, fs, i)
  }

  lemma {:induction false} ChainFrame(hist: seq<byte>, fs: seq<Frame>, from: nat, upto: nat, j: nat) returns (mid: nat)
    requires Chain(hist, fs, from, upto) && j <= |fs|
    ensures Chain(hist, fs[..j], from, mid)
    decreases |fs|
  {
    if j == |fs| {
      mid := upto;
      assert fs[..j] == fs;
    } else {
      var init := fs[..|fs| - 1];
      mid := ChainFrame(hist, init, from, upto - (|fs[|fs| - 1].payload| - 8), j);
      assert init[..j] == fs[..j];
    }
  }

  /** Where the frames before frame `j` of a connection end. */
  lemma CarriesMid(hist: seq<byte>, w: R.Window, fs: seq<Frame>, upto: nat, j: nat) returns (mid: nat)
    requires Carries(hist, w, fs, upto) && 2 <= j <= |fs|
    ensures Carries(hist, w, fs[..j], mid)
  {
    mid := ChainFrame(hist, fs[2..], w.next, upto, j - 2);
    assert fs[..j][2..] == fs[2..][..j - 2];
  }

  lemma ReplayFollowsOn(hist: seq<byte>, cap: nat, first: FirstFrame, w: R.Window, fs: seq<Frame>)
    requires |hist| < U64_LIMIT && WindowOk(hist, cap, first, w)
    requires fs != [] ==> fs[0] == WelcomeFrame(w.base, w.next)
    requires |fs| > 1 ==> fs[1] == ReplayFrame(w)
    ensures forall i :: 0 <= i < |fs| && i < 2 ==> FollowsOn(hist, cap, Requested(first), fs, i)
    ensures |fs| > 1 ==> StreamOf(fs[1]) == Some(Stream(w.from, w.data))
  {
    ServerMessagesRoundTrip(REPLAY, w.from, w.data, w.base, w.next);
  }

  lemma SameEnd(hist: seq<byte>, w: R.Window, fs: seq<Frame>, a: nat, b: nat)
    requires Carries(hist, w, fs, a) && Carries(hist, w, fs, b)
    ensures a == b
  {
    ChainTotal(hist, fs[2..], w.next, a);
    ChainTotal(hist, fs[2..], w.next, b);
  }

  /** The last frame of a connection ends where its frames reach. */
  lemma LastEnd(hist: seq<byte>, w: R.Window, fs: seq<Frame>, upto: nat)
    requires |hist| < U64_LIMIT && Carries(hist, w, fs, upto) && w.next <= |hist| && w.from + |w.data| == w.next
    ensures StreamOf(fs[|fs| - 1]).Some? && EndOfStream(StreamOf(fs[|fs| - 1]).value) == upto
  {
    hide Chain, StreamOf, WelcomeFrame, ToBE, GetU64;
    if |fs| == 2 {
      assert fs[2..] == [];
      ChainTotal(hist, [], w.next, upto);
      ServerMessagesRoundTrip(REPLAY, w.from, w.data, 0, 0);
    } else {
      var j := |fs| - 1;
      var mid := CarriesMid(hist, w, fs, upto, j);
      var st := LiveFrame(hist, w, fs, upto, j, mid);
      assert fs[..j + 1] == fs;
      SameEnd(hist, w, fs, upto, mid + |st.data|);
    }
  }

  lemma LiveFollowsOn(hist: seq<byte>, cap: nat, first: FirstFrame, w: R.Window, fs: seq<Frame>, upto: nat, i: nat)
    requires |hist| < U64_LIMIT && WindowOk(hist, cap, first, w) && Carries(hist, w, fs, upto) && 2 <= i < |fs|
    ensures FollowsOn(hist, cap, Requested(first), fs, i)
  {
    hide Carries, StreamOf, WelcomeOf, R.Clamp, R.Base;
    var mid := CarriesMid(hist, w, fs, upto, i);
    var st := LiveFrame(hist, w, fs, upto, i, mid);
    LastEnd(hist, w, fs[..i], mid);
  }

  lemma CarriesIsGapFree(hist: seq<byte>, cap: nat, first: FirstFrame, w: R.Window, fs: seq<Frame>, upto: nat)
    requires |hist| < U64_LIMIT && WindowOk(hist, cap, first, w) && Carries(hist, w, fs, upto)
    ensures GapFree(hist, cap, Requested(first), fs)
  {
    ReplayFollowsOn(hist, cap, first, w, fs);
    hide Chain, FollowsOn, WindowOk, WelcomeFrame, ReplayFrame, StreamOf;
    forall i | 2 <= i < |fs|
      ensures FollowsOn(hist, cap, Requested(first), fs, i)
    {
      LiveFollowsOn(hist, cap, first, w, fs, upto, i);
    }
  }

  /** In every run of a good environment every connection is gap-free. */
  lemma ConnectionsAreGapFree(env: Env, s: State, c: ConnId)
    requires env.cap > 0 && Good(env) && Reachable(env, s) && c in s.conns
    ensures GapFree(s.hist, env.cap, Requested(s.conns[c].first), s.conns[c].frames)
    ensures forall i :: 0 <= i < |s.conns[c].frames| ==>
              (s.conns[c].frames[i].kind == ERROR <==> !s.conns[c].obj.authenticated)
  {
    DeliveryReach(env, s);
    hide LockOk, WireOf, NoDup, LiveOk, Peers, R.Represents, Chain, StreamOk;
    var k := s.conns[c];
    assert StreamOk(s.hist, env.cap, s.pty, c, k) && RefsOk(c in s.list, s.pty, c, k);
    ConnectionIsGapFree(s.hist, env.cap, s.pty, c, k);
  }

  lemma ConnectionIsGapFree(hist: seq<byte>, cap: nat, pty: PtyPc, c: ConnId, k: Conn)
    requires |hist| < U64_LIMIT && StreamOk(hist, cap, pty, c, k) && (k.obj.authenticated ==> k.window.Some?)
    ensures GapFree(hist, cap, Requested(k.first), k.frames)
    ensures forall i :: 0 <= i < |k.frames| ==> (k.frames[i].kind == ERROR <==> !k.obj.authenticated)
  {
    hide Chain, WindowOk;
    if k.obj.authenticated {
      var w := k.window.value;
      var upto := FramesOf(hist, cap, pty, c, k);
      if Carries(hist, w, k.frames, upto) {
        CarriesIsGapFree(hist, cap, k.first, w, k.frames, upto);
        NoErrors(hist, w, k.frames, upto);
      } else {
        ReplayFollowsOn(hist, cap, k.first, w, k.frames);
      }
    }
  }

  /** The data of a connection's stream frames, one after the other. */
  function Delivered(fs: seq<Frame>): seq<byte> {
    if fs == [] then []
    else Delivered(fs[..|fs| - 1]) + if StreamOf(fs[|fs| - 1]).Some? then StreamOf(fs[|fs| - 1]).value.data else []
  }

  /** Gap-free frames deliver one unbroken slice of the history. */
  lemma {:induction false} GapFreeIsOneSlice(hist: seq<byte>, cap: nat, requested: nat, fs: seq<Frame>)
    requires GapFree(hist, cap, requested, fs) && |fs| >= 2 && fs[0].kind != ERROR
    ensures StreamOf(fs[1]).Some? && StreamOf(fs[|fs| - 1]).Some?
    ensures var from, upto := StreamOf(fs[1]).value.start, EndOfStream(StreamOf(fs[|fs| - 1]).value);
            from <= upto <= |hist| && Delivered(fs) == hist[from..upto]
    decreases |fs|
  {
    var init := fs[..|fs| - 1];
    assert FollowsOn(hist, cap, requested, fs, |fs| - 1);
    if |fs| == 2 {
      assert FollowsOn(hist, cap, requested, fs, 0);
      assert init == [fs[0]] && init[..0] == [];
      assert Delivered(init) == [];
    } else {
      forall i | 0 <= i < |init|
        ensures FollowsOn(hist, cap, requested, init, i)
      {
        assert FollowsOn(hist, cap, requested, fs, i);
      }
      GapFreeIsOneSlice(hist, cap, requested, init);
      var before, st := StreamOf(fs[|fs| - 2]).value, StreamOf(fs[|fs| - 1]).value;
      var from := StreamOf(fs[1]).value.start;
      assert hist[from..st.start] + hist[st.start..EndOfStream(st)] == hist[from..EndOfStream(st)];
    }
  }

  /** Between chunks, a live connection past its attach has been sent everything there is. */
  lemma IdleMeansUpToDate(env: Env, s: State, c: ConnId)
    requires env.cap > 0 && Good(env) && Reachable(env, s) && s.pty.Reading?
    requires c in s.conns && s.conns[c].pc.InputLoop? && !s.conns[c].obj.dead && s.conns[c].cut.None?
    ensures var fs := s.conns[c].frames;
            && |fs| >= 2 && StreamOf(fs[1]).Some?
            && StreamOf(fs[1]).value.start <= |s.hist|
            && Delivered(fs) == s.hist[StreamOf(fs[1]).value.start..]
  {
    DeliveryReach(env, s);
    hide Carries, GapFree, Delivered, StreamOf;
    var k := s.conns[c];
    assert StreamOk(s.hist, env.cap, s.pty, c, k) && RefsOk(c in s.list, s.pty, c, k) && LiveOk(s.pty, |s.hist|, c, k);
    ConnectionsAreGapFree(env, s, c);
    CarriesAll(s.hist, env.cap, Requested(k.first), k.window.value, k.frames);
    assert s.hist[..|s.hist|] == s.hist;
  }

  lemma CarriesAll(hist: seq<byte>, cap: nat, requested: nat, w: R.Window, fs: seq<Frame>)
    requires |hist| < U64_LIMIT && Carries(hist, w, fs, |hist|) && GapFree(hist, cap, requested, fs)
    requires w.next <= |hist| && w.from + |w.data| == w.next
    ensures |fs| >= 2 && StreamOf(fs[1]).Some? && StreamOf(fs[1]).value.start <= |hist|
    ensures Delivered(fs) == hist[StreamOf(fs[1]).value.start..]
  {
    hide Chain, GapFree, StreamOf, Delivered;
    GapFreeIsOneSlice(hist, cap, requested, fs);
    LastEnd(hist, w, fs, |hist|);
  }

  lemma {:induction false} ChainKinds(hist: seq<byte>, fs: seq<Frame>, from: nat, upto: nat)
    requires Chain(hist, fs, from, upto)
    ensures forall i :: 0 <= i < |fs| ==> fs[i].kind == STDOUT
    decreases |fs|
  {
    if fs != [] {
      ChainKinds(hist, fs[..|fs| - 1], from, upto - (|fs[|fs| - 1].payload| - 8));
    }
  }

  lemma NoErrors(hist: seq<byte>, w: R.Window, fs: seq<Frame>, upto: nat)
    requires Carries(hist, w, fs, upto)
    ensures forall i :: 0 <= i < |fs| ==> fs[i].kind != ERROR
  {
    ChainKinds(hist, fs[2..], w.next, upto);
    forall i | 2 <= i < |fs|
      ensures fs[i].kind != ERROR
    {
      assert fs[2..][i - 2] == fs[i];
    }
  }

  // ---------------------------------------------------------------- End to end

  /** Piece `i` of a client's output starts where the one before it ended, or where the ring began when its
      connection attached if that is later. */
  predicate SpanFollows(cap: nat, spans: seq<Span>, i: nat)
    requires i < |spans|
  {
    && spans[i].from == Max(EndOf(spans[..i]), R.Base(cap, spans[i].attachedAt))
    && spans[i].from <= spans[i].to
  }

  /** A client's output is slices of the history in order, and misses only what the ring had lost at the
      attach of the slice's own connection. A running client has caught up with every attach. */
  ghost predicate ResumesExactly(hist: seq<byte>, cap: nat, conns: map<ConnId, Conn>, q: Peer) {
    && (forall i :: 0 <= i < |q.spans| ==> SpanFollows(cap, q.spans, i) && Anchored(conns, q.spans[i]))
    && (forall i :: 0 <= i < |q.spans| && (!q.stopped || i < |q.spans| - 1) ==>
          q.spans[i].attachedAt <= q.spans[i].to)
    && EndOf(q.spans) <= |hist| && q.out == Gather(hist, q.spans)
    && (!q.stopped ==> q.lastSeq == EndOf(q.spans))
  }

  lemma {:induction false} SpansEach(hist: seq<byte>, cap: nat, spans: seq<Span>, i: nat)
    requires SpansOk(hist, cap, spans) && i < |spans|
    ensures SpanFollows(cap, spans, i)
    decreases |spans|
  {
    if i < |spans| - 1 {
      SpansEach(hist, cap, spans[..|spans| - 1], i);
      assert spans[..|spans| - 1][..i] == spans[..i];
    }
  }

  /** Over any run of a good environment, with any number of cuts and reconnects, every client's output
      resumes exactly. */
  lemma EndToEnd(env: Env, s: State, p: PeerId)
    requires env.cap > 0 && Good(env) && Reachable(env, s) && p in s.peers
    ensures ResumesExactly(s.hist, env.cap, s.conns, s.peers[p])
  {
    DeliveryReach(env, s);
    PeersOfReach(env, s, p);
    hide Safe, Lives, Streams, Peers, Anchored, Reachable, Gather, SpanFollows;
    var q := s.peers[p];
    forall i | 0 <= i < |q.spans|
      ensures SpanFollows(env.cap, q.spans, i)
    {
      SpansEach(s.hist, env.cap, q.spans, i);
    }
    EndInside(s.hist, env.cap, q.spans);
  }

  lemma PeersOfReach(env: Env, s: State, p: PeerId)
    requires Peers(env, s) && p in s.peers
    ensures PrintedOk(s.hist, env.cap, s.peers[p]) && AllAnchored(s.conns, s.peers[p].spans)
  {
    assert PeerOk(s.hist, env.cap, s.peers[p], s.conns);
  }

  lemma EndInside(hist: seq<byte>, cap: nat, spans: seq<Span>)
    requires SpansOk(hist, cap, spans)
    ensures EndOf(spans) <= |hist|
  {
  }

  /** The bytes a client's pieces skip. */
  function Skipped(spans: seq<Span>): int {
    if spans == [] then 0
    else Skipped(spans[..|spans| - 1]) + spans[|spans| - 1].from - EndOf(spans[..|spans| - 1])
  }

  /** Every byte up to where a client stands is either in its output or was skipped, none twice; and if the
      ring never began beyond where the client stood, its output is the history up to there. */
  lemma {:induction false} NothingElseIsLost(hist: seq<byte>, cap: nat, spans: seq<Span>)
    requires (forall i :: 0 <= i < |spans| ==> SpanFollows(cap, spans, i)) && EndOf(spans) <= |hist|
    ensures |Gather(hist, spans)| + Skipped(spans) == EndOf(spans) && Skipped(spans) >= 0
    ensures (forall i :: 0 <= i < |spans| ==> R.Base(cap, spans[i].attachedAt) <= EndOf(spans[..i])) ==>
              Gather(hist, spans) == hist[..EndOf(spans)]
    decreases |spans|
  {
    if spans != [] {
      var n := |spans| - 1;
      var init, last := spans[..n], spans[n];
      FollowsInit(cap, spans);
      NothingElseIsLost(hist, cap, init);
      if forall i :: 0 <= i < |spans| ==> R.Base(cap, spans[i].attachedAt) <= EndOf(spans[..i]) {
        forall i | 0 <= i < n
          ensures R.Base(cap, init[i].attachedAt) <= EndOf(init[..i])
        {
          assert init[..i] == spans[..i] && init[i] == spans[i];
        }
        assert last.from == EndOf(init);
        assert hist[..last.from] + hist[last.from..last.to] == hist[..last.to];
      }
    }
  }

  lemma FollowsInit(cap: nat, spans: seq<Span>)
    requires spans != [] && forall i :: 0 <= i < |spans| ==> SpanFollows(cap, spans, i)
    ensures var init, last := spans[..|spans| - 1], spans[|spans| - 1];
            && (forall i :: 0 <= i < |init| ==> SpanFollows(cap, init, i))
            && EndOf(init) <= last.from <= last.to && last.from == Max(EndOf(init), R.Base(cap, last.attachedAt))
  {
    var init := spans[..|spans| - 1];
    assert SpanFollows(cap, spans, |spans| - 1);
    forall i | 0 <= i < |init|
      ensures SpanFollows(cap, init, i)
    {
      assert init[..i] == spans[..i];
      assert SpanFollows(cap, spans, i);
    }
  }
}
