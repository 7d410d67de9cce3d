/** The replay and broadcast protocol as a step system (src/server.c, src/client.c).

    Threads are the PTY thread and one thread per accepted connection. A step is one lock acquisition, one
    critical section, one partial write, or one event outside the server. Nothing else orders the steps, so
    a list of steps is one interleaving, and quantifying over lists quantifies over all of them. */
module Protocol {
  import opened Bytes
  import opened Framing
  import opened Messages
  import opened Clients
  import R = Ring

  type ConnId = nat
  type PeerId = nat

  /** What does not change during a run: the ring's capacity, whether allocations can fail, and whether
      pthread_create may store the new thread's handle after that thread has begun to run. */
  datatype Env = Env(cap: nat, allocFails: bool, lateStore: bool)

  datatype Thread = PtyThread | Owner(c: ConnId)

  datatype Lock = Free | Held(holder: Thread)

  // ---------------------------------------------------------------- Connections

  /** The first frame a connection delivers, as far as the server tells them apart. */
  datatype FirstFrame = Hello | Reconnect(lastSeq: nat) | Other

  function Requested(f: FirstFrame): nat {
    if f.Reconnect? then f.lastSeq else 0
  }

  datatype Stage = SendsWelcome | SendsReplay | SendsError

  /** Where a connection's own thread is; the names of src/server.c:479-515 and 573-640 apply. */
  datatype OwnPc =
    | ReadIntro
    | WantClients
    | WantWrite
    | WantRing
    | InRing
    | Snapped
    | Sending(stage: Stage, frame: Frame, rest: seq<byte>)
    | Unlocking(ok: bool)
    | InputLoop
    | WantErrorLock
    | ErrorUnlocking
    | WantFinish
    | Finished

  /** `wire` is what the socket has accepted; a broken socket accepts nothing more. `frames` and `cut` are
      history: the frames whose last byte is written, and the frame whose write failed. */
  datatype Conn = Conn(
    obj: Fields,
    writeMu: Lock,
    pc: OwnPc,
    first: FirstFrame,
    window: Option<R.Window>,
    wire: seq<byte>,
    broken: bool,
    frames: seq<Frame>,
    cut: Option<Frame>)

  function NewConn(first: FirstFrame): Conn {
    Conn(NewFields, Free, ReadIntro, first, None, [], false, [], None)
  }

  // ---------------------------------------------------------------- The PTY thread

  datatype Phase =
    | WantWriteMu
    | InWrite
    | SendingOut(frame: Frame, rest: seq<byte>)
    | UnlockingOut(ok: bool)
    | WantMarkDead

  datatype PtyPc =
    | Reading
    | WantRingMu(chunk: seq<byte>)
    | InRingMu(chunk: seq<byte>)
    | Appended(start: nat, chunk: seq<byte>)
    | Broadcasting(start: nat, chunk: seq<byte>, snap: seq<ConnId>, i: nat, phase: Phase)
    | Stopped

  const PTY_READ_MAX: nat := 4096

  /** The locked part of one client's turn in a broadcast (src/server.c:416-423): what is still to be sent
      of the chunk, if anything, trimmed to what the client has not seen. */
  function StdoutFor(liveSeq: nat, start: nat, chunk: seq<byte>): Option<Frame> {
    if liveSeq >= start + |chunk| then None
    else
      var off := if liveSeq > start then liveSeq - start else 0;
      var sendSeq := if liveSeq > start then liveSeq else start;
      Some(StreamFrame(STDOUT, sendSeq, chunk[off..]))
  }

  // ---------------------------------------------------------------- Clients at the other end

  /** History: one piece of output a client received, how much output existed when its connection attached,
      and that connection. */
  datatype Span = Span(from: nat, to: nat, attachedAt: nat, conn: Option<ConnId>)

  /** A client program: `taken` bytes of the current connection are consumed, in `got` frames (history). */
  datatype Peer = Peer(
    lastSeq: nat,
    out: seq<byte>,
    connectedOnce: bool,
    conn: Option<ConnId>,
    taken: nat,
    stopped: bool,
    got: nat,
    spans: seq<Span>)

  const NewPeer := Peer(0, [], false, None, 0, false, 0, [])

  // ---------------------------------------------------------------- States

  /** `hist` is history: every byte the PTY thread has appended. `storing` is the client object that the main
      thread, still inside pthread_create, has yet to store a thread handle in. */
  datatype State = State(
    hist: seq<byte>,
    ring: R.RingState,
    ringMu: Lock,
    clientsMu: Lock,
    list: seq<ConnId>,
    conns: map<ConnId, Conn>,
    pty: PtyPc,
    peers: map<PeerId, Peer>,
    storing: Option<ConnId>)

  function Init(env: Env): State {
    State([], R.RingState(seq(env.cap, i => 0), 0, 0), Free, Free, [], map[], Reading, map[], None)
  }

  /** The clients a snapshot of the list would pin. */
  function LiveSet(s: State): set<ConnId> {
    set c | c in s.list && c in s.conns && Broadcastable(s.conns[c].obj)
  }

  function LiveList(s: State): seq<ConnId> {
    Filter(s.list, LiveSet(s))
  }

  // ---------------------------------------------------------------- Steps

  datatype Step =
    | Pty(pty: PtyStep)
    | Turn(turn: TurnStep)
    | Own(c: ConnId, own: OwnStep)
    | Accept(c: ConnId, first: FirstFrame)
    | StoreThread(c: ConnId)
    | ShutdownClients
    | Break(c: ConnId)
    | Client(p: PeerId, peer: PeerStep)

  /** Steps a state allows. */
  predicate Can(env: Env, s: State, step: Step) {
    match step
    case Pty(p) => CanPty(env, s, p)
    case Turn(t) => AtTurn(s) && CanTurn(env, s.clientsMu, s.pty, s.conns[TurnOf(s.pty)], t)
    case Own(c, o) => c in s.conns && CanOwn(env, s.ring, s.clientsMu, s.ringMu, s.conns[c], o)
    case Accept(c, first) => CanArrive(s, c)
    case StoreThread(c) => s.storing == Some(c)
    case ShutdownClients => s.clientsMu.Free?
    case Break(c) => c in s.conns
    case Client(p, q) => CanPeer(s, p, q)
  }

  function Do(env: Env, s: State, step: Step): State
    requires Can(env, s, step)
  {
    match step
    case Pty(p) => DoPty(env, s, p)
    case Turn(t) => DoTurn(env, s, t)
    case Own(c, o) => DoOwn(env, s, c, o)
    case Accept(c, first) => Arrive(env, s, c, first)
    case StoreThread(c) => s.(storing := None)
    case ShutdownClients => s.(conns := BreakAll(s.conns, s.list))
    case Break(c) => s.(conns := s.conns[c := s.conns[c].(broken := true)])
    case Client(p, q) => DoPeer(env, s, p, q)
  }

  /** The main thread is free to accept, and may link a client. */
  predicate CanArrive(s: State, c: ConnId) {
    c !in s.conns && s.clientsMu.Free? && s.storing.None?
  }

  /** server_add_client, with the start of the client's thread. */
  function Arrive(env: Env, s: State, c: ConnId, first: FirstFrame): State {
    s.(conns := s.conns[c := NewConn(first)], list := [c] + s.list,
       storing := if env.lateStore then Some(c) else s.storing)
  }

  /** server_shutdown_clients, by the PTY thread at its end or by a shutdown request. */
  function BreakAll(conns: map<ConnId, Conn>, list: seq<ConnId>): map<ConnId, Conn> {
    map c | c in conns :: if c in list then conns[c].(broken := true) else conns[c]
  }

  // ---------------------------------------------------------------- The PTY thread outside its turns

  /** pty_thread_main, and the list snapshot of a broadcast and its release. */
  datatype PtyStep =
    | Read(chunk: seq<byte>)
    | LockRing
    | Append
    | TakeSnapshot
    | SnapshotFails
    | ReleaseSnapshot
    | Stop

  predicate CanPty(env: Env, s: State, p: PtyStep) {
    match p
    case Read(chunk) => s.pty.Reading? && 0 < |chunk| <= PTY_READ_MAX && |s.hist| + |chunk| < U64_LIMIT
    case LockRing => s.pty.WantRingMu? && s.ringMu.Free?
    case Append => s.pty.InRingMu? && RingOk(s.ring)
    case TakeSnapshot => s.pty.Appended? && s.clientsMu.Free?
    case SnapshotFails => env.allocFails && s.pty.Appended? && s.clientsMu.Free?
    case ReleaseSnapshot =>
      s.pty.Broadcasting? && s.pty.i == |s.pty.snap| && s.pty.phase.WantWriteMu? && s.clientsMu.Free?
    case Stop => s.pty.Reading?
  }

  function DoPty(env: Env, s: State, p: PtyStep): State
    requires CanPty(env, s, p)
  {
    match p
    case Read(chunk) => s.(pty := WantRingMu(chunk))
    case LockRing => s.(pty := InRingMu(s.pty.chunk), ringMu := Held(PtyThread))
    case Append =>
      s.(ring := R.Append(s.ring, s.pty.chunk), hist := s.hist + s.pty.chunk, ringMu := Free,
         pty := Appended(s.ring.next, s.pty.chunk))
    case TakeSnapshot =>
      var snap := LiveList(s);
      if snap == [] then s.(pty := Reading)
      else s.(conns := Pin(s.conns, LiveSet(s)), pty := Broadcasting(s.pty.start, s.pty.chunk, snap, 0, WantWriteMu))
    case SnapshotFails => s.(pty := Reading)
    case ReleaseSnapshot => s.(conns := Unpin(s.conns, s.pty.snap), pty := Reading)
    case Stop => s.(pty := Stopped)
  }

  predicate RingOk(r: R.RingState) {
    |r.buf| > 0 && r.base <= r.next <= r.base + |r.buf|
  }

  function Pin(conns: map<ConnId, Conn>, live: set<ConnId>): map<ConnId, Conn> {
    map c | c in conns :: if c in live then conns[c].(obj := conns[c].obj.(refs := conns[c].obj.refs + 1)) else conns[c]
  }

  function Unpin(conns: map<ConnId, Conn>, snap: seq<ConnId>): map<ConnId, Conn> {
    map c | c in conns :: if c in snap then conns[c].(obj := Release(conns[c].obj)) else conns[c]
  }

  // ---------------------------------------------------------------- One client's turn in a broadcast

  /** The body of the loop of server_broadcast_stdout. */
  datatype TurnStep = TLockWrite | TDecide | TAllocFails | TWrite(n: nat) | TSent | TWriteFails | TUnlock | TMarkDead

  /** The broadcast is at a client of its snapshot. */
  predicate AtTurn(s: State) {
    s.pty.Broadcasting? && s.pty.i < |s.pty.snap| && s.pty.snap[s.pty.i] in s.conns
  }

  function TurnOf(pty: PtyPc): ConnId
    requires pty.Broadcasting? && pty.i < |pty.snap|
  {
    pty.snap[pty.i]
  }

  predicate CanTurn(env: Env, clientsMu: Lock, pty: PtyPc, k: Conn, t: TurnStep)
    requires pty.Broadcasting?
  {
    match t
    case TLockWrite => pty.phase.WantWriteMu? && k.writeMu.Free?
    case TDecide => pty.phase.InWrite?
    case TAllocFails => env.allocFails && pty.phase.InWrite? && k.obj.liveSeq < pty.start + |pty.chunk|
    case TWrite(n) => pty.phase.SendingOut? && !k.broken && 0 < n <= |pty.phase.rest|
    case TSent => pty.phase.SendingOut? && pty.phase.rest == []
    case TWriteFails => pty.phase.SendingOut? && pty.phase.rest != []
    case TUnlock => pty.phase.UnlockingOut?
    case TMarkDead => pty.phase.WantMarkDead? && clientsMu.Free?
  }

  function TurnConn(env: Env, clientsMu: Lock, pty: PtyPc, k: Conn, t: TurnStep): Conn
    requires pty.Broadcasting? && CanTurn(env, clientsMu, pty, k, t)
  {
    match t
    case TLockWrite => k.(writeMu := Held(PtyThread))
    case TDecide => k
    case TAllocFails => k
    case TWrite(n) =>
      k.(wire := k.wire + pty.phase.rest[..n],
         frames := if n == |pty.phase.rest| then k.frames + [pty.phase.frame] else k.frames)
    case TSent => k.(obj := k.obj.(liveSeq := pty.start + |pty.chunk|))
    case TWriteFails => Fail(k, pty.phase.frame)
    case TUnlock => k.(writeMu := Free)
    case TMarkDead => k.(obj := Abandon(k.obj), broken := true)
  }

  function TurnPty(env: Env, clientsMu: Lock, pty: PtyPc, k: Conn, t: TurnStep): PtyPc
    requires pty.Broadcasting? && CanTurn(env, clientsMu, pty, k, t)
  {
    match t
    case TLockWrite => pty.(phase := InWrite)
    case TDecide =>
      var f := StdoutFor(k.obj.liveSeq, pty.start, pty.chunk);
      pty.(phase := if f.Some? then SendingOut(f.value, Encode(f.value)) else UnlockingOut(true))
    case TAllocFails => pty.(phase := UnlockingOut(false))
    case TWrite(n) => pty.(phase := SendingOut(pty.phase.frame, pty.phase.rest[n..]))
    case TSent => pty.(phase := UnlockingOut(true))
    case TWriteFails => pty.(phase := UnlockingOut(false))
    case TUnlock => if pty.phase.ok then pty.(i := pty.i + 1, phase := WantWriteMu) else pty.(phase := WantMarkDead)
    case TMarkDead => pty.(i := pty.i + 1, phase := WantWriteMu)
  }

  function DoTurn(env: Env, s: State, t: TurnStep): State
    requires AtTurn(s) && CanTurn(env, s.clientsMu, s.pty, s.conns[TurnOf(s.pty)], t)
  {
    var c := TurnOf(s.pty);
    s.(conns := s.conns[c := TurnConn(env, s.clientsMu, s.pty, s.conns[c], t)],
       pty := TurnPty(env, s.clientsMu, s.pty, s.conns[c], t),
       list := if t.TMarkDead? then Unlink(s.list, c) else s.list)
  }

  /** A write that fails: the socket is broken from now on. */
  function Fail(k: Conn, f: Frame): Conn {
    k.(broken := true, cut := if k.cut.None? then Some(f) else k.cut)
  }

  // ---------------------------------------------------------------- A connection's own thread

  /** client_thread_main, server_process_intro, server_send_welcome_and_replay and server_finish_client.
      A thread that cannot be created behaves as one that reads nothing and finishes. */
  datatype OwnStep =
    | Admit
    | Reject
    | Quit
    | LockClients
    | LockWrite
    | LockRingMu
    | SnapshotRing
    | SnapshotRingFails
    | Publish
    | Write(n: nat)
    | Sent
    | ReplayFails
    | WriteFails
    | Unlock
    | LockError(message: seq<byte>)
    | FinishClient

  predicate CanOwn(env: Env, ring: R.RingState, clientsMu: Lock, ringMu: Lock, k: Conn, o: OwnStep) {
    match o
    case Admit => k.pc.ReadIntro? && !k.first.Other?
    case Reject => k.pc.ReadIntro?
    case Quit => k.pc.ReadIntro? || k.pc.InputLoop?
    case LockClients => k.pc.WantClients? && clientsMu.Free?
    case LockWrite => k.pc.WantWrite? && k.writeMu.Free?
    case LockRingMu => k.pc.WantRing? && ringMu.Free?
    case SnapshotRing => k.pc.InRing? && RingOk(ring)
    case SnapshotRingFails =>
      env.allocFails && k.pc.InRing? && R.Clamp(Requested(k.first), ring.base, ring.next) < ring.next
    case Publish => k.pc.Snapped? && k.window.Some?
    case Write(n) => k.pc.Sending? && !k.broken && 0 < n <= |k.pc.rest|
    case Sent => k.pc.Sending? && k.pc.rest == [] && (k.window.Some? || k.pc.stage.SendsError?)
    case ReplayFails => env.allocFails && k.pc.Sending? && k.pc.stage.SendsWelcome? && k.pc.rest == []
    case WriteFails => k.pc.Sending? && k.pc.rest != []
    case Unlock => k.pc.Unlocking? || k.pc.ErrorUnlocking?
    case LockError(message) => k.pc.WantErrorLock? && k.writeMu.Free? && |message| < MAX_FRAME
    case FinishClient => k.pc.WantFinish? && clientsMu.Free?
  }

  function OwnConn(env: Env, ring: R.RingState, clientsMu: Lock, ringMu: Lock, c: ConnId, k: Conn, o: OwnStep): Conn
    requires CanOwn(env, ring, clientsMu, ringMu, k, o)
  {
    match o
    case Admit => k.(pc := WantClients)
    case Reject => k.(pc := WantErrorLock)
    case Quit => k.(pc := WantFinish)
    case LockClients => k.(pc := WantWrite)
    case LockWrite => k.(pc := WantRing, writeMu := Held(Owner(c)))
    case LockRingMu => k.(pc := InRing)
    case SnapshotRing => k.(pc := Snapped, window := Some(R.Snapshot(ring, Requested(k.first))))
    case SnapshotRingFails => k.(pc := WantErrorLock, writeMu := Free)
    case Publish =>
      var f := WelcomeFrame(k.window.value.base, k.window.value.next);
      k.(pc := Sending(SendsWelcome, f, Encode(f)),
         obj := k.obj.(authenticated := true, liveSeq := k.window.value.next))
    case Write(n) =>
      k.(wire := k.wire + k.pc.rest[..n], pc := k.pc.(rest := k.pc.rest[n..]),
         frames := if n == |k.pc.rest| then k.frames + [k.pc.frame] else k.frames)
    case Sent => k.(pc := AfterSending(k))
    case ReplayFails => k.(pc := Unlocking(false))
    case WriteFails => Fail(k, k.pc.frame).(pc := if k.pc.stage.SendsError? then ErrorUnlocking else Unlocking(false))
    case Unlock =>
      k.(writeMu := Free,
         pc := if k.pc.ErrorUnlocking? then WantFinish else if k.pc.ok then InputLoop else WantErrorLock)
    case LockError(message) =>
      var f := Frame(ERROR, message);
      k.(writeMu := Held(Owner(c)), pc := Sending(SendsError, f, Encode(f)))
    case FinishClient => k.(pc := Finished, obj := Finish(k.obj), broken := true)
  }

  function OwnClientsMu(clientsMu: Lock, c: ConnId, o: OwnStep): Lock {
    if o.LockClients? then Held(Owner(c)) else if o.Publish? || o.SnapshotRingFails? then Free else clientsMu
  }

  function OwnRingMu(ringMu: Lock, c: ConnId, o: OwnStep): Lock {
    if o.LockRingMu? then Held(Owner(c)) else if o.SnapshotRing? || o.SnapshotRingFails? then Free else ringMu
  }

  function DoOwn(env: Env, s: State, c: ConnId, o: OwnStep): State
    requires c in s.conns && CanOwn(env, s.ring, s.clientsMu, s.ringMu, s.conns[c], o)
  {
    s.(conns := s.conns[c := OwnConn(env, s.ring, s.clientsMu, s.ringMu, c, s.conns[c], o)],
       clientsMu := OwnClientsMu(s.clientsMu, c, o),
       ringMu := OwnRingMu(s.ringMu, c, o),
       list := if o.FinishClient? then Unlink(s.list, c) else s.list)
  }

  /** After a frame is out: WELCOME is followed by REPLAY unless that does not fit a frame. */
  function AfterSending(k: Conn): OwnPc
    requires k.pc.Sending? && (k.window.Some? || k.pc.stage.SendsError?)
  {
    match k.pc.stage
    case SendsWelcome =>
      var f := StreamFrame(REPLAY, k.window.value.from, k.window.value.data);
      if Sendable(f) then Sending(SendsReplay, f, Encode(f)) else Unlocking(false)
    case SendsReplay => Unlocking(true)
    case SendsError => ErrorUnlocking
  }

  // ---------------------------------------------------------------- Client programs

  /** run_client_endpoint, run_session and process_server_frame. A failed acknowledgement is a Cut. */
  datatype PeerStep =
    | Start
    | Connect(c: ConnId)
    | TakeFrame(avail: nat)
    | OutputFails(avail: nat, n: nat)
    | Cut
    | Leave

  predicate CanPeer(s: State, p: PeerId, q: PeerStep) {
    match q
    case Start => p !in s.peers
    case Connect(c) =>
      p in s.peers && !s.peers[p].stopped && s.peers[p].conn.None? && CanArrive(s, c)
    case TakeFrame(avail) => Incoming(s, p, avail).Got?
    case OutputFails(avail, n) =>
      var r := Incoming(s, p, avail);
      r.Got? && StreamOf(r.frame).Some? && n <= |StreamOf(r.frame).value.data|
    case Cut => p in s.peers && s.peers[p].conn.Some?
    case Leave => p in s.peers
  }

  /** What a receive yields when `avail` bytes of the connection have reached the client. */
  function Incoming(s: State, p: PeerId, avail: nat): Receipt {
    if p in s.peers && !s.peers[p].stopped && s.peers[p].conn.Some? && s.peers[p].conn.value in s.conns
       && s.peers[p].taken <= avail <= |s.conns[s.peers[p].conn.value].wire|
    then Receive(s.conns[s.peers[p].conn.value].wire[s.peers[p].taken..avail], MAX_FRAME - 1)
    else Bad
  }

  function DoPeer(env: Env, s: State, p: PeerId, q: PeerStep): State
    requires CanPeer(s, p, q)
  {
    match q
    case Start => s.(peers := s.peers[p := NewPeer])
    case Connect(c) =>
      var first := if s.peers[p].connectedOnce then Reconnect(s.peers[p].lastSeq) else Hello;
      Arrive(env, s, c, first).(peers := s.peers[p := s.peers[p].(conn := Some(c), taken := 0, got := 0)])
    case TakeFrame(avail) =>
      var r := Incoming(s, p, avail);
      var window := s.conns[s.peers[p].conn.value].window;
      s.(peers := s.peers[p := ProcessServerFrame(s.peers[p], r.frame, window).(taken := avail - |r.rest|)])
    case OutputFails(avail, n) =>
      var frame := Incoming(s, p, avail).frame;
      var window := s.conns[s.peers[p].conn.value].window;
      s.(peers := s.peers[p := OutputStops(s.peers[p], frame, n, window)])
    case Cut => s.(peers := s.peers[p := s.peers[p].(conn := None, connectedOnce := true)])
    case Leave => s.(peers := s.peers[p := s.peers[p].(conn := None, stopped := true)])
  }

  /** History: `n` bytes from `start` came in; REPLAY opens a span, STDOUT extends it. */
  function Note(spans: seq<Span>, kind: byte, start: nat, n: nat, window: Option<R.Window>,
                conn: Option<ConnId>): seq<Span>
  {
    if kind == REPLAY || spans == [] then
      spans + [Span(start, start + n, if window.Some? then window.value.next else 0, conn)]
    else
      spans[|spans| - 1 := spans[|spans| - 1].(to := start + n)]
  }

  /** process_server_frame on a frame whose output is written in full. */
  function ProcessServerFrame(q: Peer, f: Frame, window: Option<R.Window>): Peer {
    if WelcomeOf(f).Some? then q.(got := q.got + 1)
    else if StreamOf(f).Some? then
      var st := StreamOf(f).value;
      q.(out := q.out + st.data, lastSeq := Max(q.lastSeq, st.start + |st.data|), got := q.got + 1,
         spans := Note(q.spans, f.kind, st.start, |st.data|, window, q.conn))
    else q.(conn := None, stopped := true)
  }

  /** process_server_frame when only `n` bytes of the frame's output could be written: the client exits. */
  function OutputStops(q: Peer, f: Frame, n: nat, window: Option<R.Window>): Peer
    requires StreamOf(f).Some? && n <= |StreamOf(f).value.data|
  {
    var st := StreamOf(f).value;
    q.(out := q.out + st.data[..n], spans := Note(q.spans, f.kind, st.start, n, window, q.conn), stopped := true,
       conn := None)
  }

  // ---------------------------------------------------------------- Runs

  /** The state after these steps, or None if one of them cannot be taken. */
  function Run(env: Env, steps: seq<Step>): Option<State> {
    if steps == [] then Some(Init(env))
    else
      var before := Run(env, steps[..|steps| - 1]);
      if before.Some? && Can(env, before.value, steps[|steps| - 1])
      then Some(Do(env, before.value, steps[|steps| - 1])) else None
  }

  ghost predicate Reachable(env: Env, s: State) {
    exists steps: seq<Step> :: Run(env, steps) == Some(s)
  }

  lemma ReachInit(env: Env)
    ensures Reachable(env, Init(env))
  {
    assert Run(env, []) == Some(Init(env));
  }

  lemma ReachNext(env: Env, s: State, step: Step)
    requires Reachable(env, s) && Can(env, s, step)
    ensures Reachable(env, Do(env, s, step))
  {
    var steps: seq<Step> :| Run(env, steps) == Some(s);
    assert (steps + [step])[..|steps|] == steps;
    assert Run(env, steps + [step]) == Some(Do(env, s, step));
  }
}
