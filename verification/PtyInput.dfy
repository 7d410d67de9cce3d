/** What is written to the PTY: STDIN payloads of admitted connections and the inputs of shutdown requests,
    each under pty_mu (src/server.c:456-467, 525-571, 583-632). */
module PtyInput {
  import opened Bytes
  import opened Framing
  import opened Messages

  type ConnId = nat

  /** The two secrets of the server; an empty one is not set. */
  datatype Config = Config(token: seq<byte>, controlToken: seq<byte>)

  /** As server_tokens_equal compares a secret with the buffer a parser filled. */
  predicate Matches(secret: seq<byte>, token: seq<byte>) {
    |secret| <= MAX_TOKEN + 1 && |token| <= MAX_TOKEN + 1 && Padded(secret) == Padded(token)
  }

  /** server_process_intro, up to the resize and the attach. */
  predicate Admits(cfg: Config, first: Frame) {
    var i := IntroOf(first, MAX_TOKEN + 1);
    i.Some? && i.value.cols != 0 && i.value.rows != 0 && (cfg.token == [] || Matches(cfg.token, i.value.token))
  }

  /** server_process_control_shutdown */
  predicate Controls(cfg: Config, first: Frame) {
    var c := ControlOf(first, MAX_TOKEN + 1);
    c.Some? && cfg.controlToken != [] && Matches(cfg.controlToken, c.value.token)
  }

  // ---------------------------------------------------------------- Steps

  /** Where a connection's thread is. */
  datatype Pc =
    | ReadFirst
    | Attaching
    | InputLoop
    | WantPty(payload: seq<byte>, control: bool)
    | Writing(rest: seq<byte>, control: bool)
    | Ended

  datatype Mutex = Free | HeldBy(c: ConnId)

  /** `master` is what the PTY has been given. */
  datatype State = State(conns: map<ConnId, Pc>, ptyMu: Mutex, master: seq<byte>)

  const Init := State(map[], Free, [])

  /** A step names the frame a connection received, or the bytes one write put into the PTY. */
  datatype Step =
    | Accept(c: ConnId)
    | First(c: ConnId, f: Frame)
    | Attached(c: ConnId, ok: bool)
    | Next(c: ConnId, f: Frame)
    | End(c: ConnId)
    | Lock(c: ConnId)
    | Write(c: ConnId, bytes: seq<byte>)
    | Done(c: ConnId)
    | Fails(c: ConnId)

  predicate Can(s: State, step: Step) {
    if step.Accept? then step.c !in s.conns
    else step.c in s.conns && At(s.conns[step.c], step) && (step.Lock? ==> s.ptyMu.Free?)
  }

  /** The step is one a connection's thread takes at `pc`. */
  predicate At(pc: Pc, step: Step) {
    match step
    case Accept(_) => false
    case First(_, f) => pc.ReadFirst? && |f.payload| <= MAX_UNAUTH_PAYLOAD
    case Attached(_, _) => pc.Attaching?
    case Next(_, f) => pc.InputLoop? && |f.payload| < MAX_FRAME
    case End(_) => pc.ReadFirst? || pc.InputLoop?
    case Lock(_) => pc.WantPty?
    case Write(_, bytes) => pc.Writing? && bytes != [] && bytes <= pc.rest
    case Done(_) => pc.Writing? && pc.rest == []
    case Fails(_) => pc.Writing? && pc.rest != []
  }

  /** After the first frame. */
  function AfterFirst(cfg: Config, f: Frame): Pc {
    if f.kind == CONTROL_SHUTDOWN then
      if Controls(cfg, f) && ControlOf(f, MAX_TOKEN + 1).value.input != [] then
        WantPty(ControlOf(f, MAX_TOKEN + 1).value.input, true)
      else Ended
    else if Admits(cfg, f) then Attaching else Ended
  }

  /** After a frame in the input loop. */
  function AfterNext(f: Frame): Pc {
    if f.kind == STDIN then if f.payload == [] then InputLoop else WantPty(f.payload, false)
    else if f.kind == RESIZE && ResizeOf(f).Some? && ResizeOf(f).value.0 != 0 && ResizeOf(f).value.1 != 0 then InputLoop
    else if f.kind == ACK && AckOf(f).Some? then InputLoop
    else Ended
  }

  function AfterStep(cfg: Config, pc: Pc, step: Step): Pc
    requires At(pc, step)
  {
    match step
    case First(_, f) => AfterFirst(cfg, f)
    case Attached(_, ok) => if ok then InputLoop else Ended
    case Next(_, f) => AfterNext(f)
    case End(_) => Ended
    case Lock(_) => Writing(pc.payload, pc.control)
    case Write(_, bytes) => pc.(rest := pc.rest[|bytes|..])
    case Done(_) => if pc.control then Ended else InputLoop
    case Fails(_) => Ended
  }

  function Do(cfg: Config, s: State, step: Step): State
    requires Can(s, step)
  {
    if step.Accept? then s.(conns := s.conns[step.c := ReadFirst])
    else
      s.(conns := s.conns[step.c := AfterStep(cfg, s.conns[step.c], step)],
         ptyMu := if step.Lock? then HeldBy(step.c) else if step.Done? || step.Fails? then Free else s.ptyMu,
         master := if step.Write? then s.master + step.bytes else s.master)
  }

  /** The state after these steps, or None if one of them cannot be taken. */
  function Run(cfg: Config, steps: seq<Step>): Option<State> {
    if steps == [] then Some(Init)
    else
      var before := Run(cfg, steps[..|steps| - 1]);
      if before.Some? && Can(before.value, steps[|steps| - 1])
      then Some(Do(cfg, before.value, steps[|steps| - 1])) else None
  }

  // ---------------------------------------------------------------- Read off the steps of a run

  /** One hold of pty_mu, and the bytes written during it. */
  datatype Piece = Piece(c: ConnId, bytes: seq<byte>)

  function PieceAfter(ps: seq<Piece>, step: Step): seq<Piece> {
    if step.Lock? then ps + [Piece(step.c, [])]
    else if step.Write? && ps != [] then
      ps[..|ps| - 1] + [Piece(ps[|ps| - 1].c, ps[|ps| - 1].bytes + step.bytes)]
    else ps
  }

  function Pieces(steps: seq<Step>): seq<Piece> {
    if steps == [] then [] else PieceAfter(Pieces(steps[..|steps| - 1]), steps[|steps| - 1])
  }

  function Joined(ps: seq<Piece>): seq<byte> {
    if ps == [] then [] else Joined(ps[..|ps| - 1]) + ps[|ps| - 1].bytes
  }

  /** What the pieces of one connection hold, in order. */
  function From(ps: seq<Piece>, c: ConnId): seq<seq<byte>> {
    if ps == [] then []
    else From(ps[..|ps| - 1], c) + if ps[|ps| - 1].c == c then [ps[|ps| - 1].bytes] else []
  }

  /** What a step's frame asks to be written: a nonempty STDIN payload, or the input of a shutdown request that
      carries the control token. */
  function Asks(cfg: Config, step: Step, c: ConnId): seq<seq<byte>> {
    if step.Next? && step.c == c && step.f.kind == STDIN && step.f.payload != [] then [step.f.payload]
    else if step.First? && step.c == c && Controls(cfg, step.f) && ControlOf(step.f, MAX_TOKEN + 1).value.input != []
    then [ControlOf(step.f, MAX_TOKEN + 1).value.input]
    else []
  }

  /** The payloads that a connection's frames asked to be written, in order. */
  function Asked(cfg: Config, steps: seq<Step>, c: ConnId): seq<seq<byte>> {
    if steps == [] then [] else Asked(cfg, steps[..|steps| - 1], c) + Asks(cfg, steps[|steps| - 1], c)
  }

  /** The first frame a connection received. */
  function FirstOf(steps: seq<Step>, c: ConnId): Option<Frame> {
    if steps == [] then None
    else if steps[|steps| - 1].First? && steps[|steps| - 1].c == c then Some(steps[|steps| - 1].f)
    else FirstOf(steps[..|steps| - 1], c)
  }

  // ---------------------------------------------------------------- What every step keeps

  /** All but the last are as asked, and the last is an initial part of what was asked. */
  ghost predicate Follows(sent: seq<seq<byte>>, asked: seq<seq<byte>>) {
    && |sent| <= |asked|
    && (forall i :: 0 <= i < |sent| - 1 ==> sent[i] == asked[i])
    && (sent != [] ==> sent[|sent| - 1] <= asked[|sent| - 1])
  }

  /** `failed`: a write to the PTY failed for this connection. */
  ghost predicate ConnOk(cfg: Config, sent: seq<seq<byte>>, asked: seq<seq<byte>>, first: Option<Frame>, failed: bool,
                         pc: Pc) {
    && match pc
       case ReadFirst => sent == asked == [] && first.None?
       case Attaching => sent == asked == []
       case InputLoop => sent == asked
       case WantPty(payload, _) => payload != [] && asked == sent + [payload]
       case Writing(rest, _) =>
         sent != [] && asked == sent[..|sent| - 1] + [sent[|sent| - 1] + rest] && asked[|asked| - 1] != []
       case Ended => |sent| == |asked| && Follows(sent, asked) && (sent != asked ==> failed)
  }

  /** How a connection came to be where it is. */
  ghost predicate CameBy(cfg: Config, first: Option<Frame>, asked: seq<seq<byte>>, pc: Pc) {
    && (pc.Attaching? || pc.InputLoop? || (pc.WantPty? && !pc.control) || (pc.Writing? && !pc.control) ==>
          first.Some? && Admits(cfg, first.value))
    && (asked != [] ==> first.Some? && (Admits(cfg, first.value) || Controls(cfg, first.value)))
  }

  function SentAfter(sent: seq<seq<byte>>, step: Step): seq<seq<byte>> {
    if step.Lock? then sent + [[]]
    else if step.Write? && sent != [] then sent[..|sent| - 1] + [sent[|sent| - 1] + step.bytes]
    else sent
  }

  function FirstAfter(first: Option<Frame>, step: Step): Option<Frame> {
    if step.First? then Some(step.f) else first
  }

  lemma WriteKeeps(cfg: Config, sent: seq<seq<byte>>, asked: seq<seq<byte>>, rest: seq<byte>, bytes: seq<byte>)
    requires sent != [] && asked == sent[..|sent| - 1] + [sent[|sent| - 1] + rest] && bytes <= rest
    ensures var sent' := sent[..|sent| - 1] + [sent[|sent| - 1] + bytes];
            asked == sent'[..|sent'| - 1] + [sent'[|sent'| - 1] + rest[|bytes|..]]
  {
    assert bytes + rest[|bytes|..] == rest;
    assert sent[|sent| - 1] + bytes + rest[|bytes|..] == sent[|sent| - 1] + rest;
  }

  lemma StopKeeps(sent: seq<seq<byte>>, asked: seq<seq<byte>>, rest: seq<byte>)
    requires sent != [] && asked == sent[..|sent| - 1] + [sent[|sent| - 1] + rest]
    ensures |sent| == |asked| && Follows(sent, asked) && (rest == [] ==> sent == asked)
  {
    var last := sent[|sent| - 1];
    assert sent[..|sent| - 1] + [last] == sent && last + [] == last && last <= last + rest;
  }

  /** A step that holds no pty_mu: only a frame can ask for something. */
  lemma FrameKeeps(cfg: Config, sent: seq<seq<byte>>, asked: seq<seq<byte>>, first: Option<Frame>, failed: bool, pc: Pc,
                   step: Step)
    requires ConnOk(cfg, sent, asked, first, failed, pc) && At(pc, step)
    requires step.First? || step.Attached? || step.Next? || step.End?
    ensures ConnOk(cfg, sent, asked + Asks(cfg, step, step.c), FirstAfter(first, step), failed,
                   AfterStep(cfg, pc, step))
  {
    if step.First? && Controls(cfg, step.f) {
      assert step.f.kind == CONTROL_SHUTDOWN;
    }
    hide Admits, Controls, IntroOf, ControlOf;
    assert asked + [] == asked;
  }

  lemma ConnKeeps(cfg: Config, sent: seq<seq<byte>>, asked: seq<seq<byte>>, first: Option<Frame>, failed: bool, pc: Pc,
                  step: Step)
    requires ConnOk(cfg, sent, asked, first, failed, pc) && At(pc, step)
    ensures ConnOk(cfg, SentAfter(sent, step), asked + Asks(cfg, step, step.c), FirstAfter(first, step),
                   failed || step.Fails?, AfterStep(cfg, pc, step))
  {
    if step.First? || step.Attached? || step.Next? || step.End? {
      FrameKeeps(cfg, sent, asked, first, failed, pc, step);
      hide ConnOk, AfterStep, At, Asks;
    } else {
      hide Admits, Controls, IntroOf, ControlOf, Follows, AfterFirst, AfterNext;
      assert asked + [] == asked;
      if step.Lock? {
        assert [] + pc.payload == pc.payload && (sent + [[]])[..|sent|] == sent;
      } else if step.Write? {
        WriteKeeps(cfg, sent, asked, pc.rest, step.bytes);
      } else {
        StopKeeps(sent, asked, pc.rest);
      }
    }
  }

  lemma CameByKeeps(cfg: Config, first: Option<Frame>, asked: seq<seq<byte>>, pc: Pc, step: Step)
    requires CameBy(cfg, first, asked, pc) && At(pc, step) && (pc.ReadFirst? ==> first.None? && asked == [])
    ensures CameBy(cfg, FirstAfter(first, step), asked + Asks(cfg, step, step.c), AfterStep(cfg, pc, step))
  {
    hide Admits, Controls, IntroOf, ControlOf;
  }

  /** The holder of pty_mu, and nobody else, is writing, and the last piece is its. */
  ghost predicate HolderOk(ps: seq<Piece>, s: State) {
    && (s.ptyMu.HeldBy? ==> s.ptyMu.c in s.conns && s.conns[s.ptyMu.c].Writing?
                            && ps != [] && ps[|ps| - 1].c == s.ptyMu.c)
    && (forall c :: c in s.conns && s.conns[c].Writing? ==> s.ptyMu == HeldBy(c))
  }

  /** What the invariant says of one connection. */
  ghost predicate ConnHistory(cfg: Config, steps: seq<Step>, s: State, c: ConnId) {
    if c in s.conns then
      && ConnOk(cfg, From(Pieces(steps), c), Asked(cfg, steps, c), FirstOf(steps, c), Fails(c) in steps, s.conns[c])
      && CameBy(cfg, FirstOf(steps, c), Asked(cfg, steps, c), s.conns[c])
    else From(Pieces(steps), c) == [] && Asked(cfg, steps, c) == [] && FirstOf(steps, c).None?
  }

  ghost predicate Inv(cfg: Config, steps: seq<Step>, s: State) {
    s.master == Joined(Pieces(steps)) && HolderOk(Pieces(steps), s) && forall c :: ConnHistory(cfg, steps, s, c)
  }

  lemma JoinedSnoc(ps: seq<Piece>, x: Piece)
    ensures Joined(ps + [x]) == Joined(ps) + x.bytes
    ensures forall c :: From(ps + [x], c) == From(ps, c) + if x.c == c then [x.bytes] else []
  {
    assert (ps + [x])[..|ps|] == ps;
  }

  lemma LastGrows(ps: seq<Piece>, bytes: seq<byte>, c: ConnId)
    requires ps != []
    ensures var init, last := ps[..|ps| - 1], ps[|ps| - 1];
            && Joined(init + [Piece(last.c, last.bytes + bytes)]) == Joined(ps) + bytes
            && From(init + [Piece(last.c, last.bytes + bytes)], c)
               == if last.c == c then
                    From(ps, c)[..|From(ps, c)| - 1] + [From(ps, c)[|From(ps, c)| - 1] + bytes]
                  else From(ps, c)
  {
    var init, last := ps[..|ps| - 1], ps[|ps| - 1];
    JoinedSnoc(init, Piece(last.c, last.bytes + bytes));
    assert Joined(init) + last.bytes + bytes == Joined(init) + (last.bytes + bytes);
    if last.c == c {
      assert From(ps, c) == From(init, c) + [last.bytes];
      assert From(ps, c)[..|From(ps, c)| - 1] == From(init, c);
    } else {
      assert From(init, c) + [] == From(init, c);
    }
  }

  /** What a step adds to the pieces, as a whole and for each connection. */
  lemma PiecesNext(ps: seq<Piece>, step: Step, c: ConnId)
    requires step.Write? ==> ps != [] && ps[|ps| - 1].c == step.c
    ensures Joined(PieceAfter(ps, step)) == Joined(ps) + if step.Write? then step.bytes else []
    ensures From(PieceAfter(ps, step), c) == if step.c == c then SentAfter(From(ps, c), step) else From(ps, c)
  {
    assert Joined(ps) + [] == Joined(ps) && From(ps, c) + [] == From(ps, c);
    if step.Lock? {
      JoinedSnoc(ps, Piece(step.c, []));
    } else if step.Write? {
      LastGrows(ps, step.bytes, c);
      HasPiece(ps, step.c);
      hide From, Joined;
    }
  }

  lemma HasPiece(ps: seq<Piece>, c: ConnId)
    requires ps != [] && ps[|ps| - 1].c == c
    ensures From(ps, c) != []
  {
  }

  lemma StepsNext(cfg: Config, steps: seq<Step>, step: Step, c: ConnId)
    ensures Pieces(steps + [step]) == PieceAfter(Pieces(steps), step)
    ensures Asked(cfg, steps + [step], c) == Asked(cfg, steps, c) + Asks(cfg, step, c)
    ensures FirstOf(steps + [step], c) == if step.c == c then FirstAfter(FirstOf(steps, c), step) else FirstOf(steps, c)
  {
    assert (steps + [step])[..|steps|] == steps;
  }

  lemma HolderNext(cfg: Config, ps: seq<Piece>, s: State, step: Step)
    requires HolderOk(ps, s) && Can(s, step)
    ensures HolderOk(PieceAfter(ps, step), Do(cfg, s, step))
    ensures step.Write? ==> ps != [] && ps[|ps| - 1].c == step.c
  {
    hide Admits, Controls, IntroOf, ControlOf;
  }

  lemma OtherConn(cfg: Config, s: State, step: Step, c: ConnId)
    requires Can(s, step) && step.c != c
    ensures c in Do(cfg, s, step).conns <==> c in s.conns
    ensures c in s.conns ==> Do(cfg, s, step).conns[c] == s.conns[c]
  {
    hide AfterStep, At;
  }

  lemma OtherNext(cfg: Config, steps: seq<Step>, s: State, step: Step, c: ConnId)
    requires ConnHistory(cfg, steps, s, c) && HolderOk(Pieces(steps), s) && Can(s, step) && step.c != c
    ensures ConnHistory(cfg, steps + [step], Do(cfg, s, step), c)
  {
    hide Pieces, From, Asked, FirstOf, Joined, PieceAfter, HolderOk, ConnOk, CameBy, Do, Can;
    StepsNext(cfg, steps, step, c);
    HolderNext(cfg, Pieces(steps), s, step);
    PiecesNext(Pieces(steps), step, c);
    OtherConn(cfg, s, step, c);
    assert Fails(c) in steps + [step] <==> Fails(c) in steps;
    assert Asked(cfg, steps, c) + [] == Asked(cfg, steps, c);
  }

  lemma OwnNext(cfg: Config, steps: seq<Step>, s: State, step: Step)
    requires ConnHistory(cfg, steps, s, step.c) && HolderOk(Pieces(steps), s) && Can(s, step)
    ensures ConnHistory(cfg, steps + [step], Do(cfg, s, step), step.c)
  {
    var c, ps := step.c, Pieces(steps);
    StepsNext(cfg, steps, step, c);
    HolderNext(cfg, ps, s, step);
    PiecesNext(ps, step, c);
    hide Pieces, From, Asked, FirstOf, Joined, PieceAfter, HolderOk, ConnOk, CameBy, Admits, Controls, AfterStep, At,
      SentAfter;
    var sent, asked, first, failed := From(ps, c), Asked(cfg, steps, c), FirstOf(steps, c), Fails(c) in steps;
    assert Fails(c) in steps + [step] <==> failed || step == Fails(c);
    if step.Accept? {
      Arrives(cfg, step, Fails(c) in steps + [step]);
    } else {
      ConnKeeps(cfg, sent, asked, first, failed, s.conns[c], step);
      FirstYet(cfg, sent, asked, first, failed, s.conns[c]);
      CameByKeeps(cfg, first, asked, s.conns[c], step);
    }
  }

  lemma FirstYet(cfg: Config, sent: seq<seq<byte>>, asked: seq<seq<byte>>, first: Option<Frame>, failed: bool, pc: Pc)
    requires ConnOk(cfg, sent, asked, first, failed, pc)
    ensures pc.ReadFirst? ==> first.None? && asked == []
  {
  }

  lemma Arrives(cfg: Config, step: Step, failed: bool)
    requires step.Accept?
    ensures ConnOk(cfg, SentAfter([], step), [] + Asks(cfg, step, step.c), FirstAfter(None, step), failed, ReadFirst)
    ensures CameBy(cfg, FirstAfter(None, step), [] + Asks(cfg, step, step.c), ReadFirst)
  {
  }

  lemma InvNext(cfg: Config, steps: seq<Step>, s: State, step: Step)
    requires Inv(cfg, steps, s) && Can(s, step)
    ensures Inv(cfg, steps + [step], Do(cfg, s, step))
  {
    hide ConnHistory, Pieces, From, Asked, FirstOf, Joined, PieceAfter, HolderOk, AfterStep, At;
    var ps := Pieces(steps);
    HolderNext(cfg, ps, s, step);
    PiecesNext(ps, step, step.c);
    StepsNext(cfg, steps, step, step.c);
    assert Joined(ps) + [] == Joined(ps);
    forall c
      ensures ConnHistory(cfg, steps + [step], Do(cfg, s, step), c)
    {
      if step.c == c {
        OwnNext(cfg, steps, s, step);
      } else {
        OtherNext(cfg, steps, s, step, c);
      }
    }
  }

  lemma InvInit(cfg: Config)
    ensures Inv(cfg, [], Init)
  {
  }

  lemma {:induction false} InvRun(cfg: Config, steps: seq<Step>)
    requires Run(cfg, steps).Some?
    ensures Inv(cfg, steps, Run(cfg, steps).value)
    decreases |steps|
  {
    hide Inv, Do, Can;
    if steps == [] {
      InvInit(cfg);
    } else {
      var init, last := steps[..|steps| - 1], steps[|steps| - 1];
      InvRun(cfg, init);
      InvNext(cfg, init, Run(cfg, init).value, last);
      assert init + [last] == steps;
    }
  }

  // ---------------------------------------------------------------- Main results

  /** Over every run, the PTY has been given the pieces one after the other: each connection's pieces are, in
      order, the payloads that its frames asked to be written, all except possibly one that it waits to write.
      A piece is partial only while it is being written, or after a write that failed. */
  lemma InputIsConserved(cfg: Config, steps: seq<Step>, c: ConnId)
    requires Run(cfg, steps).Some?
    ensures Run(cfg, steps).value.master == Joined(Pieces(steps))
    ensures var sent, asked, s := From(Pieces(steps), c), Asked(cfg, steps, c), Run(cfg, steps).value;
            && Follows(sent, asked) && |asked| <= |sent| + 1
            && (sent != asked ==> c in s.conns && (s.conns[c].WantPty? || s.conns[c].Writing? || Fails(c) in steps))
            && (|sent| < |asked| ==> c in s.conns && s.conns[c].WantPty?)
  {
    InvRun(cfg, steps);
    assert ConnHistory(cfg, steps, Run(cfg, steps).value, c);
    hide Pieces, From, Asked, FirstOf, Joined, Run, CameBy;
  }

  /** Only frames on a connection that was admitted, or that carries a shutdown request with the control token,
      ask for anything to be written. */
  lemma OnlyTheEntitledAsk(cfg: Config, steps: seq<Step>, c: ConnId)
    requires Run(cfg, steps).Some? && Asked(cfg, steps, c) != []
    ensures FirstOf(steps, c).Some?
    ensures Admits(cfg, FirstOf(steps, c).value) || Controls(cfg, FirstOf(steps, c).value)
  {
    InvRun(cfg, steps);
    assert ConnHistory(cfg, steps, Run(cfg, steps).value, c);
    hide Pieces, From, Asked, FirstOf, Joined, Run, ConnOk, Admits, Controls;
  }

  /** Who is admitted: any well-formed intro with a window size, if no secret is set; otherwise only one that
      carries the secret, which may be padded with NULs. */
  lemma AdmitsExactly(cfg: Config, kind: byte, lastSeq: nat, cols: nat, rows: nat, token: seq<byte>)
    requires kind == HELLO || kind == RECONNECT
    requires lastSeq < U64_LIMIT && cols < U16_LIMIT && rows < U16_LIMIT && |token| <= 255
    requires NulFree(cfg.token) && |cfg.token| <= 255
    ensures Admits(cfg, Frame(kind, IntroPayload(kind == RECONNECT, lastSeq, cols, rows, token)))
            <==> cols > 0 && rows > 0
                 && (cfg.token == []
                     || (cfg.token <= token && forall i :: |cfg.token| <= i < |token| ==> token[i] == 0))
  {
    IntroRoundTrip(kind, lastSeq, cols, rows, token, MAX_TOKEN + 1);
    PaddedEquality(cfg.token, token);
    hide IntroOf, IntroPayload, Padded;
  }

  /** Who may shut down: nobody, if no control token is set; otherwise only a request that carries it. */
  lemma ControlsExactly(cfg: Config, token: seq<byte>, input: seq<byte>)
    requires |token| <= 255 && |input| <= 4096 && NulFree(cfg.controlToken) && |cfg.controlToken| <= 255
    ensures Controls(cfg, Frame(CONTROL_SHUTDOWN, ControlPayload(token, input)))
            <==> cfg.controlToken != [] && cfg.controlToken <= token
                 && forall i :: |cfg.controlToken| <= i < |token| ==> token[i] == 0
  {
    ControlRoundTrip(token, input, MAX_TOKEN + 1);
    PaddedEquality(cfg.controlToken, token);
    hide ControlOf, ControlPayload, Padded;
  }

  /** With a secret set, whoever gets bytes to the PTY knows it. */
  lemma WritersKnowTheSecret(cfg: Config, steps: seq<Step>, c: ConnId)
    requires Run(cfg, steps).Some? && From(Pieces(steps), c) != []
    requires NulFree(cfg.token) && |cfg.token| <= MAX_TOKEN
    requires NulFree(cfg.controlToken) && |cfg.controlToken| <= MAX_TOKEN
    ensures FirstOf(steps, c).Some?
    ensures var first := FirstOf(steps, c).value;
            || (ControlOf(first, MAX_TOKEN + 1).Some? && cfg.controlToken != []
                && CString(ControlOf(first, MAX_TOKEN + 1).value.token) == cfg.controlToken)
            || (IntroOf(first, MAX_TOKEN + 1).Some?
                && (cfg.token != [] ==> CString(IntroOf(first, MAX_TOKEN + 1).value.token) == cfg.token))
  {
    InputIsConserved(cfg, steps, c);
    OnlyTheEntitledAsk(cfg, steps, c);
    var first := FirstOf(steps, c).value;
    if Admits(cfg, first) {
      if cfg.token != [] {
        PaddedEquality(cfg.token, IntroOf(first, MAX_TOKEN + 1).value.token);
      }
    } else {
      PaddedEquality(cfg.controlToken, ControlOf(first, MAX_TOKEN + 1).value.token);
    }
  }

  /** Nobody gets stuck: in every reachable state each connection's thread has a step to take, unless it is done or
      waits for pty_mu, and then the thread that holds that has one. */
  lemma NobodyIsStuck(cfg: Config, steps: seq<Step>, c: ConnId) returns (step: Step)
    requires Run(cfg, steps).Some? && c in Run(cfg, steps).value.conns && !Run(cfg, steps).value.conns[c].Ended?
    ensures var s := Run(cfg, steps).value;
            && Can(s, step) && !step.Accept? && !step.Fails?
            && step.c == if s.conns[c].WantPty? && s.ptyMu.HeldBy? then s.ptyMu.c else c
  {
    InvRun(cfg, steps);
    var s := Run(cfg, steps).value;
    hide Pieces, From, Asked, FirstOf, Joined, Run, CameBy, ConnOk;
    var u: ConnId := if s.conns[c].WantPty? && s.ptyMu.HeldBy? then s.ptyMu.c else c;
    var pc := s.conns[u];
    step := if pc.Attaching? then Attached(u, true)
            else if pc.WantPty? then Lock(u)
            else if pc.Writing? then if pc.rest == [] then Done(u) else Write(u, pc.rest)
            else End(u);
  }

  // ---------------------------------------------------------------- A run for every input

  /** What a client program sends once it is attached. */
  datatype Input = Keys(data: seq<byte>) | Resized(cols: nat, rows: nat) | Acked(ack: nat)

  predicate Proper(x: Input) {
    match x
    case Keys(data) => |data| < MAX_FRAME
    case Resized(cols, rows) => 0 < cols < U16_LIMIT && 0 < rows < U16_LIMIT
    case Acked(ack) => ack < U64_LIMIT
  }

  function FrameOf(x: Input): Frame {
    match x
    case Keys(data) => Frame(STDIN, data)
    case Resized(cols, rows) => ResizeFrame(cols, rows)
    case Acked(ack) => AckFrame(ack)
  }

  function Typed(xs: seq<Input>): seq<byte> {
    if xs == [] then []
    else Typed(xs[..|xs| - 1]) + if xs[|xs| - 1].Keys? then xs[|xs| - 1].data else []
  }

  lemma RunNext(cfg: Config, steps: seq<Step>, s: State, step: Step)
    requires Run(cfg, steps) == Some(s) && Can(s, step)
    ensures Run(cfg, steps + [step]) == Some(Do(cfg, s, step))
  {
    assert (steps + [step])[..|steps|] == steps;
  }

  /** The state `s` but for connection `c`, the mutex and the PTY. */
  function With(s: State, c: ConnId, pc: Pc, mu: Mutex, master: seq<byte>): State {
    State(s.conns[c := pc], mu, master)
  }

  lemma Moves(cfg: Config, steps: seq<Step>, s: State, c: ConnId, pc: Pc, mu: Mutex, master: seq<byte>, step: Step)
    requires Run(cfg, steps) == Some(With(s, c, pc, mu, master)) && step.c == c && !step.Accept?
    requires At(pc, step) && (step.Lock? ==> mu.Free?)
    ensures Run(cfg, steps + [step])
            == Some(With(s, c, AfterStep(cfg, pc, step),
                         if step.Lock? then HeldBy(c) else if step.Done? || step.Fails? then Free else mu,
                         if step.Write? then master + step.bytes else master))
  {
    hide Run, At, AfterStep;
    RunNext(cfg, steps, With(s, c, pc, mu, master), step);
    assert s.conns[c := pc][c := AfterStep(cfg, pc, step)] == s.conns[c := AfterStep(cfg, pc, step)];
  }

  lemma Attends(cfg: Config, before: seq<Step>, s: State, c: ConnId, first: Frame) returns (steps: seq<Step>)
    requires Run(cfg, before) == Some(s) && c !in s.conns && Admits(cfg, first) && |first.payload| <= MAX_UNAUTH_PAYLOAD
    ensures before <= steps && Run(cfg, steps) == Some(With(s, c, InputLoop, s.ptyMu, s.master))
  {
    hide Run, Admits, Controls;
    RunNext(cfg, before, s, Accept(c));
    steps := before + [Accept(c)];
    assert first.kind != CONTROL_SHUTDOWN by { IntroKind(cfg, first); }
    Moves(cfg, steps, s, c, ReadFirst, s.ptyMu, s.master, First(c, first));
    steps := steps + [First(c, first)];
    Moves(cfg, steps, s, c, Attaching, s.ptyMu, s.master, Attached(c, true));
    steps := steps + [Attached(c, true)];
  }

  lemma IntroKind(cfg: Config, first: Frame)
    requires Admits(cfg, first)
    ensures first.kind == HELLO || first.kind == RECONNECT
  {
  }

  lemma TakesInput(cfg: Config, before: seq<Step>, s: State, c: ConnId, master: seq<byte>, x: Input)
      returns (steps: seq<Step>)
    requires Run(cfg, before) == Some(With(s, c, InputLoop, Free, master)) && Proper(x)
    ensures before <= steps
    ensures Run(cfg, steps) == Some(With(s, c, InputLoop, Free, master + if x.Keys? then x.data else []))
  {
    hide Run;
    var f := FrameOf(x);
    steps := before + [Next(c, f)];
    Moves(cfg, before, s, c, InputLoop, Free, master, Next(c, f));
    assert master + [] == master;
    match x
    case Keys(data) =>
      if data != [] {
        steps := WritesAll(cfg, steps, s, c, master, data, false);
      }
    case Resized(cols, rows) => InputMessagesRoundTrip(cols, rows, 0);
    case Acked(ack) => InputMessagesRoundTrip(0, 0, ack);
  }

  lemma WritesAll(cfg: Config, before: seq<Step>, s: State, c: ConnId, master: seq<byte>, data: seq<byte>,
                  control: bool)
      returns (steps: seq<Step>)
    requires data != [] && Run(cfg, before) == Some(With(s, c, WantPty(data, control), Free, master))
    ensures before <= steps
    ensures Run(cfg, steps) == Some(With(s, c, if control then Ended else InputLoop, Free, master + data))
  {
    hide Run, With;
    Moves(cfg, before, s, c, WantPty(data, control), Free, master, Lock(c));
    steps := before + [Lock(c)];
    Moves(cfg, steps, s, c, Writing(data, control), HeldBy(c), master, Write(c, data));
    assert data[|data|..] == [];
    steps := steps + [Write(c, data)];
    Moves(cfg, steps, s, c, Writing([], control), HeldBy(c), master + data, Done(c));
    steps := steps + [Done(c)];
  }

  /** From wherever a run has got to while nobody writes, and whatever an admitted newcomer then sends of keys, sizes
      and acknowledgements: the run can go on so that the PTY gets exactly its keys and the connection stays open,
      or ends there. */
  lemma {:induction false} SomeRunTypes(cfg: Config, before: seq<Step>, s: State, c: ConnId, first: Frame,
                                        xs: seq<Input>)
      returns (steps: seq<Step>)
    requires Run(cfg, before) == Some(s) && s.ptyMu.Free? && c !in s.conns
    requires Admits(cfg, first) && |first.payload| <= MAX_UNAUTH_PAYLOAD
    requires forall i :: 0 <= i < |xs| ==> Proper(xs[i])
    ensures before <= steps
    ensures Run(cfg, steps) == Some(State(s.conns[c := InputLoop], Free, s.master + Typed(xs)))
    ensures Run(cfg, steps + [End(c)]) == Some(State(s.conns[c := Ended], Free, s.master + Typed(xs)))
    decreases |xs|
  {
    hide Run, Admits, Proper;
    if xs == [] {
      steps := Attends(cfg, before, s, c, first);
      assert s.master + [] == s.master;
    } else {
      var init, x := xs[..|xs| - 1], xs[|xs| - 1];
      var sofar := SomeRunTypes(cfg, before, s, c, first, init);
      steps := TakesInput(cfg, sofar, s, c, s.master + Typed(init), x);
      assert s.master + Typed(init) + (if x.Keys? then x.data else []) == s.master + Typed(xs);
    }
    Moves(cfg, steps, s, c, InputLoop, Free, s.master + Typed(xs), End(c));
  }

  /** And the input of a shutdown request with the control token can get there. */
  lemma SomeRunShutsDown(cfg: Config, before: seq<Step>, s: State, c: ConnId, first: Frame) returns (steps: seq<Step>)
    requires Run(cfg, before) == Some(s) && s.ptyMu.Free? && c !in s.conns
    requires first.kind == CONTROL_SHUTDOWN && Controls(cfg, first) && |first.payload| <= MAX_UNAUTH_PAYLOAD
    ensures before <= steps
    ensures Run(cfg, steps)
            == Some(State(s.conns[c := Ended], Free, s.master + ControlOf(first, MAX_TOKEN + 1).value.input))
  {
    hide Run, Admits;
    var input := ControlOf(first, MAX_TOKEN + 1).value.input;
    RunNext(cfg, before, s, Accept(c));
    steps := before + [Accept(c)];
    Moves(cfg, steps, s, c, ReadFirst, Free, s.master, First(c, first));
    steps := steps + [First(c, first)];
    assert s.master + [] == s.master;
    if input != [] {
      hide Controls, ControlOf;
      steps := WritesAll(cfg, steps, s, c, s.master, input, true);
    }
  }
}
