/** The messages carried in frames: what each payload is, the builders that fill a buffer at a moving
    offset, and the parsers (src/protocol.c). */
module Messages {
  import opened Bytes
  import opened Transport
  import opened Framing

  const VERSION: byte := 1
  const MAX_TOKEN: nat := 255
  const MAX_GRACEFUL_INPUT: nat := 4096
  const MAX_UNAUTH_PAYLOAD: nat := 1 + 1 + MAX_TOKEN + 2 + MAX_GRACEFUL_INPUT

  const HELLO: byte := 1
  const RECONNECT: byte := 2
  const WELCOME: byte := 3
  const STDIN: byte := 4
  const STDOUT: byte := 5
  const RESIZE: byte := 6
  const ACK: byte := 7
  const REPLAY: byte := 8
  const ERROR: byte := 9
  const CONTROL_SHUTDOWN: byte := 10

  // ---------------------------------------------------------------- Payloads

  function IntroPayload(hasSeq: bool, lastSeq: nat, cols: nat, rows: nat, token: seq<byte>): seq<byte>
    requires |token| <= MAX_TOKEN
  {
    [VERSION] + (if hasSeq then ToBE(lastSeq, 8) else []) + ToBE(cols, 2) + ToBE(rows, 2) + [|token|] + token
  }

  function ControlPayload(token: seq<byte>, input: seq<byte>): seq<byte>
    requires |token| <= MAX_TOKEN
  {
    [VERSION, |token|] + token + ToBE(|input|, 2) + input
  }

  function StreamPayload(start: nat, data: seq<byte>): seq<byte> {
    ToBE(start, 8) + data
  }

  function StreamFrame(kind: byte, start: nat, data: seq<byte>): Frame {
    Frame(kind, StreamPayload(start, data))
  }

  function WelcomeFrame(base: nat, next: nat): Frame {
    Frame(WELCOME, ToBE(base, 8) + ToBE(next, 8))
  }

  function ResizeFrame(cols: nat, rows: nat): Frame {
    Frame(RESIZE, ToBE(cols, 2) + ToBE(rows, 2))
  }

  function AckFrame(ack: nat): Frame {
    Frame(ACK, ToBE(ack, 8))
  }

  // ---------------------------------------------------------------- What a parser accepts

  datatype Intro = Intro(lastSeq: nat, cols: nat, rows: nat, token: seq<byte>)

  datatype Control = Control(token: seq<byte>, input: seq<byte>)

  datatype Stream = Stream(start: nat, data: seq<byte>)

  function IntroOf(f: Frame, tokenCap: nat): Option<Intro> {
    var p := f.payload;
    var fixed := if f.kind == RECONNECT then 14 else 6;
    if f.kind != HELLO && f.kind != RECONNECT then None
    else if |p| < fixed || p[0] != VERSION || |p| != fixed + p[fixed - 1] as nat then None
    else if p[fixed - 1] as nat + 1 > tokenCap && !(tokenCap == 0 && p[fixed - 1] == 0) then None
    else
      var lastSeq := if f.kind == RECONNECT then GetU64(p[1..]) else 0;
      Some(Intro(lastSeq, GetU16(p[fixed - 5..]), GetU16(p[fixed - 3..]), p[fixed..]))
  }

  function ControlOf(f: Frame, tokenCap: nat): Option<Control> {
    var p := f.payload;
    if f.kind != CONTROL_SHUTDOWN || tokenCap == 0 || |p| < 4 || p[0] != VERSION then None
    else if p[1] as nat + 1 > tokenCap || |p| < 4 + p[1] as nat then None
    else
      var rest := p[2 + p[1] as nat..];
      if GetU16(rest) > MAX_GRACEFUL_INPUT || |rest| != 2 + GetU16(rest) then None
      else Some(Control(p[2..2 + p[1] as nat], rest[2..]))
  }

  function StreamOf(f: Frame): Option<Stream> {
    if (f.kind != STDOUT && f.kind != REPLAY) || |f.payload| < 8 then None
    else Some(Stream(GetU64(f.payload), f.payload[8..]))
  }

  function WelcomeOf(f: Frame): Option<(nat, nat)> {
    if f.kind != WELCOME || |f.payload| != 16 then None
    else Some((GetU64(f.payload), GetU64(f.payload[8..])))
  }

  function ResizeOf(f: Frame): Option<(nat, nat)> {
    if f.kind != RESIZE || |f.payload| != 4 then None
    else Some((GetU16(f.payload), GetU16(f.payload[2..])))
  }

  function AckOf(f: Frame): Option<nat> {
    if f.kind != ACK || |f.payload| != 8 then None else Some(GetU64(f.payload))
  }

  /** What a C caller sees of a token buffer: the bytes before the first NUL. */
  function CString(token: seq<byte>): (s: seq<byte>)
    ensures |s| <= |token| && NulFree(s)
  {
    if token == [] || token[0] == 0 then [] else [token[0]] + CString(token[1..])
  }

  lemma {:induction false} CStringWhole(token: seq<byte>)
    ensures CString(token) == token <==> NulFree(token)
    ensures |CString(token)| == |token| <==> NulFree(token)
  {
    if token != [] && token[0] != 0 {
      CStringWhole(token[1..]);
    }
  }

  // ---------------------------------------------------------------- Canonical first frames

  lemma Assoc5(a: seq<byte>, b: seq<byte>, c: seq<byte>, d: seq<byte>, e: seq<byte>)
    ensures var s := a + b + c + d + e;
            && s[..|a|] == a
            && s[|a|..] == b + c + d + e
            && s[|a| + |b|..] == c + d + e
            && s[|a| + |b| + |c|..] == d + e
            && s[|a| + |b| + |c| + |d|..] == e
  {
  }

  /** Parsing inverts building, for HELLO (which carries no sequence number) and RECONNECT, exactly when the token
      and a NUL fit the caller's buffer; a caller without a buffer can still take an empty token. */
  lemma IntroRoundTrip(kind: byte, lastSeq: nat, cols: nat, rows: nat, token: seq<byte>, tokenCap: nat)
    requires kind == HELLO || kind == RECONNECT
    requires lastSeq < U64_LIMIT && cols < U16_LIMIT && rows < U16_LIMIT
    requires |token| <= MAX_TOKEN
    ensures IntroOf(Frame(kind, IntroPayload(kind == RECONNECT, lastSeq, cols, rows, token)), tokenCap)
            == if |token| < tokenCap || (tokenCap == 0 && token == []) then
                 Some(Intro(if kind == RECONNECT then lastSeq else 0, cols, rows, token))
               else None
  {
    hide ToBE, GetU16, GetU64;
    var head := [VERSION] + (if kind == RECONNECT then ToBE(lastSeq, 8) else []);
    var p := IntroPayload(kind == RECONNECT, lastSeq, cols, rows, token);
    assert |head| == if kind == RECONNECT then 9 else 1;
    IntroFields(head, cols, rows, token);
    if kind == RECONNECT {
      var rest := ToBE(cols, 2) + ToBE(rows, 2) + [|token| as byte] + token;
      assert p[1..] == ToBE(lastSeq, 8) + rest;
      GetPut(lastSeq, rest);
    }
  }

  lemma IntroFields(head: seq<byte>, cols: nat, rows: nat, token: seq<byte>)
    requires cols < U16_LIMIT && rows < U16_LIMIT && |token| <= MAX_TOKEN
    ensures var p := head + ToBE(cols, 2) + ToBE(rows, 2) + [|token|] + token;
            && GetU16(p[|head|..]) == cols
            && GetU16(p[|head| + 2..]) == rows
            && p[|head| + 4] == |token|
            && p[|head| + 5..] == token
  {
    hide ToBE, GetU16;
    Assoc5(head, ToBE(cols, 2), ToBE(rows, 2), [|token|], token);
    var tail: seq<byte> := [|token|] + token;
    Assoc(ToBE(cols, 2), ToBE(rows, 2) + [|token|], token);
    Assoc(ToBE(rows, 2), [|token|], token);
    Assoc(ToBE(cols, 2), ToBE(rows, 2), [|token|]);
    GetPut(cols, ToBE(rows, 2) + [|token|] + token);
    GetPut(rows, tail);
    var p := head + ToBE(cols, 2) + ToBE(rows, 2) + [|token|] + token;
    assert p[|head| + 4] == p[|head| + 4..][0];
  }

  /** On the wire: HELLO is version 1, two sizes, and the token behind its length; RECONNECT has the sequence number
      after the version. */
  lemma IntroLayout(lastSeq: nat, cols: nat, rows: nat, token: seq<byte>)
    requires lastSeq < U64_LIMIT && cols < U16_LIMIT && rows < U16_LIMIT && |token| <= 255
    ensures var p := IntroPayload(false, lastSeq, cols, rows, token);
            && |p| == 6 + |token| && p[0] == 1 && FromBE(p[1..3]) == cols && FromBE(p[3..5]) == rows
            && p[5] == |token| && p[6..] == token
    ensures var p := IntroPayload(true, lastSeq, cols, rows, token);
            && |p| == 14 + |token| && p[0] == 1 && FromBE(p[1..9]) == lastSeq
            && FromBE(p[9..11]) == cols && FromBE(p[11..13]) == rows && p[13] == |token| && p[14..] == token
  {
    hide ToBE, FromBE;
    Widths();
    FromBEToBE(lastSeq, 8);
    FromBEToBE(cols, 2);
    FromBEToBE(rows, 2);
    var p, q := IntroPayload(false, lastSeq, cols, rows, token), IntroPayload(true, lastSeq, cols, rows, token);
    assert p[1..3] == ToBE(cols, 2) && p[3..5] == ToBE(rows, 2);
    assert q[1..9] == ToBE(lastSeq, 8) && q[9..11] == ToBE(cols, 2) && q[11..13] == ToBE(rows, 2);
  }

  /** A shutdown request is version 1, the token behind its length, and the input behind its two-byte length. */
  lemma ControlLayout(token: seq<byte>, input: seq<byte>)
    requires |token| <= 255 && |input| <= 4096
    ensures var p, n := ControlPayload(token, input), |token|;
            && |p| == 4 + n + |input| && p[0] == 1 && p[1] == n && p[2..2 + n] == token
            && FromBE(p[2 + n..4 + n]) == |input| && p[4 + n..] == input
  {
    hide ToBE, FromBE;
    Widths();
    FromBEToBE(|input|, 2);
    assert ControlPayload(token, input)[2 + |token|..4 + |token|] == ToBE(|input|, 2);
  }

  /** STDOUT and REPLAY are a sequence number and data; WELCOME is the two ends of the window. */
  lemma ServerLayout(kind: byte, start: nat, data: seq<byte>, base: nat, next: nat)
    requires start < U64_LIMIT && base < U64_LIMIT && next < U64_LIMIT
    ensures var f := StreamFrame(kind, start, data);
            f.kind == kind && |f.payload| == 8 + |data| && FromBE(f.payload[..8]) == start && f.payload[8..] == data
    ensures var f := WelcomeFrame(base, next);
            f.kind == 3 && |f.payload| == 16 && FromBE(f.payload[..8]) == base && FromBE(f.payload[8..]) == next
  {
    hide ToBE, FromBE;
    Widths();
    FromBEToBE(start, 8);
    FromBEToBE(base, 8);
    FromBEToBE(next, 8);
    assert StreamPayload(start, data)[..8] == ToBE(start, 8);
    var welcome := WelcomeFrame(base, next).payload;
    assert welcome[..8] == ToBE(base, 8) && welcome[8..] == ToBE(next, 8);
  }

  /** Every accepted payload is the build of the bytes parsed from it. */
  lemma IntroCanonical(f: Frame, tokenCap: nat)
    requires IntroOf(f, tokenCap).Some?
    ensures var i := IntroOf(f, tokenCap).value;
            && |i.token| <= MAX_TOKEN && i.lastSeq < U64_LIMIT && i.cols < U16_LIMIT && i.rows < U16_LIMIT
            && f.payload == IntroPayload(f.kind == RECONNECT, i.lastSeq, i.cols, i.rows, i.token)
  {
    hide ToBE, GetU16, GetU64;
    var p := f.payload;
    if f.kind == RECONNECT {
      IntroRebuilt(p, 9);
      PutGet(p[1..]);
      assert p[1..][..8] == p[1..9];
      assert p[..9] == [p[0]] + p[1..9];
    } else {
      IntroRebuilt(p, 1);
      assert p[..1] == [p[0]] + [];
    }
  }

  lemma IntroRebuilt(p: seq<byte>, h: nat)
    requires |p| >= h + 5
    ensures GetU16(p[h..]) < U16_LIMIT && GetU16(p[h + 2..]) < U16_LIMIT
    ensures p == p[..h] + ToBE(GetU16(p[h..]), 2) + ToBE(GetU16(p[h + 2..]), 2) + [p[h + 4]] + p[h + 5..]
  {
    hide ToBE, GetU16;
    PutGet(p[h..]);
    PutGet(p[h + 2..]);
    assert p[h..][..2] == p[h..h + 2];
    assert p[h + 2..][..2] == p[h + 2..h + 4];
  }

  /** As C strings the parse is canonical exactly for tokens without a NUL: a token padded with NULs on the
      wire is accepted, and rebuilding from the C string gives a different payload. */
  lemma IntroCanonicalAsCString(f: Frame, tokenCap: nat)
    requires IntroOf(f, tokenCap).Some?
    ensures var i := IntroOf(f, tokenCap).value;
            && |CString(i.token)| <= MAX_TOKEN
            && (f.payload == IntroPayload(f.kind == RECONNECT, i.lastSeq, i.cols, i.rows, CString(i.token))
                <==> NulFree(i.token))
  {
    IntroCanonical(f, tokenCap);
    var i := IntroOf(f, tokenCap).value;
    CStringWhole(i.token);
    if |CString(i.token)| != |i.token| {
      assert |IntroPayload(f.kind == RECONNECT, i.lastSeq, i.cols, i.rows, CString(i.token))| < |f.payload|;
    }
  }

  lemma ControlRoundTrip(token: seq<byte>, input: seq<byte>, tokenCap: nat)
    requires |token| <= MAX_TOKEN && |input| < U16_LIMIT
    ensures ControlOf(Frame(CONTROL_SHUTDOWN, ControlPayload(token, input)), tokenCap)
            == if |token| < tokenCap && |input| <= 4096 then Some(Control(token, input)) else None
  {
    hide ToBE, GetU16;
    var p := ControlPayload(token, input);
    var n := |token|;
    assert p[2..2 + n] == token;
    assert p[2 + n..] == ToBE(|input|, 2) + input;
    GetPut(|input|, input);
    assert p[2 + n..][2..] == input;
  }

  lemma ControlCanonical(f: Frame, tokenCap: nat)
    requires ControlOf(f, tokenCap).Some?
    ensures var c := ControlOf(f, tokenCap).value;
            && |c.token| <= MAX_TOKEN && |c.input| <= MAX_GRACEFUL_INPUT
            && f.payload == ControlPayload(c.token, c.input)
            && |CString(c.token)| <= MAX_TOKEN
            && (f.payload == ControlPayload(CString(c.token), c.input) <==> NulFree(c.token))
  {
    hide ToBE, GetU16;
    var p := f.payload;
    var n := p[1] as nat;
    var rest := p[2 + n..];
    PutGet(rest);
    assert rest == rest[..2] + rest[2..];
    var c := ControlOf(f, tokenCap).value;
    assert p == [p[0], p[1]] + p[2..2 + n] + rest;
    assert [p[0], p[1]] + p[2..2 + n] + rest == ControlPayload(c.token, c.input);
    CStringWhole(c.token);
    if |CString(c.token)| != |c.token| {
      assert |ControlPayload(CString(c.token), c.input)| < |p|;
    }
  }

  /** Every first frame a client can build fits the unauthenticated receive limit, and a control shutdown
      with the longest token and input attains it. */
  lemma FirstFramesFit(lastSeq: nat, cols: nat, rows: nat, token: seq<byte>, input: seq<byte>)
    requires |token| <= MAX_TOKEN && |input| <= MAX_GRACEFUL_INPUT
    ensures |IntroPayload(false, lastSeq, cols, rows, token)| <= MAX_UNAUTH_PAYLOAD
    ensures |IntroPayload(true, lastSeq, cols, rows, token)| <= MAX_UNAUTH_PAYLOAD
    ensures |ControlPayload(token, input)| <= MAX_UNAUTH_PAYLOAD < MAX_FRAME
    ensures |ControlPayload(token, input)| == MAX_UNAUTH_PAYLOAD
            <==> |token| == MAX_TOKEN && |input| == MAX_GRACEFUL_INPUT
  {
  }

  /** The server-to-client messages parse back too. */
  lemma ServerMessagesRoundTrip(kind: byte, start: nat, data: seq<byte>, base: nat, next: nat)
    requires kind == STDOUT || kind == REPLAY
    requires start < U64_LIMIT && base < U64_LIMIT && next < U64_LIMIT
    ensures StreamOf(StreamFrame(kind, start, data)) == Some(Stream(start, data))
    ensures WelcomeOf(WelcomeFrame(base, next)) == Some((base, next))
  {
    GetPut(start, data);
    assert (ToBE(start, 8) + data)[8..] == data;
    GetPut(base, ToBE(next, 8));
    GetPut(next, []);
    assert ToBE(next, 8) + [] == ToBE(next, 8);
    assert (ToBE(base, 8) + ToBE(next, 8))[8..] == ToBE(next, 8);
  }

  lemma StreamCanonical(f: Frame)
    requires StreamOf(f).Some?
    ensures f == StreamFrame(f.kind, StreamOf(f).value.start, StreamOf(f).value.data)
  {
    PutGet(f.payload);
    assert f.payload == f.payload[..8] + f.payload[8..];
  }

  lemma InputMessagesRoundTrip(cols: nat, rows: nat, ack: nat)
    requires cols < U16_LIMIT && rows < U16_LIMIT && ack < U64_LIMIT
    ensures ResizeOf(ResizeFrame(cols, rows)) == Some((cols, rows))
    ensures AckOf(AckFrame(ack)) == Some(ack)
  {
    GetPut(cols, ToBE(rows, 2));
    GetPut(rows, []);
    assert ToBE(rows, 2) + [] == ToBE(rows, 2);
    assert (ToBE(cols, 2) + ToBE(rows, 2))[2..] == ToBE(rows, 2);
    GetPut(ack, []);
    assert ToBE(ack, 8) + [] == ToBE(ack, 8);
  }

  // ---------------------------------------------------------------- Builders

  lemma BlitPrefix(p: seq<byte>, off: nat, s: seq<byte>)
    requires off + |s| <= |p|
    ensures Blit(p, off, s)[..off + |s|] == p[..off] + s
  {
  }

  method SendTokenizedIntro(fd: Socket, kind: byte, lastSeq: nat, cols: nat, rows: nat, token: seq<byte>,
                            withSeq: bool)
    returns (rc: int)
    modifies fd`plan, fd`broken, fd`sent
    ensures rc == 0 ==>
              |token| <= MAX_TOKEN
              && fd.sent == old(fd.sent) + Encode(Frame(kind, IntroPayload(withSeq, lastSeq, cols, rows, token)))
    ensures rc == 0 || rc == -1
    ensures |token| > MAX_TOKEN ==> fd.sent == old(fd.sent)
    ensures rc == -1 && |token| <= MAX_TOKEN ==>
              old(fd.sent) <= fd.sent
              < old(fd.sent) + Encode(Frame(kind, IntroPayload(withSeq, lastSeq, cols, rows, token)))
    ensures old(fd.Reliable()) ==> (rc == 0 <==> |token| <= MAX_TOKEN)
  {
    hide ToBE, Encode;
    var payload := new byte[1 + 8 + 2 + 2 + 1 + MAX_TOKEN](i => 0);
    var off := 0;
    payload[off] := VERSION;
    off := off + 1;
    assert payload[..off] == [VERSION];
    if withSeq {
      BlitPrefix(payload[..], off, ToBE(lastSeq, 8));
      PutU64(payload, off, lastSeq);
      off := off + 8;
    }
    ghost var head := [VERSION] + (if withSeq then ToBE(lastSeq, 8) else []);
    assert payload[..off] == head;
    off := PutSizes(payload, off, cols, rows);
    if |token| > MAX_TOKEN {
      return -1;
    }
    ghost var fixed := payload[..off];
    Memcpy(payload, off + 1, token);
    payload[off] := |token|;
    off := off + 1;
    off := off + |token|;
    assert payload[..off] == fixed + [|token|] + token;
    rc := SendFrame(fd, Frame(kind, payload[..off]));
  }

  method PutSizes(payload: array<byte>, off0: nat, cols: nat, rows: nat) returns (off: nat)
    requires off0 + 4 <= payload.Length
    modifies payload
    ensures off == off0 + 4
    ensures payload[..off] == old(payload[..off0]) + ToBE(cols, 2) + ToBE(rows, 2)
  {
    off := off0;
    BlitPrefix(payload[..], off, ToBE(cols, 2));
    PutU16(payload, off, cols);
    off := off + 2;
    BlitPrefix(payload[..], off, ToBE(rows, 2));
    PutU16(payload, off, rows);
    off := off + 2;
  }

  method SendControlShutdown(fd: Socket, token: seq<byte>, input: seq<byte>) returns (rc: int)
    modifies fd`plan, fd`broken, fd`sent
    ensures rc == 0 ==>
              |token| <= MAX_TOKEN && |input| <= MAX_GRACEFUL_INPUT
              && fd.sent == old(fd.sent) + Encode(Frame(CONTROL_SHUTDOWN, ControlPayload(token, input)))
    ensures rc == 0 || rc == -1
    ensures |token| > MAX_TOKEN || |input| > MAX_GRACEFUL_INPUT ==> fd.sent == old(fd.sent)
    ensures rc == -1 && |token| <= MAX_TOKEN && |input| <= MAX_GRACEFUL_INPUT ==>
              old(fd.sent) <= fd.sent < old(fd.sent) + Encode(Frame(CONTROL_SHUTDOWN, ControlPayload(token, input)))
    ensures old(fd.Reliable()) ==> (rc == 0 <==> |token| <= MAX_TOKEN && |input| <= MAX_GRACEFUL_INPUT)
  {
    hide ToBE, Encode;
    if |input| > MAX_GRACEFUL_INPUT || |token| > MAX_TOKEN {
      return -1;
    }
    var payload := new byte[MAX_UNAUTH_PAYLOAD](i => 0);
    var off := 0;
    Memcpy(payload, 2, token);
    payload[off] := VERSION;
    off := off + 1;
    payload[off] := |token|;
    off := off + 1;
    off := off + |token|;
    ghost var head := [VERSION, |token|] + token;
    assert payload[..off] == head;
    BlitPrefix(payload[..], off, ToBE(|input|, 2));
    PutU16(payload, off, |input|);
    off := off + 2;
    if |input| > 0 {
      BlitPrefix(payload[..], off, input);
      Memcpy(payload, off, input);
      off := off + |input|;
    }
    assert payload[..off] == head + ToBE(|input|, 2) + input;
    rc := SendFrame(fd, Frame(CONTROL_SHUTDOWN, payload[..off]));
  }

  /** opty_send_stream_frame: STDOUT and REPLAY. `memory` is whether malloc succeeds. */
  method SendStreamFrame(fd: Socket, kind: byte, start: nat, data: seq<byte>, memory: bool) returns (rc: int)
    modifies fd`plan, fd`broken, fd`sent
    ensures rc == 0 || rc == -1
    ensures rc == 0 ==> fd.sent == old(fd.sent) + Encode(StreamFrame(kind, start, data))
    ensures rc == -1 && memory && |data| + 8 <= MAX_FRAME - 1 ==>
              old(fd.sent) <= fd.sent < old(fd.sent) + Encode(StreamFrame(kind, start, data))
    ensures !memory || |data| + 8 > MAX_FRAME - 1 ==>
              rc == -1 && fd.sent == old(fd.sent) && fd.broken == old(fd.broken)
    ensures old(fd.Reliable()) ==> (rc == 0 <==> memory && |data| + 8 <= MAX_FRAME - 1)
  {
    hide ToBE, Encode;
    if !memory {
      return -1;
    }
    var payload := new byte[8 + |data|](i => 0);
    BlitPrefix(payload[..], 0, ToBE(start, 8));
    PutU64(payload, 0, start);
    if |data| > 0 {
      Memcpy(payload, 8, data);
    }
    assert payload[..] == StreamPayload(start, data);
    rc := SendFrame(fd, Frame(kind, payload[..]));
  }

  method SendWelcome(fd: Socket, base: nat, next: nat) returns (rc: int)
    modifies fd`plan, fd`broken, fd`sent
    ensures rc == 0 || rc == -1
    ensures rc == 0 ==> fd.sent == old(fd.sent) + Encode(WelcomeFrame(base, next))
    ensures rc == -1 ==> old(fd.sent) <= fd.sent < old(fd.sent) + Encode(WelcomeFrame(base, next))
    ensures old(fd.Reliable()) ==> rc == 0
  {
    hide ToBE, Encode;
    var payload := new byte[16](i => 0);
    BlitPrefix(payload[..], 0, ToBE(base, 8));
    PutU64(payload, 0, base);
    BlitPrefix(payload[..], 8, ToBE(next, 8));
    PutU64(payload, 8, next);
    assert payload[..] == payload[..16] == ToBE(base, 8) + ToBE(next, 8);
    rc := SendFrame(fd, Frame(WELCOME, payload[..]));
  }

  // ---------------------------------------------------------------- Parsers

  method ParseClientIntro(f: Frame, tokenCap: nat) returns (r: Option<Intro>)
    ensures r == IntroOf(f, tokenCap)
  {
    hide GetU16, GetU64;
    if f.kind != HELLO && f.kind != RECONNECT {
      return None;
    }
    var hasSeq := f.kind == RECONNECT;
    var need := if hasSeq then 14 else 6;
    var off, lastSeq := 0, 0;
    if |f.payload| < need || f.payload[off] != VERSION {
      return None;
    }
    off := off + 1;
    if hasSeq {
      lastSeq := GetU64(f.payload[off..]);
      off := off + 8;
    }
    var cols := GetU16(f.payload[off..]);
    off := off + 2;
    var rows := GetU16(f.payload[off..]);
    off := off + 2;
    var tokenLen := f.payload[off] as nat;
    off := off + 1;
    if |f.payload| != off + tokenLen {
      return None;
    }
    if tokenLen + 1 > tokenCap {
      if tokenCap == 0 && tokenLen == 0 {
        assert f.payload[off..] == [];
        return Some(Intro(lastSeq, cols, rows, []));
      }
      return None;
    }
    assert f.payload[off..] == f.payload[off..off + tokenLen];
    return Some(Intro(lastSeq, cols, rows, f.payload[off..off + tokenLen]));
  }

  method ParseControlShutdown(f: Frame, tokenCap: nat) returns (r: Option<Control>)
    ensures r == ControlOf(f, tokenCap)
  {
    if tokenCap == 0 || f.kind != CONTROL_SHUTDOWN || |f.payload| < 4 {
      return None;
    }
    var off := 0;
    if f.payload[off] != VERSION {
      return None;
    }
    off := off + 1;
    var tokenLen := f.payload[off] as nat;
    off := off + 1;
    if tokenLen + 1 > tokenCap || |f.payload| < off + tokenLen + 2 {
      return None;
    }
    var token := f.payload[off..off + tokenLen];
    off := off + tokenLen;
    var gracefulLen := GetU16(f.payload[off..]);
    off := off + 2;
    if gracefulLen > MAX_GRACEFUL_INPUT || |f.payload| != off + gracefulLen {
      return None;
    }
    assert f.payload[2 + tokenLen..][2..] == f.payload[off..off + gracefulLen];
    return Some(Control(token, f.payload[off..off + gracefulLen]));
  }

  // ---------------------------------------------------------------- Token comparison

  /** A token in its 256-byte zero-filled buffer. */
  function Padded(token: seq<byte>): (s: seq<byte>)
    requires |token| <= MAX_TOKEN + 1
    ensures |s| == MAX_TOKEN + 1
  {
    token + seq(MAX_TOKEN + 1 - |token|, i => 0)
  }

  /** server_tokens_equal: no early exit, yet exactly equality of the two buffers. */
  method TokensEqual(expected: seq<byte>, actual: seq<byte>) returns (equal: bool)
    requires |expected| == MAX_TOKEN + 1 && |actual| == MAX_TOKEN + 1
    ensures equal <==> expected == actual
  {
    var diff: nat := 0;
    for i := 0 to MAX_TOKEN + 1
      invariant diff == 0 <==> expected[..i] == actual[..i]
    {
      var x := Xor(expected[i] as nat, actual[i] as nat);
      XorZero(expected[i] as nat, actual[i] as nat);
      OrZero(diff, x);
      diff := Or(diff, x);
      assert expected[..i + 1] == expected[..i] + [expected[i]];
      assert actual[..i + 1] == actual[..i] + [actual[i]];
    }
    assert expected[..MAX_TOKEN + 1] == expected && actual[..MAX_TOKEN + 1] == actual;
    return diff == 0;
  }

  /** What comparing padded buffers accepts for a NUL-free secret: the secret itself, or the secret with
      trailing NULs; as C strings these are all the secret. */
  lemma PaddedEquality(secret: seq<byte>, token: seq<byte>)
    requires NulFree(secret) && |secret| <= MAX_TOKEN && |token| <= MAX_TOKEN
    ensures Padded(secret) == Padded(token)
            <==> secret <= token && forall i :: |secret| <= i < |token| ==> token[i] == 0
    ensures Padded(secret) == Padded(token) ==> CString(token) == secret
  {
    PaddedAt(secret);
    PaddedAt(token);
    if Padded(secret) == Padded(token) {
      assert Padded(secret)[|token|] == 0;
      assert forall i :: 0 <= i < |secret| ==> token[i] == secret[i];
      CStringOf(secret, token);
    } else if secret <= token {
      assert Padded(secret) != Padded(token);
    }
  }

  lemma PaddedAt(token: seq<byte>)
    requires |token| <= MAX_TOKEN
    ensures forall i :: 0 <= i < |token| ==> Padded(token)[i] == token[i]
    ensures forall i :: |token| <= i <= MAX_TOKEN ==> Padded(token)[i] == 0
  {
  }

  lemma {:induction false} CStringOf(s: seq<byte>, token: seq<byte>)
    requires NulFree(s) && s <= token && (|s| < |token| ==> token[|s|] == 0)
    ensures CString(token) == s
  {
    if s != [] {
      CStringOf(s[1..], token[1..]);
    }
  }
}
