/** Length-prefixed frames: the four-byte length, the type byte and the payload (src/protocol.c). */
module Framing {
  import opened Bytes
  import opened Transport

  const MAX_FRAME: nat := 16 * 1024 * 1024

  datatype Frame = Frame(kind: byte, payload: seq<byte>)

  predicate Sendable(f: Frame) {
    |f.payload| <= MAX_FRAME - 1
  }

  function Encode(f: Frame): seq<byte> {
    ToBE(|f.payload| + 1, 4) + [f.kind] + f.payload
  }

  function EncodeAll(fs: seq<Frame>): seq<byte> {
    if fs == [] then [] else EncodeAll(fs[..|fs| - 1]) + Encode(fs[|fs| - 1])
  }

  // ---------------------------------------------------------------- What a receiver makes of bytes

  datatype Receipt = Got(frame: Frame, rest: seq<byte>) | Closed | Bad

  /** One receive on a stream that carries exactly `input` before its end. */
  function Receive(input: seq<byte>, limit: nat): Receipt {
    if input == [] then Closed
    else if |input| < 4 then Bad
    else
      var wireLen := GetU32(input);
      if wireLen < 1 || wireLen > MAX_FRAME || wireLen - 1 > Min(limit, MAX_FRAME - 1) then Bad
      else if |input| < 4 + wireLen then Bad
      else Got(Frame(input[4], input[5..4 + wireLen]), input[4 + wireLen..])
  }

  lemma ReceiveInvertsEncode(f: Frame, rest: seq<byte>, limit: nat)
    requires Sendable(f)
    ensures Receive(Encode(f) + rest, limit) == if |f.payload| <= limit then Got(f, rest) else Bad
  {
    var input := Encode(f) + rest;
    var n := |f.payload| + 1;
    assert input == ToBE(n, 4) + ([f.kind] + f.payload + rest);
    GetPut(n, [f.kind] + f.payload + rest);
    assert input[4] == f.kind;
    assert input[5..4 + n] == f.payload;
    assert input[4 + n..] == rest;
  }

  /** On the wire: a four-byte big-endian length that counts the type byte, the type byte, the payload. */
  lemma FrameLayout(f: Frame)
    requires Sendable(f)
    ensures var e := Encode(f);
            && |e| == 5 + |f.payload| && FromBE(e[..4]) == 1 + |f.payload| && e[4] == f.kind && e[5..] == f.payload
  {
    Widths();
    FromBEToBE(|f.payload| + 1, 4);
    assert Encode(f)[..4] == ToBE(|f.payload| + 1, 4);
  }

  /** Only encodings are accepted: what a receive consumes is the encoding of what it delivers. */
  lemma ReceiveAcceptsOnlyEncodings(input: seq<byte>, limit: nat)
    requires Receive(input, limit).Got?
    ensures var r := Receive(input, limit);
            Sendable(r.frame) && |r.frame.payload| <= limit && input == Encode(r.frame) + r.rest
  {
    var n := GetU32(input);
    GettersAreBigEndian(input);
    ToBEFromBE(input[..4]);
    assert input == input[..4] + [input[4]] + input[5..4 + n] + input[4 + n..];
  }

  /** A stream cut inside a frame delivers nothing of it. */
  lemma CutInsideFrame(f: Frame, k: nat, limit: nat)
    requires Sendable(f) && 0 < k < |Encode(f)|
    ensures Receive(Encode(f)[..k], limit) == Bad
  {
    var input := Encode(f)[..k];
    if k >= 4 {
      var n := |f.payload| + 1;
      Assoc(ToBE(n, 4), [f.kind], f.payload);
      GetPut(n, [f.kind] + f.payload);
      assert GetU32(input) == n;
    }
  }

  // ---------------------------------------------------------------- Whole streams

  datatype StreamEnd = AtBoundary | InsideFrame

  datatype Received = Received(frames: seq<Frame>, end: StreamEnd)

  /** Receive until the stream ends or a receive fails. */
  function ReceiveAll(input: seq<byte>, limit: nat): Received
    decreases |input|
  {
    match Receive(input, limit)
    case Closed => Received([], AtBoundary)
    case Bad => Received([], InsideFrame)
    case Got(f, rest) =>
      assert |rest| < |input|;
      var more := ReceiveAll(rest, limit);
      Received([f] + more.frames, more.end)
  }

  lemma {:induction false} EncodeAllSplit(a: seq<Frame>, b: seq<Frame>)
    ensures EncodeAll(a + b) == EncodeAll(a) + EncodeAll(b)
  {
    hide Encode;
    if b == [] {
      assert a + b == a;
    } else {
      assert (a + b)[..|a + b| - 1] == a + b[..|b| - 1];
      EncodeAllSplit(a, b[..|b| - 1]);
    }
  }

  lemma EncodeAllOne(f: Frame)
    ensures EncodeAll([f]) == Encode(f)
  {
    assert [f][..0] == [];
    assert EncodeAll([]) == [];
  }

  lemma EncodeAllHead(fs: seq<Frame>)
    requires fs != []
    ensures EncodeAll(fs) == Encode(fs[0]) + EncodeAll(fs[1..])
  {
    hide Encode;
    assert fs == [fs[0]] + fs[1..];
    EncodeAllSplit([fs[0]], fs[1..]);
    EncodeAllOne(fs[0]);
  }

  lemma EncodeAllSnoc(fs: seq<Frame>, m: nat)
    requires m < |fs|
    ensures EncodeAll(fs[..m + 1]) == EncodeAll(fs[..m]) + Encode(fs[m])
  {
    assert fs[..m + 1][..m] == fs[..m];
  }

  lemma Assoc(a: seq<byte>, b: seq<byte>, c: seq<byte>)
    ensures a + b + c == a + (b + c)
  {
  }

  lemma CutMiddle(a: seq<byte>, b: seq<byte>, c: seq<byte>, k: nat)
    requires |a| <= k <= |a| + |b|
    ensures (a + b + c)[..k] == a + b[..k - |a|]
  {
  }

  /** The first frame a receiver gets from a list of frames and whatever follows them. */
  lemma ReceiveHead(fs: seq<Frame>, tail: seq<byte>, limit: nat)
    requires fs != [] && Sendable(fs[0]) && |fs[0].payload| <= limit
    ensures Receive(EncodeAll(fs) + tail, limit) == Got(fs[0], EncodeAll(fs[1..]) + tail)
  {
    EncodeAllHead(fs);
    Assoc(Encode(fs[0]), EncodeAll(fs[1..]), tail);
    ReceiveInvertsEncode(fs[0], EncodeAll(fs[1..]) + tail, limit);
  }

  ghost predicate AllSendable(fs: seq<Frame>, limit: nat) {
    forall i :: 0 <= i < |fs| ==> Sendable(fs[i]) && |fs[i].payload| <= limit
  }

  /** A stream of whole frames, then possibly part of one more, yields exactly the whole frames. */
  lemma {:induction false} StreamRoundTrip(fs: seq<Frame>, next: Frame, k: nat, limit: nat)
    requires AllSendable(fs, limit) && Sendable(next) && k < |Encode(next)|
    ensures ReceiveAll(EncodeAll(fs) + Encode(next)[..k], limit)
            == Received(fs, if k == 0 then AtBoundary else InsideFrame)
    decreases |fs|
  {
    var part := Encode(next)[..k];
    if fs == [] {
      assert EncodeAll(fs) + part == part;
      if k > 0 {
        CutInsideFrame(next, k, limit);
      }
    } else {
      ReceiveHead(fs, part, limit);
      StreamRoundTrip(fs[1..], next, k, limit);
      assert [fs[0]] + fs[1..] == fs;
    }
  }

  /** How many whole frames the first `k` bytes of the encoding hold. */
  function WholeFrames(fs: seq<Frame>, k: nat): (m: nat)
    ensures m <= |fs|
    ensures k <= |EncodeAll(fs)| ==> |EncodeAll(fs[..m])| <= k
    ensures m < |fs| ==> k < |EncodeAll(fs[..m + 1])|
  {
    if |EncodeAll(fs)| <= k then
      assert fs[..|fs|] == fs;
      |fs|
    else
      assert fs != [];
      var init := fs[..|fs| - 1];
      var m := WholeFrames(init, k);
      assert fs[..|fs|] == fs;
      assert forall j :: 0 <= j <= |init| ==> init[..j] == fs[..j];
      m
  }

  /** Every cut of every list of frames: exactly the frames before the cut arrive, the stream ends cleanly
      if and only if the cut is at a frame boundary. */
  lemma CutAnywhere(fs: seq<Frame>, k: nat, limit: nat)
    requires AllSendable(fs, limit) && k <= |EncodeAll(fs)|
    ensures var m := WholeFrames(fs, k);
            ReceiveAll(EncodeAll(fs)[..k], limit)
            == Received(fs[..m], if k == |EncodeAll(fs[..m])| then AtBoundary else InsideFrame)
  {
    var m := WholeFrames(fs, k);
    var whole := EncodeAll(fs[..m]);
    if m == |fs| {
      assert fs[..m] == fs;
      assert EncodeAll(fs)[..k] == whole;
      StreamRoundTrip(fs[..m], Frame(0, []), 0, limit);
      assert whole + Encode(Frame(0, []))[..0] == whole;
    } else {
      EncodeAllThrough(fs, m);
      EncodeAllSnoc(fs, m);
      CutMiddle(whole, Encode(fs[m]), EncodeAll(fs[m + 1..]), k);
      StreamRoundTrip(fs[..m], fs[m], k - |whole|, limit);
    }
  }

  /** The encoding before, of, and after frame `m`. */
  lemma EncodeAllThrough(fs: seq<Frame>, m: nat)
    requires m < |fs|
    ensures EncodeAll(fs) == EncodeAll(fs[..m]) + Encode(fs[m]) + EncodeAll(fs[m + 1..])
  {
    assert fs == fs[..m + 1] + fs[m + 1..];
    EncodeAllSplit(fs[..m + 1], fs[m + 1..]);
    EncodeAllSnoc(fs, m);
  }

  // ---------------------------------------------------------------- opty_send_frame, opty_recv_frame_limited

  method SendFrame(fd: Socket, f: Frame) returns (rc: int)
    modifies fd`plan, fd`broken, fd`sent
    ensures rc == 0 || rc == -1
    ensures rc == 0 ==> Sendable(f) && fd.sent == old(fd.sent) + Encode(f)
    ensures rc == -1 && !Sendable(f) ==> fd.sent == old(fd.sent) && fd.broken == old(fd.broken)
    ensures rc == -1 && Sendable(f) ==> old(fd.sent) <= fd.sent < old(fd.sent) + Encode(f)
    ensures old(fd.Reliable()) ==> fd.Reliable() && (rc == 0 <==> Sendable(f))
  {
    if |f.payload| > MAX_FRAME - 1 {
      return -1;
    }
    var wireLen := |f.payload| + 1;
    var prefix := [wireLen / 0x100_0000 % 0x100, wireLen / 0x1_0000 % 0x100, wireLen / 0x100 % 0x100, wireLen % 0x100];
    assert prefix == ToBE(wireLen, 4) by {
      FourDigits(wireLen);
    }
    var iov: seq<seq<byte>> := [prefix, [f.kind]];
    if |f.payload| > 0 {
      iov := iov + [f.payload];
    }
    assert Flat(iov) == Encode(f) by {
      FlatFrame(prefix, f.kind, f.payload);
    }
    var n := WritevFull(fd, iov);
    return if n < 0 then -1 else 0;
  }

  lemma FourDigits(v: nat)
    ensures ToBE(v, 4) == [v / 0x100_0000 % 0x100, v / 0x1_0000 % 0x100, v / 0x100 % 0x100, v % 0x100]
  {
    Shifts(v);
    var v1, v2, v3 := v / 256, v / 0x1_0000, v / 0x100_0000;
    assert ToBE(v3, 1) == [v3 % 256];
    assert ToBE(v2, 2) == [v3 % 256, v2 % 256];
    assert ToBE(v1, 3) == [v3 % 256, v2 % 256, v1 % 256];
  }

  lemma FlatFrame(prefix: seq<byte>, kind: byte, payload: seq<byte>)
    ensures Flat([prefix, [kind]]) == prefix + [kind]
    ensures Flat([prefix, [kind], payload]) == prefix + [kind] + payload
    ensures Flat([prefix, [kind]] + [payload]) == prefix + [kind] + payload
  {
    assert Flat([payload]) == payload;
    assert [prefix, [kind], payload][1..] == [[kind], payload];
    assert [[kind], payload][1..] == [payload];
    assert [prefix, [kind]][1..] == [[kind]];
    assert Flat([[kind]]) == [kind];
    assert [prefix, [kind]] + [payload] == [prefix, [kind], payload];
  }

  /** 0 and a frame, 1 at a clean end of the stream, or -1; nothing is delivered unless the result is 0. */
  method RecvFrameLimited(fd: Socket, maxPayloadLen: nat) returns (rc: int, frame: Frame)
    modifies fd`plan, fd`broken, fd`incoming
    ensures rc == 0 || rc == 1 || rc == -1
    ensures rc == 0 ==> Receive(old(fd.incoming), maxPayloadLen) == Got(frame, fd.incoming)
    ensures rc == 1 ==> Receive(old(fd.incoming), maxPayloadLen) == Closed
    ensures rc != 0 ==> frame == Frame(0, [])
    ensures old(fd.Reliable()) ==> fd.Reliable() && (rc == -1 <==> Receive(old(fd.incoming), maxPayloadLen) == Bad)
  {
    frame := Frame(0, []);
    var payloadCap := maxPayloadLen;
    if payloadCap > MAX_FRAME - 1 {
      payloadCap := MAX_FRAME - 1;
    }
    ghost var input := fd.incoming;
    var prefix := new byte[4](i => 0);
    var n := ReadFull(fd, prefix, 4);
    if n == 0 {
      return 1, frame;
    }
    if n < 0 {
      return -1, frame;
    }
    var wireLen := GetU32(prefix[..]);
    assert prefix[..4] == prefix[..];
    assert GetU32(input) == wireLen;
    if wireLen < 1 || wireLen > MAX_FRAME || wireLen - 1 > payloadCap {
      return -1, frame;
    }
    var kind := new byte[1](i => 0);
    n := ReadFull(fd, kind, 1);
    if n != 1 {
      return -1, frame;
    }
    assert kind[..1] == [kind[0]];
    var payload := new byte[wireLen - 1](i => 0);
    if wireLen - 1 > 0 {
      n := ReadFull(fd, payload, wireLen - 1);
      if n != wireLen - 1 {
        return -1, frame;
      }
    }
    assert payload[..wireLen - 1] == payload[..];
    assert input == prefix[..] + [kind[0]] + payload[..] + fd.incoming;
    frame := Frame(kind[0], payload[..]);
    return 0, frame;
  }

  // ---------------------------------------------------------------- Both ends

  /** Frames sent one after the other until one fails. */
  method SendAll(fd: Socket, fs: seq<Frame>) returns (rc: int)
    requires AllSendable(fs, MAX_FRAME - 1)
    modifies fd`plan, fd`broken, fd`sent
    ensures rc == 0 || rc == -1
    ensures rc == 0 ==> fd.sent == old(fd.sent) + EncodeAll(fs)
    ensures rc == -1 ==> old(fd.sent) <= fd.sent < old(fd.sent) + EncodeAll(fs)
    ensures old(fd.Reliable()) ==> fd.Reliable() && rc == 0
  {
    hide Encode, EncodeAll;
    ghost var before := fd.sent;
    assert before + EncodeAll(fs[..0]) == before by { EncodeNothing(fs); }
    for i := 0 to |fs|
      invariant fd.sent == before + EncodeAll(fs[..i])
      invariant old(fd.Reliable()) ==> fd.Reliable()
    {
      EncodeAllSnoc(fs, i);
      EncodeAllThrough(fs, i);
      Assoc(before, EncodeAll(fs[..i]), Encode(fs[i]));
      ghost var sofar := fd.sent;
      rc := SendFrame(fd, fs[i]);
      if rc < 0 {
        PrefixThrough(before, EncodeAll(fs[..i]), Encode(fs[i]), EncodeAll(fs[i + 1..]), fd.sent);
        return -1;
      }
    }
    assert fs[..|fs|] == fs;
    return 0;
  }

  lemma EncodeNothing(fs: seq<Frame>)
    ensures EncodeAll(fs[..0]) == []
  {
  }

  lemma PrefixThrough(a: seq<byte>, b: seq<byte>, c: seq<byte>, d: seq<byte>, s: seq<byte>)
    requires a + b <= s < a + b + c
    ensures a <= s < a + (b + c + d)
  {
    assert (a + (b + c + d))[..|s|] == (a + b + c)[..|s|];
  }

  /** Frames received one after the other until the stream ends (1) or a receive fails (-1). */
  method ReceiveFrames(fd: Socket, limit: nat) returns (frames: seq<Frame>, rc: int)
    modifies fd`plan, fd`broken, fd`incoming
    ensures rc == 1 || rc == -1
    ensures frames <= ReceiveAll(old(fd.incoming), limit).frames
    ensures rc == 1 ==> ReceiveAll(old(fd.incoming), limit) == Received(frames, AtBoundary)
    ensures old(fd.Reliable()) ==>
              fd.Reliable()
              && ReceiveAll(old(fd.incoming), limit) == Received(frames, if rc == 1 then AtBoundary else InsideFrame)
  {
    frames := [];
    ghost var all := ReceiveAll(fd.incoming, limit);
    while true
      invariant Continued(frames, ReceiveAll(fd.incoming, limit)) == all
      invariant old(fd.Reliable()) ==> fd.Reliable()
      decreases |fd.incoming|
    {
      ghost var input := fd.incoming;
      var frame;
      rc, frame := RecvFrameLimited(fd, limit);
      if rc != 0 {
        return;
      }
      ContinuedNext(frames, input, frame, fd.incoming, limit);
      frames := frames + [frame];
    }
  }

  /** What was received before, and the rest of the stream. */
  ghost function Continued(frames: seq<Frame>, r: Received): Received {
    r.(frames := frames + r.frames)
  }

  lemma ContinuedNext(frames: seq<Frame>, input: seq<byte>, f: Frame, rest: seq<byte>, limit: nat)
    requires Receive(input, limit) == Got(f, rest)
    ensures |rest| < |input|
    ensures Continued(frames, ReceiveAll(input, limit)) == Continued(frames + [f], ReceiveAll(rest, limit))
  {
    var more := ReceiveAll(rest, limit).frames;
    assert frames + ([f] + more) == frames + [f] + more;
  }

  /** A list of frames from one end to the other, of which `cut` bytes arrive. Whatever the short counts,
      interruptions and failures at both ends, the receiver has an initial part of the list; without failures
      it has exactly the frames that arrived whole, and tells a clean end from a cut inside a frame. */
  method Deliver(fs: seq<Frame>, sendPlan: seq<IoStep>, cut: nat, receivePlan: seq<IoStep>)
    returns (frames: seq<Frame>, rc: int)
    requires AllSendable(fs, MAX_FRAME - 1)
    ensures rc == 1 || rc == -1
    ensures frames <= fs
    ensures Clean(sendPlan) && Clean(receivePlan) ==>
              var arrived := Min(cut, |EncodeAll(fs)|);
              var m := WholeFrames(fs, arrived);
              frames == fs[..m] && (rc == 1 <==> arrived == |EncodeAll(fs[..m])|)
    ensures Clean(sendPlan) && Clean(receivePlan) && cut >= |EncodeAll(fs)| ==> frames == fs && rc == 1
  {
    var sender := new Socket(sendPlan, []);
    var sent := SendAll(sender, fs);
    var arrived := sender.sent[..Min(cut, |sender.sent|)];
    var receiver := new Socket(receivePlan, arrived);
    frames, rc := ReceiveFrames(receiver, MAX_FRAME - 1);
    hide Encode, EncodeAll, ReceiveAll;
    assert [] + EncodeAll(fs) == EncodeAll(fs);
    assert arrived == EncodeAll(fs)[..|arrived|];
    CutAnywhere(fs, |arrived|, MAX_FRAME - 1);
    if cut >= |EncodeAll(fs)| {
      assert fs[..|fs|] == fs;
    }
  }
}
