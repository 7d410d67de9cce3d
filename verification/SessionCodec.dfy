/** The escapes of session files: one escaper, a lenient decoder for argv, and a strict one for
    graceful_input (src/client.c:680-798, 1460-1506). Strings are C strings: no character is NUL. */
module SessionCodec {

  predicate IsCString(s: string) {
    '\0' !in s
  }

  predicate OneLine(s: string) {
    forall i :: 0 <= i < |s| ==> s[i] != '\n' && s[i] != '\r' && s[i] != '\t'
  }

  // ---------------------------------------------------------------- What the three loops compute

  /** The letter after the backslash, for the four characters that are escaped. */
  function Letter(c: char): char {
    match c
    case '\n' => 'n'
    case '\r' => 'r'
    case '\t' => 't'
    case _ => c
  }

  predicate Escaped(c: char) {
    c == '\n' || c == '\r' || c == '\t' || c == '\\'
  }

  /** The letters a decoder knows after a backslash. */
  predicate Known(c: char) {
    c == 'n' || c == 'r' || c == 't' || c == '\\'
  }

  function Meaning(c: char): char {
    match c
    case 'n' => '\n'
    case 'r' => '\r'
    case 't' => '\t'
    case _ => c
  }

  function EscapeChar(c: char): string {
    if Escaped(c) then ['\\', Letter(c)] else [c]
  }

  function Escape(s: string): string {
    if s == [] then [] else EscapeChar(s[0]) + Escape(s[1..])
  }

  /** Unknown escapes and a final backslash stand for themselves. */
  function Decode(s: string): string {
    if s == [] then []
    else if s[0] == '\\' && |s| > 1 then
      if Known(s[1]) then [Meaning(s[1])] + Decode(s[2..]) else ['\\', s[1]] + Decode(s[2..])
    else [s[0]] + Decode(s[1..])
  }

  /** EINVAL and EMSGSIZE are the two errors of the strict decoder. */
  datatype Strict = Decoded(value: string) | BadEscape | TooLong

  /** The strict decoder, with room for `room` more characters. */
  function DecodeStrict(s: string, room: nat): Strict {
    if s == [] then Decoded([])
    else if s[0] == '\\' && (|s| == 1 || !Known(s[1])) then BadEscape
    else if room == 0 then TooLong
    else
      var c := if s[0] == '\\' then Meaning(s[1]) else s[0];
      match DecodeStrict(if s[0] == '\\' then s[2..] else s[1..], room - 1)
      case Decoded(rest) => Decoded([c] + rest)
      case other => other
  }

  /** Every backslash starts a known escape. */
  predicate WellEscaped(s: string) {
    s == [] || if s[0] == '\\' then |s| > 1 && Known(s[1]) && WellEscaped(s[2..]) else WellEscaped(s[1..])
  }

  // ---------------------------------------------------------------- Round trips

  /** Escaping is undone by the lenient decoder, produces no line break or tab, and at most doubles. */
  lemma {:induction false} DecodeInvertsEscape(s: string)
    ensures Decode(Escape(s)) == s && WellEscaped(Escape(s))
    ensures |s| <= |Escape(s)| <= 2 * |s|
    ensures OneLine(Escape(s))
    ensures IsCString(s) ==> IsCString(Escape(s))
  {
    if s != [] {
      DecodeInvertsEscape(s[1..]);
      var e := Escape(s);
      if Escaped(s[0]) {
        assert e[2..] == Escape(s[1..]);
      } else {
        assert e[1..] == Escape(s[1..]);
      }
    }
  }

  /** Which characters are escaped, and how; all others stand for themselves, wherever they are. */
  lemma EscapesAre(s: string, c: char, t: string)
    ensures Escape(s + [c] + t)
            == Escape(s) + (if c == '\n' then "\\n" else if c == '\r' then "\\r" else if c == '\t' then "\\t"
                            else if c == '\\' then "\\\\" else [c]) + Escape(t)
  {
    EscapeOne(c);
    EscapeSplit(s + [c], t);
    EscapeSplit(s, [c]);
    hide Escape;
  }

  lemma EscapeOne(c: char)
    ensures Escape([c]) == if c == '\n' then "\\n" else if c == '\r' then "\\r" else if c == '\t' then "\\t"
                           else if c == '\\' then "\\\\" else [c]
  {
    assert Escape([c]) == EscapeChar(c) + Escape([]);
  }

  lemma {:induction false} EscapeSplit(s: string, t: string)
    ensures Escape(s + t) == Escape(s) + Escape(t)
  {
    if s == [] {
      assert s + t == t;
    } else {
      EscapeSplit(s[1..], t);
      assert (s + t)[1..] == s[1..] + t && (s + t)[0] == s[0];
    }
  }

  /** The default graceful_input is the line `/exit`. */
  lemma GracefulInputIsExit(room: nat)
    ensures DecodeStrict("/exit\\n", room) == if room >= 6 then Decoded("/exit\n") else TooLong
  {
    StrictInvertsEscape("/exit\n", room);
    assert Escape("/exit\n") == "/exit\\n";
  }

  /** No two strings have the same escaped form. */
  lemma EscapeIsInjective(s: string, t: string)
    requires Escape(s) == Escape(t)
    ensures s == t
  {
    DecodeInvertsEscape(s);
    DecodeInvertsEscape(t);
  }

  /** The escaped forms are exactly the well-escaped strings without raw line breaks and tabs. */
  lemma {:induction false} EscapeReachesAllForms(s: string)
    requires WellEscaped(s) && OneLine(s)
    ensures Escape(Decode(s)) == s
    decreases |s|
  {
    if s != [] {
      if s[0] == '\\' {
        EscapeReachesAllForms(s[2..]);
        assert Decode(s)[1..] == Decode(s[2..]);
        assert s == [s[0], s[1]] + s[2..];
      } else {
        EscapeReachesAllForms(s[1..]);
        assert Decode(s)[1..] == Decode(s[1..]);
        assert s == [s[0]] + s[1..];
      }
    }
  }

  /** The strict decoder accepts exactly the well-escaped strings whose decoded form fits, and then gives what
      the lenient one gives. */
  lemma {:induction false} TwoDecodersAgree(s: string, room: nat)
    ensures DecodeStrict(s, room).Decoded? <==> WellEscaped(s) && |Decode(s)| <= room
    ensures DecodeStrict(s, room).Decoded? ==> DecodeStrict(s, room).value == Decode(s)
    ensures DecodeStrict(s, room).TooLong? ==> |Decode(s)| > room
    ensures DecodeStrict(s, room).BadEscape? ==> !WellEscaped(s)
    decreases |s|
  {
    if s != [] && room > 0 {
      if s[0] != '\\' {
        TwoDecodersAgree(s[1..], room - 1);
      } else if |s| > 1 {
        TwoDecodersAgree(s[2..], room - 1);
      }
    }
  }

  /** So both decoders invert the escaper, the strict one when there is room. */
  lemma StrictInvertsEscape(s: string, room: nat)
    ensures DecodeStrict(Escape(s), room) == if |s| <= room then Decoded(s) else TooLong
  {
    DecodeInvertsEscape(s);
    TwoDecodersAgree(Escape(s), room);
  }

  // ---------------------------------------------------------------- The loops

  lemma EscapeStep(value: string, i: nat)
    requires i < |value|
    ensures Escape(value[i..]) == EscapeChar(value[i]) + Escape(value[i + 1..])
  {
    assert value[i..][1..] == value[i + 1..];
  }

  lemma Regroup(a: string, b: string, c: string)
    ensures a + b + c == a + (b + c)
  {
  }

  /** opty_escape_session_value: a NUL-terminated buffer of 2n + 1 characters. */
  method EscapeValue(value: string) returns (escaped: array<char>, out: nat)
    ensures fresh(escaped) && escaped.Length == 2 * |value| + 1 && out < escaped.Length
    ensures escaped[..out] == Escape(value) && escaped[out] == '\0'
  {
    assert Escape([]) == [];
    hide Escape;
    escaped := new char[2 * |value| + 1];
    out := 0;
    var i := 0;
    while i < |value|
      invariant i <= |value| && out <= 2 * i
      invariant escaped[..out] + Escape(value[i..]) == Escape(value)
    {
      EscapeStep(value, i);
      ghost var before := escaped[..out];
      Regroup(before, EscapeChar(value[i]), Escape(value[i + 1..]));
      if Escaped(value[i]) {
        escaped[out] := '\\';
        escaped[out + 1] := Letter(value[i]);
        out := out + 2;
      } else {
        escaped[out] := value[i];
        out := out + 1;
      }
      assert escaped[..out] == before + EscapeChar(value[i]);
      i := i + 1;
    }
    assert value[i..] == [];
    escaped[out] := '\0';
  }

  /** What the decoder makes of the next one or two characters. */
  function Piece(value: string, i: nat): (string, nat)
    requires i < |value|
  {
    if value[i] == '\\' && i + 1 < |value| then
      (if Known(value[i + 1]) then [Meaning(value[i + 1])] else ['\\', value[i + 1]], i + 2)
    else ([value[i]], i + 1)
  }

  lemma DecodeStep(value: string, i: nat)
    requires i < |value|
    ensures Decode(value[i..]) == Piece(value, i).0 + Decode(value[Piece(value, i).1..])
  {
    assert value[i..][1..] == value[i + 1..];
    if i + 1 < |value| {
      assert value[i..][2..] == value[i + 2..];
    }
  }

  /** opty_decode_session_value: the decoded form is never longer than the value. */
  method DecodeValue(value: string) returns (decoded: array<char>, out: nat)
    ensures fresh(decoded) && decoded.Length == |value| + 1 && out < decoded.Length
    ensures decoded[..out] == Decode(value) && decoded[out] == '\0'
  {
    assert Decode([]) == [];
    hide Decode;
    decoded := new char[|value| + 1];
    out := 0;
    var i := 0;
    while i < |value|
      invariant out <= i <= |value|
      invariant decoded[..out] + Decode(value[i..]) == Decode(value)
      decreases |value| - i
    {
      DecodeStep(value, i);
      ghost var before, piece := decoded[..out], Piece(value, i);
      Regroup(before, piece.0, Decode(value[piece.1..]));
      var ch := value[i];
      if ch == '\\' && i + 1 < |value| {
        i := i + 1;
        if Known(value[i]) {
          ch := Meaning(value[i]);
        } else {
          decoded[out] := '\\';
          out := out + 1;
          ch := value[i];
        }
      }
      decoded[out] := ch;
      out := out + 1;
      i := i + 1;
      assert decoded[..out] == before + piece.0 && i == piece.1;
    }
    assert value[i..] == [];
    decoded[out] := '\0';
  }

  /** What the strict decoder gives for the rest of the value, after `done`. */
  function After(done: string, s: string, room: nat): Strict {
    match DecodeStrict(s, room)
    case Decoded(rest) => Decoded(done + rest)
    case other => other
  }

  lemma AfterStep(done: string, value: string, i: nat, room: nat)
    requires i < |value|
    ensures value[i] == '\\' && (i + 1 == |value| || !Known(value[i + 1])) ==> After(done, value[i..], room).BadEscape?
    ensures !(value[i] == '\\' && (i + 1 == |value| || !Known(value[i + 1]))) ==>
              After(done, value[i..], room)
              == if room == 0 then TooLong
                 else if value[i] == '\\' then After(done + [Meaning(value[i + 1])], value[i + 2..], room - 1)
                 else After(done + [value[i]], value[i + 1..], room - 1)
  {
    assert value[i..][1..] == value[i + 1..];
    if i + 1 < |value| {
      assert value[i..][2..] == value[i + 2..];
    }
    if room > 0 {
      var next := if value[i] == '\\' && i + 1 < |value| then value[i + 2..] else value[i + 1..];
      var c := if value[i] == '\\' && i + 1 < |value| then Meaning(value[i + 1]) else value[i];
      match DecodeStrict(next, room - 1)
      case Decoded(rest) => assert done + ([c] + rest) == done + [c] + rest;
      case _ =>
    }
  }

  /** opty_decode_graceful_input into a buffer of any capacity. */
  method DecodeGracefulInput(value: string, out: array<char>) returns (r: Strict, len: nat)
    modifies out
    ensures r == DecodeStrict(value, out.Length)
    ensures r.Decoded? ==> len <= out.Length && out[..len] == Decode(value)
  {
    len := 0;
    var p := 0;
    assert value[0..] == value;
    while p < |value|
      invariant p <= |value| && len <= out.Length
      invariant After(out[..len], value[p..], out.Length - len) == DecodeStrict(value, out.Length)
      decreases |value| - p
    {
      AfterStep(out[..len], value, p, out.Length - len);
      var ch := value[p];
      if ch == '\\' {
        if p + 1 == |value| {
          return BadEscape, len;
        }
        p := p + 1;
        if !Known(value[p]) {
          return BadEscape, len;
        }
        ch := Meaning(value[p]);
      }
      if len == out.Length {
        return TooLong, len;
      }
      ghost var before := out[..len];
      out[len] := ch;
      len := len + 1;
      assert out[..len] == before + [ch];
      p := p + 1;
    }
    assert value[p..] == [];
    TwoDecodersAgree(value, out.Length);
    r := Decoded(out[..len]);
    assert out[..len] + [] == out[..len];
  }
}
