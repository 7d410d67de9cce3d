/** Session files: the writer, the line reader, and what survives the trip (src/client.c:464-502, 639-646,
    870-973, 1190-1378). A file is its text; creating, syncing and renaming it are not part of this model. */
module SessionRecord {
  import opened Bytes
  import opened Messages
  import opened SessionCodec

  const SESSION_MAX_NAME: nat := 96
  const SESSION_MAX_ARGC: nat := 128
  const HOST_SIZE: nat := 128
  const PORT_SIZE: nat := 16
  const LOG_SIZE: nat := 512
  const CWD_SIZE: nat := 1024
  const RESTART_POLICY_SIZE: nat := 64
  const COMMAND_SIZE: nat := 1024
  const ULONG_LIMIT: nat := 0x1_0000_0000_0000_0000
  const DEFAULT_HOST := "127.0.0.1"
  const GRACEFUL_INPUT := "/exit\\n"

  // ---------------------------------------------------------------- Numbers

  function DigitChar(d: nat): (c: char)
    requires d < 10
    ensures '0' <= c <= '9'
  {
    '0' + d as char
  }

  predicate IsDecimal(s: string) {
    s != [] && forall i :: 0 <= i < |s| ==> '0' <= s[i] <= '9'
  }

  function Digits(n: nat): (s: string)
    ensures IsDecimal(s)
  {
    if n < 10 then [DigitChar(n)] else Digits(n / 10) + [DigitChar(n % 10)]
  }

  function ValueOf(s: string): nat
    requires s == [] || IsDecimal(s)
  {
    if s == [] then 0 else 10 * ValueOf(s[..|s| - 1]) + (s[|s| - 1] as nat - '0' as nat)
  }

  lemma {:induction false} ValueOfDigits(n: nat)
    ensures ValueOf(Digits(n)) == n
  {
    if n >= 10 {
      ValueOfDigits(n / 10);
      assert Digits(n)[..|Digits(n)| - 1] == Digits(n / 10);
    } else {
      assert Digits(n)[..0] == [];
    }
  }

  predicate IsSpace(c: char) {
    c == ' ' || '\t' <= c <= '\r'
  }

  function SkipSpace(s: string): string {
    if s != [] && IsSpace(s[0]) then SkipSpace(s[1..]) else s
  }

  /** strtoul in base 10 on the whole of `s`, with the checks that follow it: a minus sign negates modulo 2^64. */
  function ParseUlong(s: string): Option<nat> {
    var t := SkipSpace(s);
    var signed := t != [] && (t[0] == '-' || t[0] == '+');
    var d := if signed then t[1..] else t;
    if !IsDecimal(d) || ValueOf(d) >= ULONG_LIMIT then None
    else Some(if signed && t[0] == '-' && ValueOf(d) > 0 then ULONG_LIMIT - ValueOf(d) else ValueOf(d))
  }

  lemma ParseInvertsDigits(n: nat)
    requires n < ULONG_LIMIT
    ensures ParseUlong(Digits(n)) == Some(n)
  {
    ValueOfDigits(n);
    assert '0' <= Digits(n)[0] <= '9';
  }

  /** White space and a plus sign before the digits do not matter; a minus sign negates modulo 2^64. */
  lemma ParseForms(spaces: string, n: nat)
    requires n < 0x1_0000_0000_0000_0000 && forall i :: 0 <= i < |spaces| ==> IsSpace(spaces[i])
    ensures ParseUlong(spaces + Digits(n)) == Some(n)
    ensures ParseUlong(spaces + ("+" + Digits(n))) == Some(n)
    ensures ParseUlong(spaces + ("-" + Digits(n))) == Some(if n == 0 then 0 else 0x1_0000_0000_0000_0000 - n)
  {
    var d := Digits(n);
    assert '0' <= d[0] <= '9';
    ParseInvertsDigits(n);
    ParseSigned(n);
    ParseSkips(spaces, d);
    ParseSkips(spaces, "+" + d);
    ParseSkips(spaces, "-" + d);
    hide ParseUlong, Digits;
  }

  lemma ParseSigned(n: nat)
    requires n < ULONG_LIMIT
    ensures ParseUlong("+" + Digits(n)) == Some(n)
    ensures ParseUlong("-" + Digits(n)) == Some(if n == 0 then 0 else ULONG_LIMIT - n)
  {
    var d := Digits(n);
    ValueOfDigits(n);
    hide Digits, ValueOf;
    assert ("+" + d)[1..] == d && ("-" + d)[1..] == d;
  }

  lemma ParseSkips(spaces: string, t: string)
    requires (forall i :: 0 <= i < |spaces| ==> IsSpace(spaces[i])) && t != [] && !IsSpace(t[0])
    ensures ParseUlong(spaces + t) == ParseUlong(t)
  {
    SkipsAll(spaces, t);
    SkipsAll([], t);
    hide SkipSpace, IsDecimal, ValueOf;
    assert [] + t == t;
  }

  lemma {:induction false} SkipsAll(spaces: string, s: string)
    requires (forall i :: 0 <= i < |spaces| ==> IsSpace(spaces[i])) && s != [] && !IsSpace(s[0])
    ensures SkipSpace(spaces + s) == s
  {
    if spaces == [] {
      assert spaces + s == s;
    } else {
      SkipsAll(spaces[1..], s);
      assert (spaces + s)[1..] == spaces[1..] + s;
    }
  }

  // ---------------------------------------------------------------- Writing

  /** What a session is started with. */
  datatype Session = Session(name: string, host: string, port: string, log: string, controlToken: string,
                             cwd: string, command: seq<string>)

  predicate CStrings(x: Session) {
    && IsCString(x.name) && IsCString(x.host) && IsCString(x.port) && IsCString(x.log) && IsCString(x.controlToken)
    && IsCString(x.cwd) && forall i :: 0 <= i < |x.command| ==> IsCString(x.command[i])
  }

  predicate NameChar(c: char) {
    'A' <= c <= 'Z' || 'a' <= c <= 'z' || '0' <= c <= '9' || c == '_' || c == '-' || c == '.'
  }

  /** opty_is_session_name */
  predicate IsSessionName(s: string) {
    && s != [] && s[0] != '-' && |s| <= SESSION_MAX_NAME && s != "." && s != ".."
    && forall i :: 0 <= i < |s| ==> NameChar(s[i])
  }

  datatype Field = Field(key: string, value: string)

  function Line(f: Field): string {
    f.key + "=" + f.value + "\n"
  }

  function Render(fs: seq<Field>): string {
    if fs == [] then [] else Line(fs[0]) + Render(fs[1..])
  }

  function ArgvField(command: seq<string>, i: nat): Field
    requires i < |command|
  {
    Field("argv" + Digits(i), Escape(command[i]))
  }

  function ArgvFields(command: seq<string>, n: nat): (fs: seq<Field>)
    requires n <= |command|
    ensures |fs| == n && forall i :: 0 <= i < n ==> fs[i] == ArgvField(command, i)
  {
    if n == 0 then [] else ArgvFields(command, n - 1) + [ArgvField(command, n - 1)]
  }

  function StartFields(x: Session): seq<Field> {
    [Field("name", x.name), Field("host", x.host), Field("port", x.port), Field("log", x.log)]
  }

  function RestFields(x: Session): seq<Field> {
    [Field("restart_policy", "manual"), Field("control_token", x.controlToken),
     Field("graceful_input", GRACEFUL_INPUT), Field("argc", Digits(|x.command|)), Field("argv_encoding", "escape")]
  }

  /** The fields before argv0, in the order they are printed. */
  function HeadFields(x: Session): seq<Field> {
    StartFields(x) + RestFields(x)
  }

  function Fields(x: Session): seq<Field> {
    HeadFields(x) + ArgvFields(x.command, |x.command|) + if x.cwd != "" then [Field("cwd", x.cwd)] else []
  }

  datatype Writing = File(text: string) | BadName | BadToken | TooManyArguments

  /** opty_write_session */
  function WriteSession(x: Session): Writing {
    if !IsSessionName(x.name) then BadName
    else if x.controlToken == "" || |x.controlToken| > MAX_TOKEN then BadToken
    else if |x.command| > SESSION_MAX_ARGC then TooManyArguments
    else File(Render(Fields(x)))
  }

  /** Who can be written down: a session name of at most 96 letters, digits, underscores, dots and hyphens that
      does not begin with a hyphen, a token of 1 to 255 characters, and at most 128 arguments. */
  lemma WritesExactly(x: Session)
    ensures WriteSession(x).File? <==>
              && 0 < |x.name| <= 96 && x.name[0] != '-' && x.name != "." && x.name != ".."
              && (forall i :: 0 <= i < |x.name| ==>
                    'A' <= x.name[i] <= 'Z' || 'a' <= x.name[i] <= 'z' || '0' <= x.name[i] <= '9' || x.name[i] in "_-.")
              && 0 < |x.controlToken| <= 255 && |x.command| <= 128
  {
    assert "_-."[0] == '_' && "_-."[1] == '-' && "_-."[2] == '.';
    forall i | 0 <= i < |x.name|
      ensures NameChar(x.name[i]) <==> 'A' <= x.name[i] <= 'Z' || 'a' <= x.name[i] <= 'z' || '0' <= x.name[i] <= '9'
                                       || x.name[i] in "_-."
    {
    }
  }

  lemma {:induction false} RenderSplit(a: seq<Field>, b: seq<Field>)
    ensures Render(a + b) == Render(a) + Render(b)
  {
    if a == [] {
      assert a + b == b;
    } else {
      RenderSplit(a[1..], b);
      assert (a + b)[1..] == a[1..] + b && (a + b)[0] == a[0];
    }
  }

  lemma RenderOne(f: Field)
    ensures Render([f]) == Line(f)
  {
  }

  /** The prints of opty_write_session, one after the other. */
  method WriteFile(x: Session) returns (r: Writing)
    ensures r == WriteSession(x)
  {
    if !IsSessionName(x.name) {
      return BadName;
    }
    if x.controlToken == "" || |x.controlToken| > MAX_TOKEN {
      return BadToken;
    }
    var argc := 0;
    while argc < |x.command|
      invariant argc <= |x.command| && argc <= SESSION_MAX_ARGC
    {
      if argc >= SESSION_MAX_ARGC {
        return TooManyArguments;
      }
      argc := argc + 1;
    }
    var text := Render(HeadFields(x));
    assert HeadFields(x) + [] == HeadFields(x);
    for i := 0 to argc
      invariant text == Render(HeadFields(x) + ArgvFields(x.command, i))
    {
      var f := ArgvField(x.command, i);
      text := text + Line(f);
      RenderOne(f);
      RenderSplit(HeadFields(x) + ArgvFields(x.command, i), [f]);
      assert HeadFields(x) + ArgvFields(x.command, i + 1) == HeadFields(x) + ArgvFields(x.command, i) + [f];
    }
    ghost var fs := HeadFields(x) + ArgvFields(x.command, argc);
    if x.cwd != "" {
      RenderOne(Field("cwd", x.cwd));
      RenderSplit(fs, [Field("cwd", x.cwd)]);
      text := text + Line(Field("cwd", x.cwd));
    } else {
      assert fs + [] == fs;
    }
    return File(text);
  }

  // ---------------------------------------------------------------- Lines

  /** The length of the first line, its newline included. */
  function FirstLine(text: string): (n: nat)
    ensures n <= |text| && (text != [] ==> n > 0)
    ensures forall i :: 0 <= i < n - 1 ==> text[i] != '\n'
  {
    if text == [] then 0 else if text[0] == '\n' then 1 else 1 + FirstLine(text[1..])
  }

  /** What getline returns, call by call. */
  function GetLines(text: string): (lines: seq<string>)
    ensures forall j, i :: 0 <= j < |lines| && 0 <= i < |lines[j]| - 1 ==> lines[j][i] != '\n'
    decreases |text|
  {
    if text == [] then []
    else
      var n := FirstLine(text);
      [text[..n]] + GetLines(text[n..])
  }

  /** The line as a C string. */
  function UpToNul(line: string): (s: string)
    ensures s <= line
  {
    if line == [] || line[0] == '\0' then [] else [line[0]] + UpToNul(line[1..])
  }

  /** opty_chomp */
  function Chomp(line: string): (s: string)
    ensures s <= line
  {
    if line != [] && (line[|line| - 1] == '\n' || line[|line| - 1] == '\r') then Chomp(line[..|line| - 1]) else line
  }

  method ChompLine(line: string) returns (s: string)
    ensures s == Chomp(line)
  {
    var len := |line|;
    assert line[..len] == line;
    while len > 0 && (line[len - 1] == '\n' || line[len - 1] == '\r')
      invariant len <= |line| && Chomp(line[..len]) == Chomp(line)
    {
      len := len - 1;
      assert line[..len + 1][..len] == line[..len];
    }
    return line[..len];
  }

  /** Where the first '=' is. */
  function EqualsAt(line: string): (r: Option<nat>)
    ensures r.Some? ==> r.value < |line| && line[r.value] == '='
  {
    if line == [] then None
    else if line[0] == '=' then Some(0)
    else
      match EqualsAt(line[1..])
      case None => None
      case Some(i) => Some(i + 1)
  }

  /** Key and value of a line, if it has an '='. */
  function FieldOf(line: string): Option<Field> {
    var s := Chomp(UpToNul(line));
    match EqualsAt(s)
    case None => None
    case Some(i) => Some(Field(s[..i], s[i + 1..]))
  }

  // ---------------------------------------------------------------- Reading

  /** struct opty_session_info, and the reader's argv_escaped flag. */
  datatype Info = Info(name: string, host: string, port: string, log: string, cwd: string, restartPolicy: string,
                       controlToken: string, gracefulInput: string, command: string, argc: nat,
                       argv: map<nat, string>, escaped: bool)

  function InitialInfo(name: string): Info {
    Info(name, DEFAULT_HOST, "", "", "", "manual", "", GRACEFUL_INPUT, "", 0, map[], false)
  }

  datatype ArgvKey = NotArgv | BadIndex | Index(i: nat)

  /** opty_parse_argv_key */
  function ParseArgvKey(key: string): ArgvKey {
    if |key| < 4 || key[..4] != "argv" || !IsDecimal(key[4..]) then NotArgv
    else
      match ParseUlong(key[4..])
      case None => BadIndex
      case Some(i) => if i >= SESSION_MAX_ARGC then BadIndex else Index(i)
  }

  /** What a key selects. */
  datatype Key =
    | KName | KHost | KPort | KLog | KCwd | KRestartPolicy | KControlToken | KGracefulInput | KCommand | KArgvEncoding
    | KArgc | KArgv(i: nat) | KBadArgv | KOther

  function KeyOf(key: string): Key {
    if key == "name" then KName
    else if key == "host" then KHost
    else if key == "port" then KPort
    else if key == "log" then KLog
    else if key == "cwd" then KCwd
    else if key == "restart_policy" then KRestartPolicy
    else if key == "control_token" then KControlToken
    else if key == "graceful_input" then KGracefulInput
    else if key == "command" then KCommand
    else if key == "argv_encoding" then KArgvEncoding
    else if key == "argc" then KArgc
    else
      match ParseArgvKey(key)
      case NotArgv => KOther
      case BadIndex => KBadArgv
      case Index(i) => KArgv(i)
  }

  /** One field of the file; None is an error. */
  function TakeField(info: Info, f: Field): Option<Info> {
    var v := f.value;
    match KeyOf(f.key)
    case KName => if |v| > SESSION_MAX_NAME then None else Some(info.(name := v))
    case KHost => if |v| >= HOST_SIZE then None else Some(info.(host := v))
    case KPort => if |v| >= PORT_SIZE then None else Some(info.(port := v))
    case KLog => if |v| >= LOG_SIZE then None else Some(info.(log := v))
    case KCwd => if |v| >= CWD_SIZE then None else Some(info.(cwd := v))
    case KRestartPolicy => if |v| >= RESTART_POLICY_SIZE then None else Some(info.(restartPolicy := v))
    case KControlToken => if |v| > MAX_TOKEN then None else Some(info.(controlToken := v))
    case KGracefulInput => if |v| > MAX_GRACEFUL_INPUT then None else Some(info.(gracefulInput := v))
    case KCommand => Some(info.(command := if |v| >= COMMAND_SIZE then v[..COMMAND_SIZE - 1] else v))
    case KArgvEncoding => Some(if v == "escape" then info.(escaped := true) else info)
    case KArgc =>
      (match ParseUlong(v)
       case None => None
       case Some(n) => if n > SESSION_MAX_ARGC then None else Some(info.(argc := n)))
    case KArgv(i) => Some(info.(argv := info.argv[i := if info.escaped then Decode(v) else v]))
    case KBadArgv => None
    case KOther => Some(info)
  }

  function TakeLine(info: Info, line: string): Option<Info> {
    match FieldOf(line)
    case None => Some(info)
    case Some(f) => TakeField(info, f)
  }

  function TakeLines(info: Info, lines: seq<string>): Option<Info> {
    if lines == [] then Some(info)
    else
      match TakeLines(info, lines[..|lines| - 1])
      case None => None
      case Some(i) => TakeLine(i, lines[|lines| - 1])
  }

  predicate Complete(info: Info) {
    info.port != "" && forall i :: 0 <= i < info.argc ==> i in info.argv
  }

  /** opty_read_session_info */
  function ReadSession(name: string, text: string): Option<Info> {
    if !IsSessionName(name) then None
    else
      match TakeLines(InitialInfo(name), GetLines(text))
      case None => None
      case Some(info) => if Complete(info) then Some(info) else None
  }

  /** The checks after the loop. */
  method CheckComplete(info: Info) returns (ok: bool)
    ensures ok == Complete(info)
  {
    var i := 0;
    while i < info.argc
      invariant i <= info.argc && forall j :: 0 <= j < i ==> j in info.argv
    {
      if i !in info.argv {
        return false;
      }
      i := i + 1;
    }
    return info.port != "";
  }

  lemma GetLinesStep(text: string)
    requires text != []
    ensures GetLines(text) == [text[..FirstLine(text)]] + GetLines(text[FirstLine(text)..])
  {
  }

  lemma TakeLineNext(info: Info, done: seq<string>, line: string, rest: seq<string>)
    ensures done + ([line] + rest) == done + [line] + rest
    ensures TakeLines(info, done + [line])
            == match TakeLines(info, done) case None => None case Some(i) => TakeLine(i, line)
  {
    assert (done + [line])[..|done|] == done;
  }

  /** The reader's loop over the file. */
  method ReadFile(name: string, text: string) returns (r: Option<Info>)
    ensures r == ReadSession(name, text)
  {
    if !IsSessionName(name) {
      return None;
    }
    var info := InitialInfo(name);
    var rest := text;
    ghost var done: seq<string> := [];
    assert [] + GetLines(text) == GetLines(text);
    while rest != []
      invariant done + GetLines(rest) == GetLines(text)
      invariant TakeLines(InitialInfo(name), done) == Some(info)
      decreases |rest|
    {
      hide TakeLines, TakeLine, GetLines, FirstLine;
      var n := FirstLine(rest);
      var line := rest[..n];
      GetLinesStep(rest);
      TakeLineNext(InitialInfo(name), done, line, GetLines(rest[n..]));
      done := done + [line];
      rest := rest[n..];
      var next := TakeLine(info, line);
      if next.None? {
        TakeLinesStop(InitialInfo(name), done, GetLines(rest));
        return None;
      }
      info := next.value;
    }
    assert done + [] == done;
    var ok := CheckComplete(info);
    return if ok then Some(info) else None;
  }

  /** After an error no line matters. */
  lemma {:induction false} TakeLinesStop(info: Info, a: seq<string>, b: seq<string>)
    requires TakeLines(info, a).None?
    ensures TakeLines(info, a + b).None?
    decreases |b|
  {
    if b == [] {
      assert a + b == a;
    } else {
      TakeLinesStop(info, a, b[..|b| - 1]);
      assert (a + b)[..|a + b| - 1] == a + b[..|b| - 1];
    }
  }

  // ---------------------------------------------------------------- What a line carries

  /** No line break inside: the value is one line of the file. */
  predicate NoNewline(s: string) {
    forall i :: 0 <= i < |s| ==> s[i] != '\n'
  }

  predicate NoEquals(s: string) {
    forall i :: 0 <= i < |s| ==> s[i] != '='
  }

  /** What chomping leaves of a value: everything up to its trailing carriage returns. */
  function Trim(v: string): (s: string)
    ensures s <= v && (s != [] ==> s[|s| - 1] != '\r')
    ensures s == v <==> v == [] || v[|v| - 1] != '\r'
  {
    if v != [] && v[|v| - 1] == '\r' then Trim(v[..|v| - 1]) else v
  }

  /** A field that the reader gets back, trimmed: key and value are C strings without line breaks. */
  predicate Clean(f: Field) {
    IsCString(f.key) && IsCString(f.value) && NoNewline(f.key) && NoNewline(f.value) && NoEquals(f.key)
  }

  lemma {:induction false} UpToNulWhole(s: string)
    requires IsCString(s)
    ensures UpToNul(s) == s
  {
    if s != [] {
      UpToNulWhole(s[1..]);
    }
  }

  lemma {:induction false} UpToNulStops(s: string, rest: string)
    requires IsCString(s)
    ensures UpToNul(s + ['\0'] + rest) == s
  {
    if s != [] {
      UpToNulStops(s[1..], rest);
      assert (s + ['\0'] + rest)[1..] == s[1..] + ['\0'] + rest;
    }
  }

  /** What follows a NUL in a line does not matter, and neither does a line without an equals sign. */
  lemma LinesThatDoNotMatter(info: Info, line: string, rest: string)
    requires IsCString(line)
    ensures TakeLine(info, line + ['\0'] + rest) == TakeLine(info, line)
    ensures NoEquals(line) ==> TakeLine(info, line) == Some(info)
  {
    UpToNulStops(line, rest);
    UpToNulWhole(line);
    hide TakeField, UpToNul, Chomp;
  }

  lemma {:induction false} ChompTrims(key: string, v: string)
    requires NoNewline(v)
    ensures Chomp(key + "=" + v) == key + "=" + Trim(v)
    decreases |v|
  {
    var s := key + "=" + v;
    if v != [] {
      assert s[|s| - 1] == v[|v| - 1];
      assert s[..|s| - 1] == key + "=" + v[..|v| - 1];
      if v[|v| - 1] == '\r' {
        ChompTrims(key, v[..|v| - 1]);
      }
    } else {
      assert s[|s| - 1] == '=';
    }
  }

  lemma {:induction false} FirstEquals(key: string, v: string)
    requires NoEquals(key)
    ensures EqualsAt(key + "=" + v) == Some(|key|)
  {
    var s := key + "=" + v;
    if key != [] {
      FirstEquals(key[1..], v);
      assert s[1..] == key[1..] + "=" + v;
    }
  }

  lemma FieldOfLine(f: Field)
    requires Clean(f)
    ensures FieldOf(Line(f)) == Some(Field(f.key, Trim(f.value)))
  {
    var line := Line(f);
    UpToNulWhole(line);
    ChompsNewline(f.key + "=" + f.value);
    ChompTrims(f.key, f.value);
    FirstEquals(f.key, Trim(f.value));
    hide UpToNul, Chomp, Trim, EqualsAt;
    var s := f.key + "=" + Trim(f.value);
    assert s[..|f.key|] == f.key && s[|f.key| + 1..] == Trim(f.value);
  }

  lemma ChompsNewline(s: string)
    ensures Chomp(s + "\n") == Chomp(s)
  {
    assert (s + "\n")[..|s|] == s;
  }

  lemma {:induction false} FirstLineIs(line: string, rest: string)
    requires NoNewline(line)
    ensures FirstLine(line + "\n" + rest) == |line| + 1
  {
    var text := line + "\n" + rest;
    if line != [] {
      FirstLineIs(line[1..], rest);
      assert text[1..] == line[1..] + "\n" + rest;
    }
  }

  function Lines(fs: seq<Field>): (lines: seq<string>)
    ensures |lines| == |fs| && forall i :: 0 <= i < |fs| ==> lines[i] == Line(fs[i])
  {
    if fs == [] then [] else [Line(fs[0])] + Lines(fs[1..])
  }

  /** getline gives back the lines that were printed. */
  lemma {:induction false} LinesOfRender(fs: seq<Field>)
    requires forall i :: 0 <= i < |fs| ==> Clean(fs[i])
    ensures GetLines(Render(fs)) == Lines(fs)
  {
    if fs != [] {
      var body, rest := fs[0].key + "=" + fs[0].value, Render(fs[1..]);
      assert Clean(fs[0]);
      FirstLineIs(body, rest);
      assert Render(fs) == body + "\n" + rest;
      assert Render(fs)[..|body| + 1] == Line(fs[0]) && Render(fs)[|body| + 1..] == rest;
      LinesOfRender(fs[1..]);
    }
  }

  /** The reader over fields instead of lines. */
  function TakeFields(info: Info, fs: seq<Field>): Option<Info> {
    if fs == [] then Some(info)
    else
      match TakeFields(info, fs[..|fs| - 1])
      case None => None
      case Some(i) => TakeField(i, Field(fs[|fs| - 1].key, Trim(fs[|fs| - 1].value)))
  }

  lemma {:induction false} LinesAreFields(info: Info, fs: seq<Field>)
    requires forall i :: 0 <= i < |fs| ==> Clean(fs[i])
    ensures TakeLines(info, Lines(fs)) == TakeFields(info, fs)
    decreases |fs|
  {
    if fs != [] {
      var n := |fs| - 1;
      assert Lines(fs)[..n] == Lines(fs[..n]);
      LinesAreFields(info, fs[..n]);
      assert Clean(fs[n]);
      FieldOfLine(fs[n]);
    }
  }

  // ---------------------------------------------------------------- The written fields are clean

  /** The strings of a session that are printed unescaped have no line break. */
  predicate NoNewlines(x: Session) {
    NoNewline(x.host) && NoNewline(x.port) && NoNewline(x.log) && NoNewline(x.controlToken) && NoNewline(x.cwd)
  }

  /** A key that the reader finds again. */
  predicate IsKey(s: string) {
    IsCString(s) && NoNewline(s) && NoEquals(s)
  }

  lemma ArgvKeyClean(i: nat)
    ensures IsKey("argv" + Digits(i))
  {
    var d := Digits(i);
    assert IsDecimal(d);
    assert forall j :: 0 <= j < 4 ==> "argv"[j] != '\0' && "argv"[j] != '\n' && "argv"[j] != '=';
    var key := "argv" + d;
    assert forall j :: 0 <= j < |key| ==> key[j] == if j < 4 then "argv"[j] else d[j - 4];
  }

  lemma ArgvClean(command: seq<string>, i: nat)
    requires i < |command| && IsCString(command[i])
    ensures Clean(ArgvField(command, i)) && Trim(Escape(command[i])) == Escape(command[i])
  {
    hide Escape, Digits, Decode, WellEscaped;
    DecodeInvertsEscape(command[i]);
    ArgvKeyClean(i);
  }

  lemma HeadKeys()
    ensures IsKey("name") && IsKey("host") && IsKey("port") && IsKey("log") && IsKey("argc")
  {
  }

  lemma LongKeys()
    ensures IsKey("restart_policy") && IsKey("control_token")
    ensures IsKey("graceful_input") && IsKey("argv_encoding") && IsKey("cwd")
  {
  }

  lemma FixedValues()
    ensures IsCString("manual") && NoNewline("manual") && Trim("manual") == "manual"
    ensures IsCString("escape") && NoNewline("escape") && Trim("escape") == "escape"
    ensures IsCString(GRACEFUL_INPUT) && NoNewline(GRACEFUL_INPUT) && Trim(GRACEFUL_INPUT) == GRACEFUL_INPUT
  {
  }

  lemma NamesAndNumbers(name: string, n: nat)
    requires IsSessionName(name)
    ensures IsCString(name) && NoNewline(name) && Trim(name) == name
    ensures IsCString(Digits(n)) && NoNewline(Digits(n)) && Trim(Digits(n)) == Digits(n)
  {
    assert forall i :: 0 <= i < |name| ==> NameChar(name[i]);
    assert IsDecimal(Digits(n));
  }

  lemma HeadClean(x: Session)
    requires CStrings(x) && NoNewlines(x) && IsSessionName(x.name)
    ensures forall i :: 0 <= i < |HeadFields(x)| ==> Clean(HeadFields(x)[i])
  {
    HeadKeys();
    LongKeys();
    FixedValues();
    NamesAndNumbers(x.name, |x.command|);
    hide IsCString, NoNewline, NoEquals, IsSessionName, Digits;
  }

  lemma AllClean(x: Session)
    requires CStrings(x) && NoNewlines(x) && IsSessionName(x.name)
    ensures forall i :: 0 <= i < |Fields(x)| ==> Clean(Fields(x)[i])
  {
    HeadClean(x);
    forall i | 0 <= i < |x.command|
      ensures Clean(ArgvFields(x.command, |x.command|)[i])
    {
      ArgvClean(x.command, i);
    }
    LongKeys();
  }

  // ---------------------------------------------------------------- Reading what was written

  /** The sizes of the reader's buffers, after trimming. */
  predicate Fits(x: Session) {
    && |Trim(x.host)| < HOST_SIZE && |Trim(x.port)| < PORT_SIZE && |Trim(x.log)| < LOG_SIZE
    && |Trim(x.cwd)| < CWD_SIZE && Trim(x.port) != ""
  }

  function Arguments(command: seq<string>, n: nat): map<nat, string>
    requires n <= |command|
  {
    map i: nat | i < n :: command[i]
  }

  /** The record of a session as the reader hands it out. */
  function InfoOf(x: Session): Info {
    Info(x.name, x.host, x.port, x.log, x.cwd, "manual", x.controlToken, GRACEFUL_INPUT, "", |x.command|,
         Arguments(x.command, |x.command|), true)
  }

  function Trimmed(x: Session): Session {
    x.(host := Trim(x.host), port := Trim(x.port), log := Trim(x.log), controlToken := Trim(x.controlToken),
       cwd := Trim(x.cwd))
  }

  lemma TakeMore(info: Info, fs: seq<Field>, f: Field)
    ensures TakeFields(info, fs + [f])
            == match TakeFields(info, fs) case None => None case Some(i) => TakeField(i, Field(f.key, Trim(f.value)))
  {
    assert (fs + [f])[..|fs|] == fs;
  }

  /** Which keys the reader knows; an argv key past 127 is an error. */
  lemma KeysAre()
    ensures KeyOf("name") == KName && KeyOf("host") == KHost && KeyOf("port") == KPort && KeyOf("log") == KLog
    ensures KeyOf("cwd") == KCwd && KeyOf("restart_policy") == KRestartPolicy && KeyOf("control_token") == KControlToken
    ensures KeyOf("graceful_input") == KGracefulInput && KeyOf("command") == KCommand
    ensures KeyOf("argv_encoding") == KArgvEncoding && KeyOf("argc") == KArgc
  {
    hide ParseArgvKey;
    assert "name"[0] == 'n' && "host"[0] == 'h' && "port"[0] == 'p' && "log"[0] == 'l' && |"cwd"| == 3;
    assert |"restart_policy"| == 14 && |"control_token"| == 13 && |"graceful_input"| == 14 && |"command"| == 7;
    assert |"argv_encoding"| == 13 && "argv_encoding"[0] == 'a' && "argc"[0] == 'a' && "cwd"[0] == 'c';
    assert "restart_policy"[0] == 'r' && "control_token"[0] == 'c' && "graceful_input"[0] == 'g';
  }

  /** No numbered key is one of the named ones. */
  lemma NumberedKey(digits: string)
    requires IsDecimal(digits)
    ensures KeyOf("argv" + digits)
            == match ParseArgvKey("argv" + digits)
               case NotArgv => KOther
               case BadIndex => KBadArgv
               case Index(i) => KArgv(i)
  {
    hide ParseArgvKey;
    var key := "argv" + digits;
    assert '0' <= key[4] <= '9' && key[0] == 'a' && key[3] == 'v';
    assert "argv_encoding"[4] == '_' && "argc"[3] == 'c';
    assert "name"[0] == 'n' && "host"[0] == 'h' && "port"[0] == 'p' && "log"[0] == 'l' && "cwd"[0] == 'c';
    assert "restart_policy"[0] == 'r' && "control_token"[0] == 'c' && "graceful_input"[0] == 'g' && "command"[0] == 'c';
  }

  lemma ArgvKeyOf(i: nat)
    requires i < ULONG_LIMIT
    ensures KeyOf("argv" + Digits(i)) == if i < 128 then KArgv(i) else KBadArgv
  {
    var key := "argv" + Digits(i);
    assert key[4..] == Digits(i) && key[..4] == "argv";
    hide Digits, KeyOf, ParseUlong;
    ParseInvertsDigits(i);
    NumberedKey(Digits(i));
  }

  lemma TakesArgument(info: Info, command: seq<string>, i: nat)
    requires i < |command| && i < SESSION_MAX_ARGC && info.escaped && IsCString(command[i])
    ensures var f := ArgvField(command, i);
            TakeField(info, Field(f.key, Trim(f.value))) == Some(info.(argv := info.argv[i := command[i]]))
  {
    hide Digits, KeyOf, ParseUlong, Escape, Decode;
    ArgvKeyOf(i);
    ArgvClean(command, i);
    DecodeInvertsEscape(command[i]);
  }

  lemma {:induction false} TakeArguments(info: Info, command: seq<string>, n: nat, fs: seq<Field>, before: Info)
    requires n <= |command| && n <= SESSION_MAX_ARGC
    requires forall i :: 0 <= i < |command| ==> IsCString(command[i])
    requires TakeFields(info, fs) == Some(before) && before.escaped && before.argv == map[]
    ensures TakeFields(info, fs + ArgvFields(command, n)) == Some(before.(argv := Arguments(command, n)))
  {
    hide TakeField, Digits, Escape, TakeFields, IsCString;
    if n == 0 {
      assert fs + [] == fs;
      assert Arguments(command, 0) == map[];
    } else {
      TakeArguments(info, command, n - 1, fs, before);
      var f := ArgvField(command, n - 1);
      var sofar := fs + ArgvFields(command, n - 1);
      assert fs + ArgvFields(command, n) == sofar + [f];
      TakeMore(info, sofar, f);
      TakesArgument(before.(argv := Arguments(command, n - 1)), command, n - 1);
      assert Arguments(command, n) == Arguments(command, n - 1)[n - 1 := command[n - 1]];
    }
  }

  /** After the fields before argv0. */
  function HeadInfo(x: Session): Info {
    InfoOf(x).(cwd := "", argv := map[])
  }

  lemma TakesName(info: Info, v: string)
    ensures TakeField(info, Field("name", v)) == if |v| > SESSION_MAX_NAME then None else Some(info.(name := v))
    ensures TakeField(info, Field("host", v)) == if |v| >= HOST_SIZE then None else Some(info.(host := v))
    ensures TakeField(info, Field("port", v)) == if |v| >= PORT_SIZE then None else Some(info.(port := v))
    ensures TakeField(info, Field("log", v)) == if |v| >= LOG_SIZE then None else Some(info.(log := v))
    ensures TakeField(info, Field("cwd", v)) == if |v| >= CWD_SIZE then None else Some(info.(cwd := v))
  {
    KeysAre();
    hide KeyOf;
  }

  lemma TakesFixed(info: Info, v: string)
    ensures TakeField(info, Field("restart_policy", "manual")) == Some(info.(restartPolicy := "manual"))
    ensures TakeField(info, Field("graceful_input", GRACEFUL_INPUT)) == Some(info.(gracefulInput := GRACEFUL_INPUT))
    ensures TakeField(info, Field("control_token", v))
            == if |v| > MAX_TOKEN then None else Some(info.(controlToken := v))
  {
    KeysAre();
    hide KeyOf;
  }

  lemma TakesCount(info: Info, n: nat)
    requires n <= SESSION_MAX_ARGC
    ensures TakeField(info, Field("argc", Digits(n))) == Some(info.(argc := n))
    ensures TakeField(info, Field("argv_encoding", "escape")) == Some(info.(escaped := true))
  {
    KeysAre();
    hide KeyOf, ParseUlong, Digits;
    ParseInvertsDigits(n);
  }

  lemma TakeStart(x: Session)
    requires IsSessionName(x.name)
    ensures TakeFields(InitialInfo(x.name), StartFields(x))
            == if |Trim(x.host)| < HOST_SIZE && |Trim(x.port)| < PORT_SIZE && |Trim(x.log)| < LOG_SIZE
               then Some(InitialInfo(x.name).(host := Trim(x.host), port := Trim(x.port), log := Trim(x.log)))
               else None
  {
    var info, h := InitialInfo(x.name), StartFields(x);
    NamesAndNumbers(x.name, 0);
    assert |x.name| <= SESSION_MAX_NAME;
    hide TakeField, Digits, Trim, IsSessionName, IsCString;
    assert TakeFields(info, []) == Some(info);
    hide TakeFields;
    TakeMore(info, [], h[0]);
    TakeMore(info, [] + [h[0]], h[1]);
    TakeMore(info, [] + [h[0]] + [h[1]], h[2]);
    TakeMore(info, [] + [h[0]] + [h[1]] + [h[2]], h[3]);
    assert [] + [h[0]] + [h[1]] + [h[2]] + [h[3]] == h;
    TakesName(info, x.name);
    TakesName(info, Trim(x.host));
    TakesName(info.(host := Trim(x.host)), Trim(x.port));
    TakesName(info.(host := Trim(x.host), port := Trim(x.port)), Trim(x.log));
  }

  lemma TakeRest(info: Info, fs: seq<Field>, x: Session)
    requires IsSessionName(x.name) && |x.controlToken| <= MAX_TOKEN && |x.command| <= SESSION_MAX_ARGC
    ensures TakeFields(info, fs + RestFields(x))
            == match TakeFields(info, fs)
               case None => None
               case Some(i) =>
                 Some(i.(restartPolicy := "manual", controlToken := Trim(x.controlToken),
                         gracefulInput := GRACEFUL_INPUT, argc := |x.command|, escaped := true))
  {
    FixedValues();
    NamesAndNumbers(x.name, |x.command|);
    hide TakeField, TakeFields, Digits, Trim, IsSessionName, IsCString;
    var h := RestFields(x);
    TakeMore(info, fs, h[0]);
    TakeMore(info, fs + [h[0]], h[1]);
    TakeMore(info, fs + [h[0]] + [h[1]], h[2]);
    TakeMore(info, fs + [h[0]] + [h[1]] + [h[2]], h[3]);
    TakeMore(info, fs + [h[0]] + [h[1]] + [h[2]] + [h[3]], h[4]);
    assert fs + [h[0]] + [h[1]] + [h[2]] + [h[3]] + [h[4]] == fs + h;
    if TakeFields(info, fs).Some? {
      var i := TakeFields(info, fs).value;
      TakesFixed(i, Trim(x.controlToken));
      var i1 := i.(restartPolicy := "manual");
      TakesFixed(i1, Trim(x.controlToken));
      var i2 := i1.(controlToken := Trim(x.controlToken));
      TakesFixed(i2, Trim(x.controlToken));
      var i3 := i2.(gracefulInput := GRACEFUL_INPUT);
      TakesCount(i3, |x.command|);
      TakesCount(i3.(argc := |x.command|), |x.command|);
    }
  }

  lemma TakeHead(x: Session)
    requires IsSessionName(x.name) && |x.controlToken| <= MAX_TOKEN && |x.command| <= SESSION_MAX_ARGC
    ensures TakeFields(InitialInfo(x.name), HeadFields(x))
            == if |Trim(x.host)| < HOST_SIZE && |Trim(x.port)| < PORT_SIZE && |Trim(x.log)| < LOG_SIZE
               then Some(HeadInfo(Trimmed(x))) else None
  {
    hide TakeFields, Trim;
    TakeStart(x);
    TakeRest(InitialInfo(x.name), StartFields(x), x);
  }

  /** For a session without line breaks in its unescaped strings, reading what was written succeeds exactly
      when the trimmed values fit, and gives back those values and exactly the arguments. */
  lemma ReadsWhatWasWritten(x: Session)
    requires CStrings(x) && NoNewlines(x) && WriteSession(x).File?
    ensures ReadSession(x.name, WriteSession(x).text) == if Fits(x) then Some(InfoOf(Trimmed(x))) else None
  {
    hide TakeFields, TakeLines, GetLines, Lines, Render, Fields, Trim, IsCString, NoNewline, Arguments, Clean;
    var info, fs := InitialInfo(x.name), Fields(x);
    AllClean(x);
    LinesOfRender(fs);
    LinesAreFields(info, fs);
    ReadsFields(x);
    CompleteWhen(x);
  }

  lemma CompleteWhen(x: Session)
    ensures Complete(InfoOf(x)) <==> x.port != ""
  {
  }

  lemma ReadsBody(x: Session)
    requires CStrings(x) && IsSessionName(x.name) && |x.controlToken| <= MAX_TOKEN && |x.command| <= SESSION_MAX_ARGC
    ensures TakeFields(InitialInfo(x.name), HeadFields(x) + ArgvFields(x.command, |x.command|))
            == if |Trim(x.host)| < HOST_SIZE && |Trim(x.port)| < PORT_SIZE && |Trim(x.log)| < LOG_SIZE
               then Some(InfoOf(Trimmed(x)).(cwd := "")) else None
  {
    hide TakeFields, TakeField, HeadFields, ArgvFields, Trim;
    var info, head := InitialInfo(x.name), HeadFields(x);
    TakeHead(x);
    if TakeFields(info, head).Some? {
      TakeArguments(info, x.command, |x.command|, head, HeadInfo(Trimmed(x)));
    } else {
      TakeFieldsStop(info, head, ArgvFields(x.command, |x.command|));
    }
  }

  lemma ReadsFields(x: Session)
    requires CStrings(x) && IsSessionName(x.name) && |x.controlToken| <= MAX_TOKEN && |x.command| <= SESSION_MAX_ARGC
    ensures TakeFields(InitialInfo(x.name), Fields(x))
            == if |Trim(x.host)| < HOST_SIZE && |Trim(x.port)| < PORT_SIZE && |Trim(x.log)| < LOG_SIZE
                  && |Trim(x.cwd)| < CWD_SIZE
               then Some(InfoOf(Trimmed(x))) else None
  {
    ReadsBody(x);
    assert Trim("") == "";
    hide TakeFields, TakeField, HeadFields, ArgvFields, Trim, Arguments;
    var body := HeadFields(x) + ArgvFields(x.command, |x.command|);
    if x.cwd == "" {
      assert Fields(x) == body;
    } else {
      TakeMore(InitialInfo(x.name), body, Field("cwd", x.cwd));
      TakesName(InfoOf(Trimmed(x)).(cwd := ""), Trim(x.cwd));
    }
  }

  lemma {:induction false} TakeFieldsStop(info: Info, a: seq<Field>, b: seq<Field>)
    requires TakeFields(info, a).None?
    ensures TakeFields(info, a + b).None?
    decreases |b|
  {
    if b == [] {
      assert a + b == a;
    } else {
      TakeFieldsStop(info, a, b[..|b| - 1]);
      assert (a + b)[..|a + b| - 1] == a + b[..|b| - 1];
    }
  }

  // ---------------------------------------------------------------- Reading any file

  /** The trimmed value of the last field with this key. */
  function Lookup(fs: seq<Field>, k: Key): Option<string> {
    if fs == [] then None
    else if KeyOf(fs[|fs| - 1].key) == k then Some(Trim(fs[|fs| - 1].value))
    else Lookup(fs[..|fs| - 1], k)
  }

  function Or(x: Option<string>, otherwise: string): string {
    if x.Some? then x.value else otherwise
  }

  function ArgcOf(fs: seq<Field>): nat {
    var x := Lookup(fs, KArgc);
    if x.Some? && ParseUlong(x.value).Some? then ParseUlong(x.value).value else 0
  }

  /** The file says, so far, that arguments are escaped. */
  predicate EscapedIn(fs: seq<Field>) {
    exists i :: 0 <= i < |fs| && KeyOf(fs[i].key) == KArgvEncoding && Trim(fs[i].value) == "escape"
  }

  /** Argument `i`: decoded if the escaping was announced before it. */
  function ArgvOf(fs: seq<Field>, i: nat): Option<string> {
    if fs == [] then None
    else
      var init, v := fs[..|fs| - 1], Trim(fs[|fs| - 1].value);
      if KeyOf(fs[|fs| - 1].key) == KArgv(i) then Some(if EscapedIn(init) then Decode(v) else v) else ArgvOf(init, i)
  }

  /** A field that is no error. */
  predicate Accepts(f: Field) {
    var v := Trim(f.value);
    match KeyOf(f.key)
    case KName => |v| <= 96
    case KHost => |v| < 128
    case KPort => |v| < 16
    case KLog => |v| < 512
    case KCwd => |v| < 1024
    case KRestartPolicy => |v| < 64
    case KControlToken => |v| < 256
    case KGracefulInput => |v| < 4097
    case KArgc => ParseUlong(v).Some? && ParseUlong(v).value <= 128
    case KBadArgv => false
    case _ => true
  }

  /** The record's strings: each field's last value, or what stands for an absent one. */
  predicate TextsAmount(name: string, fs: seq<Field>, info: Info) {
    && info.name == Or(Lookup(fs, KName), name)
    && info.host == Or(Lookup(fs, KHost), "127.0.0.1")
    && info.port == Or(Lookup(fs, KPort), "")
    && info.log == Or(Lookup(fs, KLog), "")
    && info.cwd == Or(Lookup(fs, KCwd), "")
    && info.restartPolicy == Or(Lookup(fs, KRestartPolicy), "manual")
    && info.controlToken == Or(Lookup(fs, KControlToken), "")
    && info.gracefulInput == Or(Lookup(fs, KGracefulInput), "/exit\\n")
    && (var command := Or(Lookup(fs, KCommand), "");
        info.command == if |command| > 1023 then command[..1023] else command)
  }

  /** Its arguments. */
  ghost predicate ArgumentsAmount(fs: seq<Field>, info: Info) {
    && info.argc == ArgcOf(fs)
    && info.escaped == EscapedIn(fs)
    && forall i: nat :: if i in info.argv then ArgvOf(fs, i) == Some(info.argv[i]) else ArgvOf(fs, i) == None
  }

  /** The record that the fields of a file amount to. */
  ghost predicate Amounts(name: string, fs: seq<Field>, info: Info) {
    TextsAmount(name, fs, info) && ArgumentsAmount(fs, info)
  }

  lemma LookupSnoc(fs: seq<Field>, f: Field, k: Key)
    ensures Lookup(fs + [f], k) == if KeyOf(f.key) == k then Some(Trim(f.value)) else Lookup(fs, k)
  {
    assert (fs + [f])[..|fs|] == fs;
  }

  lemma ArgvSnoc(fs: seq<Field>, f: Field, i: nat)
    ensures ArgvOf(fs + [f], i)
            == if KeyOf(f.key) == KArgv(i) then Some(if EscapedIn(fs) then Decode(Trim(f.value)) else Trim(f.value))
               else ArgvOf(fs, i)
  {
    assert (fs + [f])[..|fs|] == fs;
  }

  lemma EscapedSnoc(fs: seq<Field>, f: Field)
    ensures EscapedIn(fs + [f]) <==> EscapedIn(fs) || (KeyOf(f.key) == KArgvEncoding && Trim(f.value) == "escape")
  {
    var more := fs + [f];
    if EscapedIn(fs) {
      var i :| 0 <= i < |fs| && KeyOf(fs[i].key) == KArgvEncoding && Trim(fs[i].value) == "escape";
      assert more[i] == fs[i];
    }
    if KeyOf(f.key) == KArgvEncoding && Trim(f.value) == "escape" {
      assert more[|fs|] == f;
    }
  }

  lemma TextsNext(name: string, fs: seq<Field>, info: Info, f: Field)
    requires TextsAmount(name, fs, info)
    ensures var r := TakeField(info, Field(f.key, Trim(f.value)));
            (r.Some? <==> Accepts(f)) && (r.Some? ==> TextsAmount(name, fs + [f], r.value))
  {
    hide KeyOf, Lookup, Trim, Decode, ParseUlong;
    LookupSnoc(fs, f, KName);
    LookupSnoc(fs, f, KHost);
    LookupSnoc(fs, f, KPort);
    LookupSnoc(fs, f, KLog);
    LookupSnoc(fs, f, KCwd);
    LookupSnoc(fs, f, KRestartPolicy);
    LookupSnoc(fs, f, KControlToken);
    LookupSnoc(fs, f, KGracefulInput);
    LookupSnoc(fs, f, KCommand);
  }

  lemma ArgumentsNext(fs: seq<Field>, info: Info, f: Field)
    requires ArgumentsAmount(fs, info)
    ensures var r := TakeField(info, Field(f.key, Trim(f.value)));
            r.Some? ==> ArgumentsAmount(fs + [f], r.value)
  {
    hide KeyOf, Lookup, ArgvOf, EscapedIn, Trim, Decode, ParseUlong;
    LookupSnoc(fs, f, KArgc);
    EscapedSnoc(fs, f);
    forall i: nat {
      ArgvSnoc(fs, f, i);
    }
  }

  lemma AmountsNext(name: string, fs: seq<Field>, info: Info, f: Field)
    requires Amounts(name, fs, info)
    ensures var r := TakeField(info, Field(f.key, Trim(f.value)));
            (r.Some? <==> Accepts(f)) && (r.Some? ==> Amounts(name, fs + [f], r.value))
  {
    hide TextsAmount, ArgumentsAmount, TakeField, Accepts;
    TextsNext(name, fs, info, f);
    ArgumentsNext(fs, info, f);
  }

  lemma NothingAmounts(name: string)
    ensures Amounts(name, [], InitialInfo(name))
  {
  }

  lemma {:induction false} TakesAnyFields(name: string, fs: seq<Field>)
    ensures var r := TakeFields(InitialInfo(name), fs);
            && (r.Some? <==> forall i :: 0 <= i < |fs| ==> Accepts(fs[i]))
            && (r.Some? ==> Amounts(name, fs, r.value))
    decreases |fs|
  {
    hide Amounts, Accepts, TakeField, Trim, InitialInfo, KeyOf;
    if fs == [] {
      NothingAmounts(name);
    } else {
      var init, last := fs[..|fs| - 1], fs[|fs| - 1];
      assert init + [last] == fs;
      TakesAnyFields(name, init);
      var before := TakeFields(InitialInfo(name), init);
      if before.Some? {
        AmountsNext(name, init, before.value, last);
      }
    }
  }

  /** Any file of one-line fields, in any order, with any of them absent or repeated: reading succeeds exactly
      when every field is acceptable, the port is not empty, and no argument below argc is missing; and then the
      record has each field's last value, and "127.0.0.1", "manual", "/exit\\n", no arguments and the name asked for
      where there is none. */
  lemma ReadsAnyFile(name: string, fs: seq<Field>)
    requires IsSessionName(name) && forall i :: 0 <= i < |fs| ==> Clean(fs[i])
    ensures var r := ReadSession(name, Render(fs));
            && (r.Some? <==>
                  && (forall i :: 0 <= i < |fs| ==> Accepts(fs[i]))
                  && Or(Lookup(fs, KPort), "") != ""
                  && forall i :: 0 <= i < ArgcOf(fs) ==> ArgvOf(fs, i).Some?)
            && (r.Some? ==> Amounts(name, fs, r.value))
  {
    hide TakeFields, TakeLines, GetLines, Lines, Render, Amounts, Complete, Accepts, Clean, IsSessionName;
    LinesOfRender(fs);
    LinesAreFields(InitialInfo(name), fs);
    TakesAnyFields(name, fs);
    var r := TakeFields(InitialInfo(name), fs);
    assert r == TakeLines(InitialInfo(name), GetLines(Render(fs)));
    if r.Some? {
      CompleteMeans(name, fs, r.value);
    }
  }

  lemma CompleteMeans(name: string, fs: seq<Field>, info: Info)
    requires Amounts(name, fs, info)
    ensures Complete(info) <==>
              Or(Lookup(fs, KPort), "") != "" && forall i :: 0 <= i < ArgcOf(fs) ==> ArgvOf(fs, i).Some?
  {
    hide Lookup, ArgvOf, ArgcOf, EscapedIn;
    assert forall i: nat :: i in info.argv <==> ArgvOf(fs, i).Some?;
    if Complete(info) {
      forall i | 0 <= i < ArgcOf(fs)
        ensures ArgvOf(fs, i).Some?
      {
        assert i in info.argv;
      }
    } else if info.port != "" {
      var i :| 0 <= i < info.argc && i !in info.argv;
      assert ArgvOf(fs, i).None?;
    }
  }

  function OldFile(name: string, host: string, port: string, log: string, policy: string, cwd: string): seq<Field> {
    [Field("name", name), Field("host", host), Field("port", port), Field("log", log), Field("restart_policy", policy),
     Field("cwd", cwd)]
  }

  /** A file as older versions wrote it, with no argument lines and no token, is read with none. */
  lemma ReadsOldFile(name: string, host: string, port: string, log: string, policy: string, cwd: string)
    requires IsSessionName(name) && IsCString(name)
    requires IsCString(host) && IsCString(port) && IsCString(log) && IsCString(policy) && IsCString(cwd)
    requires Plain(host) && Plain(port) && Plain(log) && Plain(policy) && Plain(cwd)
    requires |host| < 128 && 0 < |port| < 16 && |log| < 512 && |policy| < 64 && |cwd| < 1024
    ensures ReadSession(name, Render(OldFile(name, host, port, log, policy, cwd)))
            == Some(Info(name, host, port, log, cwd, policy, "", "/exit\\n", "", 0, map[], false))
  {
    var fs := OldFile(name, host, port, log, policy, cwd);
    hide TakeFields, TakeLines, GetLines, Lines, Render, Clean, IsSessionName, IsCString, Plain;
    OldFields(name, host, port, log, policy, cwd);
    OldFieldsAreClean(name, host, port, log, policy, cwd);
    LinesOfRender(fs);
    LinesAreFields(InitialInfo(name), fs);
  }

  lemma OldFields(name: string, host: string, port: string, log: string, policy: string, cwd: string)
    requires IsSessionName(name)
    requires Plain(host) && Plain(port) && Plain(log) && Plain(policy) && Plain(cwd)
    requires |host| < 128 && 0 < |port| < 16 && |log| < 512 && |policy| < 64 && |cwd| < 1024
    ensures TakeFields(InitialInfo(name), OldFile(name, host, port, log, policy, cwd))
            == Some(Info(name, host, port, log, cwd, policy, "", "/exit\\n", "", 0, map[], false))
  {
    var info := InitialInfo(name);
    var f4, f5 := Field("restart_policy", policy), Field("cwd", cwd);
    hide IsSessionName, Trim, KeyOf, Plain, TakeField, TakeFields, Digits;
    var x := Session(name, host, port, log, "", "", []);
    TakeStart(x);
    PlainTrims(host);
    PlainTrims(port);
    PlainTrims(log);
    PlainTrims(policy);
    PlainTrims(cwd);
    TakeMore(info, StartFields(x), f4);
    TakeMore(info, StartFields(x) + [f4], f5);
    assert StartFields(x) + [f4] + [f5] == OldFile(name, host, port, log, policy, cwd);
    TakesPolicy(info.(host := host, port := port, log := log), policy);
    TakesName(info.(host := host, port := port, log := log, restartPolicy := policy), cwd);
  }

  lemma TakesPolicy(info: Info, v: string)
    ensures TakeField(info, Field("restart_policy", v)) == if |v| >= 64 then None else Some(info.(restartPolicy := v))
  {
    KeysAre();
    hide KeyOf;
  }

  lemma OldFieldsAreClean(name: string, host: string, port: string, log: string, policy: string, cwd: string)
    requires IsSessionName(name) && IsCString(name)
    requires IsCString(host) && IsCString(port) && IsCString(log) && IsCString(policy) && IsCString(cwd)
    requires Plain(host) && Plain(port) && Plain(log) && Plain(policy) && Plain(cwd)
    ensures forall i :: 0 <= i < 6 ==> Clean(OldFile(name, host, port, log, policy, cwd)[i])
  {
    HeadKeys();
    LongKeys();
    NamesAndNumbers(name, 0);
    PlainTrims(host);
    PlainTrims(port);
    PlainTrims(log);
    PlainTrims(policy);
    PlainTrims(cwd);
    hide IsCString, NoNewline, NoEquals, Trim, IsSessionName, Plain;
  }

  lemma PlainTrims(v: string)
    requires Plain(v)
    ensures Trim(v) == v && NoNewline(v)
  {
  }

  // ---------------------------------------------------------------- Exactly when the trip is lossless

  /** A value that one line can hold as it is. */
  predicate Plain(v: string) {
    NoNewline(v) && (v != [] ==> v[|v| - 1] != '\r')
  }

  predicate Storable(x: Session) {
    && Plain(x.host) && Plain(x.port) && Plain(x.log) && Plain(x.controlToken) && Plain(x.cwd)
    && |x.host| < HOST_SIZE && 0 < |x.port| < PORT_SIZE && |x.log| < LOG_SIZE && |x.cwd| < CWD_SIZE
  }

  /** Whatever the file, the reader's strings are plain and fit their buffers. */
  predicate Sound(info: Info) {
    && Plain(info.host) && Plain(info.port) && Plain(info.log) && Plain(info.controlToken) && Plain(info.cwd)
    && |info.host| < HOST_SIZE && |info.port| < PORT_SIZE && |info.log| < LOG_SIZE && |info.cwd| < CWD_SIZE
    && |info.controlToken| <= MAX_TOKEN
  }

  lemma {:induction false} ChompedIsPlain(line: string)
    requires forall i :: 0 <= i < |line| - 1 ==> line[i] != '\n'
    ensures Plain(Chomp(line)) && (Chomp(line) != [] ==> Chomp(line)[|Chomp(line)| - 1] != '\n')
    decreases |line|
  {
    if line != [] && (line[|line| - 1] == '\n' || line[|line| - 1] == '\r') {
      ChompedIsPlain(line[..|line| - 1]);
    }
  }

  lemma FieldIsPlain(line: string)
    requires forall i :: 0 <= i < |line| - 1 ==> line[i] != '\n'
    ensures FieldOf(line).Some? ==> Plain(FieldOf(line).value.value)
  {
    ChompedIsPlain(UpToNul(line));
  }

  lemma {:induction false} TakenIsSound(info: Info, lines: seq<string>)
    requires Sound(info)
    requires forall j, i :: 0 <= j < |lines| && 0 <= i < |lines[j]| - 1 ==> lines[j][i] != '\n'
    ensures TakeLines(info, lines).Some? ==> Sound(TakeLines(info, lines).value)
    decreases |lines|
  {
    if lines != [] {
      var init, last := lines[..|lines| - 1], lines[|lines| - 1];
      TakenIsSound(info, init);
      hide Sound, FieldOf, TakeField, Plain;
      FieldIsPlain(last);
      if TakeLines(info, init).Some? && FieldOf(last).Some? {
        FieldKeepsSound(TakeLines(info, init).value, FieldOf(last).value);
      }
    }
  }

  lemma FieldKeepsSound(info: Info, f: Field)
    requires Sound(info) && Plain(f.value)
    ensures TakeField(info, f).Some? ==> Sound(TakeField(info, f).value)
  {
    hide Decode;
    hide Plain, KeyOf, ParseUlong, Decode;
  }

  /** The reader hands out only plain strings that fit, whatever is in the file. */
  lemma ReadIsSound(name: string, text: string)
    ensures ReadSession(name, text).Some? ==>
              Sound(ReadSession(name, text).value) && ReadSession(name, text).value.port != ""
  {
    TakenIsSound(InitialInfo(name), GetLines(text));
  }

  /** Exactly when reading gives back the session as it was: when no unescaped string holds a line break or
      ends in a carriage return, and each fits its buffer. The arguments are unrestricted. */
  lemma RoundTripExactly(x: Session)
    requires CStrings(x) && WriteSession(x).File?
    ensures ReadSession(x.name, WriteSession(x).text) == Some(InfoOf(x)) <==> Storable(x)
  {
    if Storable(x) {
      ReadsWhatWasWritten(x);
      assert Trimmed(x) == x;
    } else if ReadSession(x.name, WriteSession(x).text) == Some(InfoOf(x)) {
      ReadIsSound(x.name, WriteSession(x).text);
      assert false;
    }
  }

  /** What a line break can do: started in a directory whose name ends in a line that reads `argc=0`, any
      session with a working directory is read back without its arguments. */
  lemma LineBreakDropsArguments(x: Session)
    requires CStrings(x) && WriteSession(x).File? && Storable(x) && x.cwd != ""
    ensures var z := x.(cwd := x.cwd + "\nargc=0");
            WriteSession(z).File? && ReadSession(z.name, WriteSession(z).text) == Some(InfoOf(x).(argc := 0))
  {
    var z := x.(cwd := x.cwd + "\nargc=0");
    SameText(x);
    LinesWithZero(x);
    TakesZero(x);
    hide TakeFields, TakeLines, GetLines, Render, Fields, Arguments, IsSessionName, IsCString, NoNewline;
  }

  lemma LinesWithZero(x: Session)
    requires CStrings(x) && WriteSession(x).File? && Storable(x)
    ensures var info, fs := InitialInfo(x.name), Fields(x) + [Field("argc", "0")];
            TakeLines(info, GetLines(Render(fs))) == TakeFields(info, fs)
  {
    var fs := Fields(x) + [Field("argc", "0")];
    AllClean(x);
    ZeroField();
    hide TakeFields, TakeLines, GetLines, Lines, Render, Fields, Clean;
    assert forall i :: 0 <= i < |fs| ==> Clean(fs[i]);
    LinesOfRender(fs);
    LinesAreFields(InitialInfo(x.name), fs);
  }

  lemma TakesZero(x: Session)
    requires CStrings(x) && WriteSession(x).File? && Storable(x)
    ensures TakeFields(InitialInfo(x.name), Fields(x) + [Field("argc", "0")]) == Some(InfoOf(x).(argc := 0))
  {
    assert Trimmed(x) == x;
    ZeroField();
    hide TakeFields, TakeField, Fields, Trim, IsCString, NoNewline, Arguments, Clean, Render, Digits;
    ReadsFields(x);
    TakeMore(InitialInfo(x.name), Fields(x), Field("argc", "0"));
    TakesCount(InfoOf(x), 0);
  }

  lemma ZeroField()
    ensures Digits(0) == "0" && Trim("0") == "0" && Clean(Field("argc", "0"))
  {
    HeadKeys();
  }

  lemma SameText(x: Session)
    requires x.cwd != ""
    ensures Render(Fields(x.(cwd := x.cwd + "\nargc=0"))) == Render(Fields(x) + [Field("argc", "0")])
  {
    var body := HeadFields(x) + ArgvFields(x.command, |x.command|);
    var long, short, zero := Field("cwd", x.cwd + "\nargc=0"), Field("cwd", x.cwd), Field("argc", "0");
    hide HeadFields, ArgvFields, Render;
    RenderSplit(body, [long]);
    RenderSplit(body, [short]);
    RenderSplit(body + [short], [zero]);
    RenderOne(long);
    RenderOne(short);
    RenderOne(zero);
    assert HeadFields(x.(cwd := x.cwd + "\nargc=0")) == HeadFields(x) by { SameHead(x, x.cwd + "\nargc=0"); }
    assert Line(long) == Line(short) + Line(zero);
    assert Render(body) + Line(short) + Line(zero) == Render(body) + (Line(short) + Line(zero));
  }

  lemma SameHead(x: Session, cwd: string)
    ensures HeadFields(x.(cwd := cwd)) == HeadFields(x)
  {
  }
}
