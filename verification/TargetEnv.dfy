/** Reading the target database from an environment file
    (internal/workspace/target_env.go), and how that fits what `Render` writes and
    what internal/secrets/password.go generates. */
module TargetEnv {
  import opened Basics
  import D = Decimal
  import T = Text
  import opened EnvFile

  datatype EnvError =
    | Malformed | DuplicateKey | EmptyKey | MissingKey | InvalidHost | InvalidPort | InvalidUser | InvalidDatabase

  datatype TargetConfig = TargetConfig(host: string, port: nat, user: string, database: string, password: string)

  const HOST := "POSTGRES_HOST"
  const PORT := "POSTGRES_PORT"
  const USER := "POSTGRES_USER"
  const PASSWORD := "POSTGRES_PASSWORD"
  const DATABASE := "POSTGRES_DATABASE"

  predicate Allowed(key: string) {
    key == HOST || key == PORT || key == USER || key == PASSWORD || key == DATABASE
  }

  predicate Refused(c: char) {
    c in {'\\', '"', '\'', '$', '#', ' '}
  }

  predicate AnyRefused(value: string) {
    exists i :: 0 <= i < |value| && Refused(value[i])
  }

  type Values = map<string, string>

  /** What a line of the file says by itself. */
  datatype LineKind = Ignored | Broken | Sets(key: string, value: string)

  function LineOf(line: string): LineKind {
    var trimmed := T.TrimSpace(line);
    if trimmed == "" || trimmed[0] == '#' then Ignored
    else
      var i := EqualsAt(line);
      if i < 0 then Broken
      else
        var key, value := line[..i], line[i + 1..];
        if '=' in value || T.TrimSpace(key) != key || key == "" || T.HasPrefix(key, "export ") then Broken
        else if !Allowed(key) then Ignored
        else Sets(key, value)
  }

  /** What it adds to the values read so far. */
  function ReadLine(line: string, values: Values): Result<Values, EnvError> {
    match LineOf(line)
    case Ignored => Ok(values)
    case Broken => Err(Malformed)
    case Sets(key, value) =>
      if key in values then Err(DuplicateKey)
      else if value == "" then Err(EmptyKey)
      else if AnyRefused(value) then Err(Malformed)
      else Ok(values[key := value])
  }

  function ReadLines(lines: seq<string>, values: Values): Result<Values, EnvError>
    decreases |lines|
  {
    if lines == [] then Ok(values)
    else
      var r := ReadLine(lines[0], values);
      if r.Err? then r else ReadLines(lines[1..], r.value)
  }

  /** `targetIdentifier`. */
  predicate Identifier(value: string) {
    && 0 < |value| <= 63
    && forall i :: 0 <= i < |value| ==>
         'a' <= value[i] <= 'z' || 'A' <= value[i] <= 'Z' || value[i] == '_' || (i > 0 && '0' <= value[i] <= '9')
  }

  predicate Complete(values: Values) {
    HOST in values && PORT in values && USER in values && PASSWORD in values && DATABASE in values
  }

  function PortOf(text: string): Option<nat> {
    var port := D.ParseUint(text, 0xFFFF);
    if port.None? || text != D.Text(port.value) || port.value == 0 then None else port
  }

  function Finish(values: Values): Result<TargetConfig, EnvError> {
    if !Complete(values) then Err(MissingKey)
    else if values[HOST] != "127.0.0.1" then Err(InvalidHost)
    else if PortOf(values[PORT]).None? then Err(InvalidPort)
    else if !Identifier(values[USER]) then Err(InvalidUser)
    else if !Identifier(values[DATABASE]) || values[DATABASE] == "postgres" then Err(InvalidDatabase)
    else Ok(TargetConfig(values[HOST], PortOf(values[PORT]).value, values[USER], values[DATABASE], values[PASSWORD]))
  }

  predicate Tainted(text: string) {
    '\0' in text || '\r' in text
  }

  /** `parseTargetEnv`. */
  function ParseTargetEnv(text: string): Result<TargetConfig, EnvError> {
    if Tainted(text) then Err(Malformed)
    else
      var values := ReadLines(Split(text, '\n'), map[]);
      if values.Err? then Err(values.error) else Finish(values.value)
  }

  method ContainsRefused(value: string) returns (found: bool)
    ensures found == AnyRefused(value)
  {
    for i := 0 to |value|
      invariant forall k :: 0 <= k < i ==> !Refused(value[k])
    {
      if Refused(value[i]) {
        return true;
      }
    }
    return false;
  }

  /** The loop of `parseTargetEnv`. */
  method Parse(text: string) returns (result: Result<TargetConfig, EnvError>)
    ensures result == ParseTargetEnv(text)
  {
    if '\0' in text || '\r' in text {
      return Err(Malformed);
    }
    var values: Values := map[];
    var lines := Split(text, '\n');
    assert lines[0..] == lines;
    for i := 0 to |lines|
      invariant ReadLines(lines[i..], values) == ReadLines(lines, map[])
    {
      var line := lines[i];
      assert lines[i..][0] == line && lines[i..][1..] == lines[i + 1..];
      var trimmed := T.TrimSpace(line);
      if trimmed == "" || trimmed[0] == '#' {
        continue;
      }
      var at := EqualsAt(line);
      if at < 0 {
        return Err(Malformed);
      }
      var key, value := line[..at], line[at + 1..];
      if '=' in value || T.TrimSpace(key) != key || key == "" || T.HasPrefix(key, "export ") {
        return Err(Malformed);
      }
      if !Allowed(key) {
        continue;
      }
      if key in values {
        return Err(DuplicateKey);
      }
      if value == "" {
        return Err(EmptyKey);
      }
      var refused := ContainsRefused(value);
      if refused {
        return Err(Malformed);
      }
      values := values[key := value];
    }
    return Finish(values);
  }

  // ---------------------------------------------------- what is read is valid

  /** A value a line may give to an allowed key. */
  predicate Acceptable(value: string) {
    value != "" && '=' !in value && !AnyRefused(value)
  }

  predicate ValidPassword(w: string) {
    Acceptable(w) && OneLine(w) && !Tainted(w)
  }

  predicate ValidPort(p: int) {
    1 <= p <= 65535
  }

  predicate From(part: string, whole: string) {
    forall c :: c in part ==> c in whole
  }

  lemma {:induction false} ReadValuesAreAcceptable(lines: seq<string>, values: Values, text: string)
    requires ReadLines(lines, values).Ok?
    requires forall i :: 0 <= i < |lines| ==> OneLine(lines[i]) && From(lines[i], text)
    requires forall k :: k in values ==> Acceptable(values[k]) && OneLine(values[k]) && From(values[k], text)
    ensures forall k :: k in ReadLines(lines, values).value ==>
              Acceptable(ReadLines(lines, values).value[k]) && OneLine(ReadLines(lines, values).value[k]) &&
              From(ReadLines(lines, values).value[k], text)
    decreases |lines|
  {
    hide AnyRefused;
    if lines != [] {
      var next := ReadLine(lines[0], values).value;
      var i := EqualsAt(lines[0]);
      if next != values {
        assert From(lines[0][i + 1..], lines[0]);
        assert From(lines[0], text);
      }
      ReadValuesAreAcceptable(lines[1..], next, text);
    }
  }

  lemma {:induction false} SplitParts(text: string, sep: char)
    ensures forall i :: 0 <= i < |Split(text, sep)| ==> From(Split(text, sep)[i], text)
  {
    if text != "" {
      SplitParts(text[1..], sep);
      assert text == [text[0]] + text[1..];
      var rest := Split(text[1..], sep);
      forall i | 0 <= i < |Split(text, sep)| ensures From(Split(text, sep)[i], text) {
        if text[0] == sep {
          assert i > 0 ==> Split(text, sep)[i] == rest[i - 1];
        } else {
          assert i > 0 ==> Split(text, sep)[i] == rest[i];
          assert From(rest[0], text[1..]);
        }
      }
    }
  }

  lemma NotTainted(part: string, text: string)
    requires From(part, text) && !Tainted(text)
    ensures !Tainted(part)
  {
  }

  /** Whatever is read has a valid port and a valid password. */
  lemma ReadIsValid(text: string)
    requires ParseTargetEnv(text).Ok?
    ensures ValidPort(ParseTargetEnv(text).value.port) && ValidPassword(ParseTargetEnv(text).value.password)
  {
    hide ReadLines, Acceptable, Identifier, From, Tainted, OneLine;
    SplitParts(text, '\n');
    SplitIsOneLine(text);
    ReadValuesAreAcceptable(Split(text, '\n'), map[], text);
    NotTainted(ParseTargetEnv(text).value.password, text);
  }

  lemma SplitIsOneLine(text: string)
    ensures AllOneLine(Split(text, '\n'))
  {
  }

  // ------------------------------------------------- reading a rendered file

  lemma {:induction false} TrimRightKeepsHead(s: string)
    requires s != "" && !T.IsSpace(s[0])
    ensures T.TrimRight(s) != "" && T.TrimRight(s)[0] == s[0]
  {
    if T.IsSpace(Last(s)) {
      TrimRightKeepsHead(Front(s));
    }
  }

  /** A line that assigns to a key written without white space. */
  lemma LineOfAssignment(key: string, value: string)
    requires key != "" && '=' !in key && key[0] != '#' && !T.IsSpace(key[0]) && !T.IsSpace(Last(key))
    requires Allowed(key) && !T.HasPrefix(key, "export ")
    ensures LineOf(key + "=" + value) == if '=' in value then Broken else Sets(key, value)
  {
    hide Allowed, T.HasPrefix;
    var line := key + "=" + value;
    assert line[0] == key[0];
    TrimRightKeepsHead(line);
    EqualsAtOf(key, value);
    assert line[..|key|] == key && line[|key| + 1..] == value;
    assert T.TrimSpace(key) == key;
  }

  lemma PrefixHead(s: string, prefix: string)
    requires T.HasPrefix(s, prefix) && prefix != ""
    ensures s != "" && s[0] == prefix[0]
  {
    assert s[0..0 + |prefix|][0] == s[0];
  }

  lemma SpecialKeys(key: string)
    requires key == PORT || key == PASSWORD
    ensures key != "" && '=' !in key && key[0] != '#' && !T.IsSpace(key[0]) && !T.IsSpace(Last(key))
    ensures Allowed(key) && !T.HasPrefix(key, "export ")
  {
    assert "export "[0] == 'e' && key[0] == 'P';
    if T.HasPrefix(key, "export ") {
      PrefixHead(key, "export ");
    }
  }

  predicate Special(key: string) {
    key == PORT || key == PASSWORD
  }

  /** The substitutions say something of the port and the password, and nothing of
      the other keys that are read. */
  predicate Manages(subs: Subs) {
    && PORT in subs && PASSWORD in subs && HOST !in subs && USER !in subs && DATABASE !in subs
    && OneLiners(subs)
  }

  /** The same substitutions but for port and password. */
  predicate Agree(a: Subs, b: Subs) {
    a.Keys == b.Keys && forall k :: k in a && !Special(k) ==> a[k] == b[k]
  }

  /** A rendered line either assigns the port or the password as substituted, or
      never touches them and is the same under agreeing substitutions. */
  lemma RenderedLine(line: string, a: Subs, b: Subs)
    requires Manages(a) && Manages(b) && Agree(a, b)
    ensures var key := ManagedKey(TrimReturns(line), a);
            if key.Some? && Special(key.value) then
              RenderLine(line, a) == key.value + "=" + a[key.value] && RenderLine(line, b) == key.value + "=" + b[key.value]
            else
              RenderLine(line, a) == RenderLine(line, b)
  {
  }

  /** Such a line never sets port or password when read. */
  lemma OtherLine(line: string, subs: Subs)
    requires Manages(subs)
    requires var key := ManagedKey(TrimReturns(line), subs); key.None? || !Special(key.value)
    ensures var kind := LineOf(RenderLine(line, subs)); kind.Sets? ==> !Special(kind.key)
  {
    hide Allowed, T.TrimSpace, T.HasPrefix;
    var stripped := TrimReturns(line);
    var key := ManagedKey(stripped, subs);
    var written := RenderLine(line, subs);
    if key.Some? {
      EqualsAtOf(key.value, subs[key.value]);
      assert written[..|key.value|] == key.value;
    } else {
      var i := EqualsAt(written);
      assert i > 0 ==> written[..i][0] == written[0];
      if i > 0 && Special(written[..i]) {
        SpecialKeys(written[..i]);
      }
      if i == 0 {
        assert written[..0] == "";
        NotSpecial();
      }
    }
  }

  lemma NotSpecial()
    ensures !Special("")
  {
    assert |PORT| > 0 && |PASSWORD| > 0;
  }

  /** The values with port and password as substituted. */
  function Swapped(values: Values, b: Subs): (r: Values)
    requires PORT in b && PASSWORD in b
    ensures r.Keys == values.Keys
    ensures forall k :: k in values ==> r[k] == if Special(k) then b[k] else values[k]
  {
    map k | k in values :: if Special(k) then b[k] else values[k]
  }

  lemma SwappedMore(values: Values, b: Subs, key: string, value: string)
    requires PORT in b && PASSWORD in b
    ensures Swapped(values[key := value], b) == Swapped(values, b)[key := if Special(key) then b[key] else value]
  {
  }

  /** One line, read under two agreeing substitutions. */
  lemma ReadLineSwapped(line: string, a: Subs, b: Subs, values: Values)
    requires Manages(a) && Manages(b) && Agree(a, b)
    requires Acceptable(b[PORT]) && Acceptable(b[PASSWORD])
    requires ReadLine(RenderLine(line, a), values).Ok?
    ensures ReadLine(RenderLine(line, b), Swapped(values, b)) == Ok(Swapped(ReadLine(RenderLine(line, a), values).value, b))
  {
    hide LineOf, RenderLine, AnyRefused, ManagedKey, TrimReturns, Special, Manages;
    RenderedLine(line, a, b);
    var key := ManagedKey(TrimReturns(line), a);
    var kind := LineOf(RenderLine(line, a));
    ManagesSpecial(b);
    if key.Some? && Special(key.value) {
      IsSpecial(key.value);
      SpecialKeys(key.value);
      LineOfAssignment(key.value, a[key.value]);
      LineOfAssignment(key.value, b[key.value]);
      SwappedMore(values, b, key.value, a[key.value]);
    } else {
      OtherLine(line, a);
      if kind.Sets? {
        SwappedMore(values, b, kind.key, kind.value);
      }
    }
  }

  lemma IsSpecial(key: string)
    requires Special(key)
    ensures key == PORT || key == PASSWORD
  {
  }

  lemma ManagesSpecial(b: Subs)
    requires Manages(b)
    ensures PORT in b && PASSWORD in b
  {
  }

  lemma {:induction false} ReadSwapped(lines: seq<string>, a: Subs, b: Subs, values: Values)
    requires Manages(a) && Manages(b) && Agree(a, b)
    requires Acceptable(b[PORT]) && Acceptable(b[PASSWORD])
    requires ReadLines(RenderLines(lines, a), values).Ok?
    ensures ReadLines(RenderLines(lines, b), Swapped(values, b)) == Ok(Swapped(ReadLines(RenderLines(lines, a), values).value, b))
    decreases |lines|
  {
    hide ReadLine, RenderLine, Manages, Agree, Acceptable;
    ManagesSpecial(b);
    if lines != [] {
      ReadLineSwapped(lines[0], a, b, values);
      var next := ReadLine(RenderLine(lines[0], a), values).value;
      assert RenderLines(lines, a)[1..] == RenderLines(lines[1..], a);
      assert RenderLines(lines, b)[1..] == RenderLines(lines[1..], b);
      ReadSwapped(lines[1..], a, b, next);
    }
  }

  // ------------------------------------------------------------- whole files

  lemma {:induction false} ReadLinesBlank(lines: seq<string>, values: Values)
    ensures ReadLines(lines + [""], values) == ReadLines(lines, values)
    decreases |lines|
  {
    hide ReadLine;
    if lines == [] {
      assert ([] + [""])[1..] == [];
      BlankIsIgnored(values);
    } else {
      assert (lines + [""])[1..] == lines[1..] + [""];
      var r := ReadLine(lines[0], values);
      if r.Ok? {
        ReadLinesBlank(lines[1..], r.value);
      }
    }
  }

  lemma BlankIsIgnored(values: Values)
    ensures ReadLine("", values) == Ok(values)
  {
  }

  /** What reading a rendered file amounts to. */
  lemma ReadRendered(template: string, subs: Subs)
    requires OneLiners(subs)
    ensures ReadLines(Split(Render(template, subs), '\n'), map[]) == ReadLines(RenderLines(Lines(template), subs), map[])
  {
    hide Split, RenderLine, ReadLine;
    var lines := RenderLines(Lines(template), subs);
    AllRenderedAreOneLine(template, subs);
    SplitUnlines(lines);
    ReadLinesBlank(lines, map[]);
    if lines == [] {
      SplitUnlines([""]);
      assert Unlines([""]) == "\n" by { assert Unlines([]) == ""; }
      ReadLinesBlank([""], map[]);
      BlankIsIgnored(map[]);
      assert [""][1..] == [];
    }
  }

  lemma {:induction false} TaintedUnlines(lines: seq<string>)
    ensures Tainted(Unlines(lines)) <==> exists i :: 0 <= i < |lines| && Tainted(lines[i])
  {
    if lines != [] {
      TaintedUnlines(lines[1..]);
      assert forall i :: 1 <= i < |lines| ==> lines[i] == lines[1..][i - 1];
      if Tainted(Unlines(lines[1..])) {
        var i :| 0 <= i < |lines[1..]| && Tainted(lines[1..][i]);
        assert lines[i + 1] == lines[1..][i];
      }
    }
  }

  lemma AssignmentTaint(key: string, value: string)
    requires Special(key)
    ensures Tainted(key + "=" + value) <==> Tainted(value)
  {
    assert '\0' !in PORT && '\r' !in PORT && '\0' !in PASSWORD && '\r' !in PASSWORD;
  }

  /** Agreeing substitutions with clean port and password keep a rendered file clean. */
  lemma CleanStaysClean(template: string, a: Subs, b: Subs)
    requires Manages(a) && Manages(b) && Agree(a, b)
    requires !Tainted(Render(template, a)) && !Tainted(b[PORT]) && !Tainted(b[PASSWORD])
    ensures !Tainted(Render(template, b))
  {
    hide RenderLine, Tainted, Manages, Agree, ManagedKey, TrimReturns, Lines, Special;
    var lines := Lines(template);
    var under, over := RenderLines(lines, a), RenderLines(lines, b);
    ManagesSpecial(b);
    TaintedUnlines(under);
    TaintedUnlines(over);
    NewlineIsClean();
    forall i | 0 <= i < |lines| ensures Tainted(over[i]) ==> Tainted(under[i]) {
      RenderedLine(lines[i], a, b);
      var key := ManagedKey(TrimReturns(lines[i]), a);
      if key.Some? && Special(key.value) {
        IsSpecial(key.value);
        AssignmentTaint(key.value, b[key.value]);
      }
    }
  }

  lemma NewlineIsClean()
    ensures !Tainted("\n") && !Tainted("")
  {
  }

  function IntText(n: int): string {
    if n < 0 then "-" + D.Text(-n) else D.Text(n)
  }

  lemma PortTextIsRead(p: int)
    requires ValidPort(p)
    ensures PortOf(IntText(p)) == Some(p)
    ensures Acceptable(IntText(p)) && OneLine(IntText(p)) && !Tainted(IntText(p))
  {
    D.ValueOfText(p);
    var text := D.Text(p);
    assert forall i :: 0 <= i < |text| ==> D.IsDigit(text[i]);
  }

  /** The substitutions with another port and password. */
  function With(a: Subs, p: int, w: string): Subs {
    a[PORT := IntText(p)][PASSWORD := w]
  }

  lemma WithAgrees(a: Subs, p: int, w: string)
    requires Manages(a) && OneLine(IntText(p)) && OneLine(w)
    ensures Manages(With(a, p, w)) && Agree(a, With(a, p, w))
    ensures With(a, p, w)[PORT] == IntText(p) && With(a, p, w)[PASSWORD] == w
  {
    KeysDiffer();
  }

  lemma KeysDiffer()
    ensures PORT != PASSWORD && HOST != PORT && HOST != PASSWORD && USER != PORT && USER != PASSWORD
    ensures DATABASE != PORT && DATABASE != PASSWORD
  {
    assert PORT[9] == 'P' && HOST[9] == 'H' && USER[9] == 'U' && PASSWORD[9] == 'P' && DATABASE[9] == 'D';
    assert PORT[10] == 'O' && PASSWORD[10] == 'A';
  }

  lemma ValuesSwap(template: string, a: Subs, b: Subs)
    requires Manages(a) && Manages(b) && Agree(a, b) && Acceptable(b[PORT]) && Acceptable(b[PASSWORD])
    requires ReadLines(Split(Render(template, a), '\n'), map[]).Ok?
    ensures ReadLines(Split(Render(template, b), '\n'), map[]) ==
            Ok(Swapped(ReadLines(Split(Render(template, a), '\n'), map[]).value, b))
  {
    hide Render, ReadLines, Acceptable, Manages, Agree, Split;
    ManagesSpecial(b);
    ManagedAreOneLine(a);
    ManagedAreOneLine(b);
    ReadRendered(template, a);
    ReadRendered(template, b);
    ReadSwapped(Lines(template), a, b, map[]);
    var none: Values := map[];
    assert Swapped(none, b) == none;
  }

  lemma FinishSwapped(values: Values, b: Subs, p: int)
    requires Finish(values).Ok? && PORT in b && PASSWORD in b && ValidPort(p) && PortOf(b[PORT]) == Some(p)
    ensures Finish(Swapped(values, b)) == Ok(Finish(values).value.(port := p, password := b[PASSWORD]))
  {
    hide PortOf, Identifier;
    KeysDiffer();
  }

  lemma ValidIsRead(template: string, a: Subs, p: int, w: string)
    requires Manages(a) && ParseTargetEnv(Render(template, a)).Ok?
    requires ValidPort(p) && ValidPassword(w)
    ensures ParseTargetEnv(Render(template, With(a, p, w))) ==
            Ok(ParseTargetEnv(Render(template, a)).value.(port := p, password := w))
  {
    hide Render, ReadLines, Acceptable, Tainted, Manages, Agree, OneLine, PortOf, With, IntText, Finish, Split, Swapped;
    var b := With(a, p, w);
    PortTextIsRead(p);
    WithAgrees(a, p, w);
    ManagesSpecial(b);
    CleanStaysClean(template, a, b);
    ValuesSwap(template, a, b);
    FinishSwapped(ReadLines(Split(Render(template, a), '\n'), map[]).value, b, p);
  }

  /** On a template that can be read back with some port and password, any port and
      password written into it are read back, with everything else as before, exactly
      when the port is valid and the password is valid: not empty and without `=`,
      the refused characters, newlines, carriage returns and NUL. */
  lemma ReadBack(template: string, a: Subs, p: int, w: string)
    requires Manages(a) && ParseTargetEnv(Render(template, a)).Ok?
    ensures var r := ParseTargetEnv(Render(template, With(a, p, w)));
            && (r.Ok? && r.value.port == p && r.value.password == w <==> ValidPort(p) && ValidPassword(w))
            && (ValidPort(p) && ValidPassword(w) ==>
                  r == Ok(ParseTargetEnv(Render(template, a)).value.(port := p, password := w)))
  {
    hide Render, ParseTargetEnv, ValidPassword, ValidPort, With, Manages;
    if ValidPort(p) && ValidPassword(w) {
      ValidIsRead(template, a, p, w);
    }
    var text := Render(template, With(a, p, w));
    if ParseTargetEnv(text).Ok? {
      ReadIsValid(text);
    }
  }

  lemma ManagedAreOneLine(a: Subs)
    requires Manages(a)
    ensures OneLiners(a)
  {
  }

  // ------------------------------------------------- the generated password

  function Digit64(n: nat): char {
    if n < 26 then 'A' + n as char
    else if n < 52 then 'a' + (n - 26) as char
    else if n < 62 then '0' + (n - 52) as char
    else if n == 62 then '+' else '/'
  }

  type Byte = b: int | 0 <= b < 256

  /** `base64.StdEncoding.EncodeToString`. */
  function Base64(bytes: seq<Byte>): string {
    if bytes == [] then ""
    else if |bytes| == 1 then [Digit64(bytes[0] / 4), Digit64(bytes[0] % 4 * 16)] + "=="
    else if |bytes| == 2 then
      [Digit64(bytes[0] / 4), Digit64(bytes[0] % 4 * 16 + bytes[1] / 16), Digit64(bytes[1] % 16 * 4)] + "="
    else
      [Digit64(bytes[0] / 4), Digit64(bytes[0] % 4 * 16 + bytes[1] / 16), Digit64(bytes[1] % 16 * 4 + bytes[2] / 64),
       Digit64(bytes[2] % 64)] + Base64(bytes[3..])
  }

  lemma {:induction false} PaddedUnlessThrees(bytes: seq<Byte>)
    ensures |bytes| % 3 != 0 ==> '=' in Base64(bytes)
    decreases |bytes|
  {
    hide Digit64;
    if |bytes| == 1 || |bytes| == 2 {
      assert Last(Base64(bytes)) == '=';
    } else if bytes != [] {
      PaddedUnlessThrees(bytes[3..]);
      assert forall c :: c in Base64(bytes[3..]) ==> c in Base64(bytes);
    }
  }

  lemma {:induction false} ReadIsSubstituted(lines: seq<string>, subs: Subs, values: Values)
    requires Manages(subs) && ReadLines(RenderLines(lines, subs), values).Ok?
    requires PASSWORD in values ==> values[PASSWORD] == subs[PASSWORD]
    ensures var r := ReadLines(RenderLines(lines, subs), values).value;
            PASSWORD in r ==> r[PASSWORD] == subs[PASSWORD]
    decreases |lines|
  {
    hide ReadLine, RenderLine, Manages;
    ManagesSpecial(subs);
    if lines != [] {
      LineIsSubstituted(lines[0], subs, values);
      var next := ReadLine(RenderLine(lines[0], subs), values).value;
      assert RenderLines(lines, subs)[1..] == RenderLines(lines[1..], subs);
      ReadIsSubstituted(lines[1..], subs, next);
    }
  }

  lemma LineIsSubstituted(line: string, subs: Subs, values: Values)
    requires Manages(subs) && ReadLine(RenderLine(line, subs), values).Ok?
    requires PASSWORD in values ==> values[PASSWORD] == subs[PASSWORD]
    ensures var r := ReadLine(RenderLine(line, subs), values).value;
            PASSWORD in r ==> r[PASSWORD] == subs[PASSWORD]
  {
    hide LineOf, RenderLine, AnyRefused, ManagedKey, TrimReturns, Manages, Special;
    RenderedLine(line, subs, subs);
    var key := ManagedKey(TrimReturns(line), subs);
    ManagesSpecial(subs);
    if key.Some? && Special(key.value) {
      IsSpecial(key.value);
      SpecialKeys(key.value);
      LineOfAssignment(key.value, subs[key.value]);
    } else {
      OtherLine(line, subs);
      PasswordIsSpecial();
    }
  }

  lemma PasswordIsSpecial()
    ensures Special(PASSWORD)
  {
  }

  /** A file rendered with a generated password of 32 bytes is never accepted by the
      reader the restore uses: its base64 text always ends in padding. */
  lemma GeneratedPasswordIsNeverRead(template: string, subs: Subs, bytes: seq<Byte>)
    requires Manages(subs) && |bytes| == 32 && subs[PASSWORD] == Base64(bytes)
    ensures ParseTargetEnv(Render(template, subs)).Err?
  {
    hide Render, RenderLines, Lines, ReadLines, ParseTargetEnv, Tainted, OneLine, OneLiners, Base64, Manages, ValidPort, AnyRefused;
    PaddedUnlessThrees(bytes);
    ManagedAreOneLine(subs);
    ReadRendered(template, subs);
    var text := Render(template, subs);
    if ParseTargetEnv(text).Ok? {
      AcceptedPassword(text);
      ReadIsSubstituted(Lines(template), subs, map[]);
      ReadIsValid(text);
      RefusesPadding(Base64(bytes));
    }
  }

  lemma AcceptedPassword(text: string)
    requires ParseTargetEnv(text).Ok?
    ensures var values := ReadLines(Split(text, '\n'), map[]);
            values.Ok? && PASSWORD in values.value && ParseTargetEnv(text).value.password == values.value[PASSWORD]
  {
    hide Tainted, ReadLines, PortOf, Identifier;
  }

  lemma RefusesPadding(w: string)
    requires '=' in w
    ensures !ValidPassword(w)
  {
    hide Tainted, OneLine;
  }
}
