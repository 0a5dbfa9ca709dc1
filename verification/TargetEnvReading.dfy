/** What a target environment file must hold to be read, and that a printed
    configuration is read back (internal/workspace/target_env.go). */
module TargetEnvReading {
  import opened Basics
  import D = Decimal
  import T = Text
  import opened EnvFile
  import opened TargetEnv

  ghost predicate SetAt(lines: seq<string>, i: nat, key: string, value: string) {
    i < |lines| && LineOf(lines[i]) == Sets(key, value)
  }

  /** Some line gives the key this value. */
  ghost predicate Gives(lines: seq<string>, key: string, value: string) {
    exists i: nat :: SetAt(lines, i, key, value)
  }

  /** The line is ignored, or sets a key to something that may be read. */
  predicate CleanLine(line: string) {
    match LineOf(line)
    case Ignored => true
    case Broken => false
    case Sets(_, value) => value != "" && !AnyRefused(value)
  }

  predicate SetsKey(line: string, key: string) {
    LineOf(line).Sets? && LineOf(line).key == key
  }

  /** Every line is clean, and no key is set twice. */
  ghost predicate WellFormed(lines: seq<string>) {
    && (forall i :: 0 <= i < |lines| ==> CleanLine(lines[i]))
    && (forall i, j, key :: 0 <= i < j < |lines| && SetsKey(lines[i], key) ==> !SetsKey(lines[j], key))
  }

  ghost predicate SetsNone(lines: seq<string>, values: Values) {
    forall i, key :: 0 <= i < |lines| && SetsKey(lines[i], key) ==> key !in values
  }

  predicate Has(values: Values, key: string, value: string) {
    key in values && values[key] == value
  }

  /** A clean line that sets a new key adds exactly what it sets. */
  lemma LineAdds(line: string, values: Values)
    ensures ReadLine(line, values).Ok? <==> CleanLine(line) && forall key :: SetsKey(line, key) ==> key !in values
    ensures ReadLine(line, values).Ok? ==>
              && (forall key :: key in ReadLine(line, values).value <==> key in values || SetsKey(line, key))
              && (forall k, v :: Has(ReadLine(line, values).value, k, v) <==> Has(values, k, v) || LineOf(line) == Sets(k, v))
  {
    hide LineOf, AnyRefused;
    if LineOf(line).Sets? {
      assert SetsKey(line, LineOf(line).key);
    }
  }

  lemma HeadAndTail(lines: seq<string>, values: Values)
    requires lines != []
    ensures var r := ReadLine(lines[0], values);
            && (WellFormed(lines) && SetsNone(lines, values) <==>
                  r.Ok? && WellFormed(lines[1..]) && SetsNone(lines[1..], r.value))
  {
    hide ReadLine, CleanLine, SetsKey;
    var tail, r := lines[1..], ReadLine(lines[0], values);
    LineAdds(lines[0], values);
    assert forall i :: 0 <= i < |tail| ==> tail[i] == lines[i + 1];
    assert lines == [lines[0]] + tail;
    if r.Ok? && WellFormed(tail) && SetsNone(tail, r.value) {
      forall i, key | 0 <= i < |lines| && SetsKey(lines[i], key) ensures key !in values {
        assert i > 0 ==> SetsKey(tail[i - 1], key);
      }
      forall i, j, key | 0 <= i < j < |lines| && SetsKey(lines[i], key) ensures !SetsKey(lines[j], key) {
        assert tail[j - 1] == lines[j];
        assert i > 0 ==> SetsKey(tail[i - 1], key);
        assert i == 0 ==> key in r.value;
      }
    }
    if WellFormed(lines) && SetsNone(lines, values) {
      assert CleanLine(lines[0]);
      forall i, key | 0 <= i < |tail| && SetsKey(tail[i], key) ensures key !in r.value {
        assert SetsKey(lines[i + 1], key);
      }
    }
  }

  lemma GivesHead(lines: seq<string>, key: string, value: string)
    requires lines != []
    ensures Gives(lines, key, value) <==> LineOf(lines[0]) == Sets(key, value) || Gives(lines[1..], key, value)
  {
    hide LineOf;
    if Gives(lines, key, value) {
      var i: nat :| SetAt(lines, i, key, value);
      assert i > 0 ==> SetAt(lines[1..], i - 1, key, value);
    }
    if LineOf(lines[0]) == Sets(key, value) {
      assert SetAt(lines, 0, key, value);
    }
    if Gives(lines[1..], key, value) {
      var i: nat :| SetAt(lines[1..], i, key, value);
      assert SetAt(lines, i + 1, key, value);
    }
  }

  /** The lines are read exactly when they are well formed and set nothing anew, and
      then the values are those there were and those the lines give. */
  lemma {:induction false} LinesExactly(lines: seq<string>, values: Values)
    ensures ReadLines(lines, values).Ok? <==> WellFormed(lines) && SetsNone(lines, values)
    ensures ReadLines(lines, values).Ok? ==>
              forall k, v :: Has(ReadLines(lines, values).value, k, v) <==> Has(values, k, v) || Gives(lines, k, v)
    decreases |lines|
  {
    hide LineOf, ReadLine, WellFormed, SetsNone, Gives, Has;
    if lines == [] {
      NothingGiven(values);
    } else {
      var r := ReadLine(lines[0], values);
      HeadAndTail(lines, values);
      LineAdds(lines[0], values);
      if r.Ok? {
        LinesExactly(lines[1..], r.value);
        forall k, v ensures Gives(lines, k, v) <==> LineOf(lines[0]) == Sets(k, v) || Gives(lines[1..], k, v) {
          GivesHead(lines, k, v);
        }
      }
    }
  }

  lemma NothingGiven(values: Values)
    ensures WellFormed([]) && SetsNone([], values) && forall k, v :: !Gives([], k, v)
  {
  }

  predicate ValidConfig(c: TargetConfig) {
    && c.host == "127.0.0.1" && ValidPort(c.port) && Identifier(c.user)
    && Identifier(c.database) && c.database != "postgres"
  }

  ghost predicate Holds(lines: seq<string>, c: TargetConfig) {
    && Gives(lines, HOST, c.host) && Gives(lines, PORT, D.Text(c.port)) && Gives(lines, USER, c.user)
    && Gives(lines, PASSWORD, c.password) && Gives(lines, DATABASE, c.database)
  }

  lemma PortOfExactly(text: string, port: nat)
    ensures PortOf(text) == Some(port) <==> text == D.Text(port) && ValidPort(port)
  {
    hide D.Text;
    D.ValueOfText(port);
  }

  /** A file is read as a configuration exactly when it holds no NUL or carriage
      return, its lines are well formed and give the configuration's five values, and
      those are valid. */
  lemma ReadExactly(text: string, c: TargetConfig)
    ensures ParseTargetEnv(text) == Ok(c) <==>
              && !Tainted(text) && WellFormed(Split(text, '\n')) && Holds(Split(text, '\n'), c) && ValidConfig(c)
  {
    hide Split, ReadLines, WellFormed, Gives, Identifier, D.Text, PortOf, Tainted;
    var lines := Split(text, '\n');
    LinesExactly(lines, map[]);
    assert SetsNone(lines, map[]);
    if ReadLines(lines, map[]).Ok? {
      var values := ReadLines(lines, map[]).value;
      if PORT in values {
        PortOfExactly(values[PORT], c.port);
      }
    }
  }

  // ---------------------------------------------------------- round trip

  const KEYS: seq<string> := [HOST, PORT, USER, PASSWORD, DATABASE]

  function FieldsOf(c: TargetConfig): (values: seq<string>)
    ensures |values| == 5
  {
    [c.host, D.Text(c.port), c.user, c.password, c.database]
  }

  function PrintedLines(c: TargetConfig): (lines: seq<string>)
    ensures |lines| == 5 && forall i :: 0 <= i < 5 ==> lines[i] == KEYS[i] + "=" + FieldsOf(c)[i]
  {
    [HOST + "=" + c.host, PORT + "=" + D.Text(c.port), USER + "=" + c.user, PASSWORD + "=" + c.password,
     DATABASE + "=" + c.database]
  }

  lemma KeyIsPlain(i: nat)
    requires i < 5
    ensures var key := KEYS[i];
            && key != "" && '=' !in key && key[0] != '#' && !T.IsSpace(key[0]) && !T.IsSpace(Last(key))
            && Allowed(key) && !T.HasPrefix(key, "export ") && OneLine(key) && !Tainted(key)
  {
    assert "export "[0] == 'e' && KEYS[i][0] == 'P';
    if T.HasPrefix(KEYS[i], "export ") {
      PrefixHead(KEYS[i], "export ");
    }
  }

  lemma KeyIsItsOwn(i: nat, j: nat)
    requires i < 5 && j < 5 && KEYS[i] == KEYS[j]
    ensures i == j
  {
    assert |HOST| == |PORT| == |USER| == 13 && |PASSWORD| == |DATABASE| == 17;
    assert HOST[9] == 'H' && PORT[9] == 'P' && USER[9] == 'U' && PASSWORD[9] == 'P' && DATABASE[9] == 'D';
  }

  lemma FieldIsPlain(c: TargetConfig, i: nat)
    requires ValidConfig(c) && ValidPassword(c.password) && i < 5
    ensures ValidPassword(FieldsOf(c)[i])
  {
    hide D.Text;
    PortTextIsRead(c.port);
  }

  lemma {:induction false} JoinedChars(parts: seq<string>, sep: char, c: char)
    requires c != sep && forall i :: 0 <= i < |parts| ==> c !in parts[i]
    ensures c !in Join(parts, sep)
    decreases |parts|
  {
    if |parts| > 1 {
      JoinedChars(parts[1..], sep, c);
    }
  }

  lemma PrintedLine(c: TargetConfig, i: nat)
    requires ValidConfig(c) && ValidPassword(c.password) && i < 5
    ensures var line := PrintedLines(c)[i];
            LineOf(line) == Sets(KEYS[i], FieldsOf(c)[i]) && CleanLine(line) && OneLine(line) && !Tainted(line)
  {
    hide FieldsOf, PrintedLines, LineOf, Allowed, T.HasPrefix;
    KeyIsPlain(i);
    FieldIsPlain(c, i);
    LineOfAssignment(KEYS[i], FieldsOf(c)[i]);
    var line := PrintedLines(c)[i];
    assert forall x :: x in line <==> x in KEYS[i] || x == '=' || x in FieldsOf(c)[i];
  }

  /** A printed configuration is read back exactly when it is valid and its password
      is. */
  lemma PrintedIsRead(c: TargetConfig)
    ensures ParseTargetEnv(Join(PrintedLines(c), '\n')) == Ok(c) <==> ValidConfig(c) && ValidPassword(c.password)
  {
    hide ParseTargetEnv, ValidConfig, ValidPassword, WellFormed, Holds, Join, Split, Tainted, PrintedLines, FieldsOf, LineOf, CleanLine;
    var lines := PrintedLines(c);
    var text := Join(lines, '\n');
    ReadExactly(text, c);
    if ParseTargetEnv(text) == Ok(c) {
      ReadIsValid(text);
    }
    if ValidConfig(c) && ValidPassword(c.password) {
      forall i | 0 <= i < 5
        ensures LineOf(lines[i]) == Sets(KEYS[i], FieldsOf(c)[i]) && CleanLine(lines[i]) && OneLine(lines[i]) && !Tainted(lines[i])
      {
        PrintedLine(c, i);
      }
      SplitJoin(lines, '\n');
      NoTaint(lines);
      PrintedHolds(lines, c);
    }
  }

  lemma NoTaint(lines: seq<string>)
    requires forall i :: 0 <= i < |lines| ==> !Tainted(lines[i])
    ensures !Tainted(Join(lines, '\n'))
  {
    JoinedChars(lines, '\n', '\0');
    JoinedChars(lines, '\n', '\r');
  }

  lemma PrintedHolds(lines: seq<string>, c: TargetConfig)
    requires |lines| == 5 && forall i :: 0 <= i < 5 ==> LineOf(lines[i]) == Sets(KEYS[i], FieldsOf(c)[i]) && CleanLine(lines[i])
    ensures WellFormed(lines) && Holds(lines, c)
  {
    hide LineOf, CleanLine, D.Text;
    forall i, j, key | 0 <= i < j < |lines| && SetsKey(lines[i], key) ensures !SetsKey(lines[j], key) {
      if KEYS[i] == KEYS[j] {
        KeyIsItsOwn(i, j);
      }
    }
    forall i: nat | i < 5 ensures Gives(lines, KEYS[i], FieldsOf(c)[i]) {
      assert SetAt(lines, i, KEYS[i], FieldsOf(c)[i]);
    }
    assert Gives(lines, KEYS[0], FieldsOf(c)[0]) && Gives(lines, KEYS[1], FieldsOf(c)[1]) && Gives(lines, KEYS[2], FieldsOf(c)[2]);
    assert Gives(lines, KEYS[3], FieldsOf(c)[3]) && Gives(lines, KEYS[4], FieldsOf(c)[4]);
  }
}
