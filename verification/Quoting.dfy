/** Quoting of shell words and of password-file fields
    (internal/bootstrap/stale_group.go, internal/migration/process.go,
    internal/workspace/target_env.go), against independent readers. */
module Quoting {
  import opened Basics

  // ----------------------------------------------------------- shell words

  /** `strings.ReplaceAll(s, "'", "'\\''")`. */
  function EscapeQuotes(s: string): string {
    if s == "" then "" else (if s[0] == '\'' then "'\\''" else [s[0]]) + EscapeQuotes(s[1..])
  }

  /** `shellQuote`. */
  function ShellQuote(s: string): string {
    "'" + EscapeQuotes(s) + "'"
  }

  function Quoted(argv: seq<string>): (r: seq<string>)
    ensures |r| == |argv| && forall i :: 0 <= i < |argv| ==> r[i] == ShellQuote(argv[i])
  {
    if argv == [] then [] else [ShellQuote(argv[0])] + Quoted(argv[1..])
  }

  /** The command line handed to `sg docker -c`. */
  function CommandLine(argv: seq<string>): string {
    Join(Quoted(argv), ' ')
  }

  predicate IsBlank(c: char) { c == ' ' || c == '\t' }

  /** Characters that mean something to the shell when unquoted. */
  predicate IsSpecial(c: char) {
    c in {'|', '&', ';', '<', '>', '(', ')', '$', '`', '"', '*', '?', '[', ']', '#', '~', '=', '%', '!', '{', '}', '\n'}
  }

  /** Word splitting with the quoting rules of sections 2.2.1 (backslash) and 2.2.2
      (single quotes) of the POSIX.1-2017 Shell Command Language; `word` is the word
      being read, `quoted` says whether a single quote is open. Text that needs any
      other rule is not split. */
  function Words(s: string, word: Option<string>, quoted: bool): Option<seq<string>>
    decreases |s|
  {
    if s == "" then
      if quoted then None else Some(if word.None? then [] else [word.value])
    else
      var so := if word.None? then "" else word.value;
      if quoted then
        if s[0] == '\'' then Words(s[1..], Some(so), false) else Words(s[1..], Some(so + [s[0]]), true)
      else if IsBlank(s[0]) then
        var rest := Words(s[1..], None, false);
        if rest.None? then None else Some((if word.None? then [] else [word.value]) + rest.value)
      else if s[0] == '\'' then Words(s[1..], Some(so), true)
      else if s[0] == '\\' then
        if |s| == 1 then None
        else if s[1] == '\n' then Words(s[2..], word, false)
        else Words(s[2..], Some(so + [s[1]]), false)
      else if IsSpecial(s[0]) then None
      else Words(s[1..], Some(so + [s[0]]), false)
  }

  /** Leaving the quotes for an escaped quote and entering them again. */
  lemma WordsOfQuote(tail: string, word: string)
    ensures Words("'\\''" + tail, Some(word), true) == Words(tail, Some(word + "'"), true)
  {
    var t := "'\\''" + tail;
    var t1 := "\\''" + tail;
    var t2 := "'" + tail;
    assert t[0] == '\'' && t[1..] == t1;
    assert t1[0] == '\\' && t1[1] == '\'' && t1[2..] == t2;
    assert t2[0] == '\'' && t2[1..] == tail;
    assert Words(t2, Some(word + "'"), false) == Words(tail, Some(word + "'"), true);
    assert Words(t1, Some(word), false) == Words(t2, Some(word + ['\'']), false);
  }

  lemma WordsOfPlain(c: char, tail: string, word: string)
    requires c != '\''
    ensures Words([c] + tail, Some(word), true) == Words(tail, Some(word + [c]), true)
  {
    assert ([c] + tail)[1..] == tail;
  }

  lemma WordsOfClosing(rest: string, word: string)
    ensures Words("'" + rest, Some(word), true) == Words(rest, Some(word), false)
  {
    assert ("'" + rest)[1..] == rest;
  }

  /** Inside quotes, escaped text adds exactly the original to the word. */
  lemma {:induction false} WordsOfEscaped(s: string, rest: string, word: string)
    ensures Words(EscapeQuotes(s) + "'" + rest, Some(word), true) == Words(rest, Some(word + s), false)
    decreases |s|
  {
    hide Words;
    if s == "" {
      assert EscapeQuotes(s) + "'" + rest == "'" + rest && word + s == word;
      WordsOfClosing(rest, word);
    } else {
      var tail := EscapeQuotes(s[1..]) + "'" + rest;
      assert word + s == word + [s[0]] + s[1..];
      WordsOfEscaped(s[1..], rest, word + [s[0]]);
      if s[0] == '\'' {
        assert EscapeQuotes(s) + "'" + rest == "'\\''" + tail;
        WordsOfQuote(tail, word);
      } else {
        assert EscapeQuotes(s) + "'" + rest == [s[0]] + tail;
        WordsOfPlain(s[0], tail, word);
      }
    }
  }

  lemma WordsOfQuoted(s: string, rest: string)
    ensures Words(ShellQuote(s) + rest, None, false) == Words(rest, Some(s), false)
  {
    var t := ShellQuote(s) + rest;
    assert t[1..] == EscapeQuotes(s) + "'" + rest;
    WordsOfEscaped(s, rest, "");
    assert "" + s == s;
  }

  /** Splitting the joined quoted words gives back every argument vector: empty
      arguments, embedded quotes, blanks and newlines included. */
  lemma {:induction false} CommandLineRoundTrip(argv: seq<string>)
    ensures Words(CommandLine(argv), None, false) == Some(argv)
    decreases |argv|
  {
    if |argv| == 1 {
      WordsOfQuoted(argv[0], "");
      assert ShellQuote(argv[0]) + "" == ShellQuote(argv[0]);
      assert [argv[0]] == argv;
    } else if argv != [] {
      var rest := CommandLine(argv[1..]);
      assert Quoted(argv)[1..] == Quoted(argv[1..]);
      assert CommandLine(argv) == ShellQuote(argv[0]) + ([' '] + rest);
      WordsOfQuoted(argv[0], [' '] + rest);
      assert ([' '] + rest)[1..] == rest;
      CommandLineRoundTrip(argv[1..]);
      assert [argv[0]] + argv[1..] == argv;
    }
  }

  /** The loop of `reexec`; without `sg` there is no command line. */
  method BuildCommandLine(argv: seq<string>, sgFound: bool) returns (command: Option<string>)
    ensures command.Some? <==> sgFound
    ensures command.Some? ==> Words(command.value, None, false) == Some(argv)
  {
    if !sgFound {
      return None;
    }
    var quotedParts := new string[|argv|](_ => "");
    for i := 0 to |argv|
      invariant forall k :: 0 <= k < i ==> quotedParts[k] == ShellQuote(argv[k])
    {
      quotedParts[i] := ShellQuote(argv[i]);
    }
    assert quotedParts[..] == Quoted(argv);
    CommandLineRoundTrip(argv);
    return Some(Join(quotedParts[..], ' '));
  }

  // --------------------------------------------------------- password file

  /** `pgpassField`. */
  function PgpassField(value: string): string {
    if value == "" then ""
    else (if value[0] == '\\' || value[0] == ':' then ['\\', value[0]] else [value[0]]) + PgpassField(value[1..])
  }

  function PgpassFields(fields: seq<string>): (r: seq<string>)
    ensures |r| == |fields|
  {
    if fields == [] then [] else [PgpassField(fields[0])] + PgpassFields(fields[1..])
  }

  /** One entry of the file, without its newline. */
  function PgpassLine(fields: seq<string>): string {
    Join(PgpassFields(fields), ':')
  }

  /** A reader of one line: split on unescaped colons and drop the escapes. */
  function ReadLine(line: string, field: string): seq<string>
    decreases |line|
  {
    if line == "" then [field]
    else if line[0] == ':' then [field] + ReadLine(line[1..], "")
    else if line[0] == '\\' && |line| > 1 then ReadLine(line[2..], field + [line[1]])
    else ReadLine(line[1..], field + [line[0]])
  }

  lemma ReadPlain(c: char, tail: string, field: string)
    requires c != ':' && c != '\\'
    ensures ReadLine([c] + tail, field) == ReadLine(tail, field + [c])
  {
    assert ([c] + tail)[1..] == tail;
  }

  lemma ReadEscaped(c: char, tail: string, field: string)
    ensures ReadLine(['\\', c] + tail, field) == ReadLine(tail, field + [c])
  {
    assert (['\\', c] + tail)[2..] == tail;
  }

  lemma {:induction false} ReadField(value: string, rest: string, field: string)
    ensures ReadLine(PgpassField(value) + rest, field) == ReadLine(rest, field + value)
    decreases |value|
  {
    hide ReadLine;
    if value == "" {
      assert PgpassField(value) + rest == rest && field + value == field;
    } else {
      var tail := PgpassField(value[1..]) + rest;
      assert field + value == field + [value[0]] + value[1..];
      ReadField(value[1..], rest, field + [value[0]]);
      if value[0] == '\\' || value[0] == ':' {
        assert PgpassField(value) + rest == ['\\', value[0]] + tail;
        ReadEscaped(value[0], tail, field);
      } else {
        assert PgpassField(value) + rest == [value[0]] + tail;
        ReadPlain(value[0], tail, field);
      }
    }
  }

  /** Reading a written line recovers all its fields, whatever they hold. */
  lemma {:induction false} PgpassLineRoundTrip(fields: seq<string>)
    requires fields != []
    ensures ReadLine(PgpassLine(fields), "") == fields
    decreases |fields|
  {
    if |fields| == 1 {
      ReadField(fields[0], "", "");
      assert PgpassField(fields[0]) + "" == PgpassField(fields[0]) && "" + fields[0] == fields[0];
      assert [fields[0]] == fields;
    } else {
      var rest := PgpassLine(fields[1..]);
      assert PgpassFields(fields)[1..] == PgpassFields(fields[1..]);
      assert PgpassLine(fields) == PgpassField(fields[0]) + ([':'] + rest);
      ReadField(fields[0], [':'] + rest, "");
      assert ([':'] + rest)[1..] == rest && "" + fields[0] == fields[0];
      PgpassLineRoundTrip(fields[1..]);
      assert [fields[0]] + fields[1..] == fields;
    }
  }

  /** The first line of a file. */
  function FirstLine(file: string): string {
    Split(file, '\n')[0]
  }

  lemma {:induction false} FieldNewlines(value: string)
    ensures '\n' in PgpassField(value) <==> '\n' in value
  {
    if value != "" {
      FieldNewlines(value[1..]);
      assert value == [value[0]] + value[1..];
    }
  }

  lemma {:induction false} LineNewlines(fields: seq<string>)
    ensures '\n' in PgpassLine(fields) <==> !AllOneLine(fields)
    decreases |fields|
  {
    if fields != [] {
      FieldNewlines(fields[0]);
      LineNewlines(fields[1..]);
      assert PgpassFields(fields)[1..] == PgpassFields(fields[1..]);
      assert forall i :: 1 <= i < |fields| ==> fields[i] == fields[1..][i - 1];
      assert AllOneLine(fields) <==> '\n' !in fields[0] && AllOneLine(fields[1..]);
      if |fields| > 1 {
        assert PgpassLine(fields) == PgpassField(fields[0]) + [':'] + PgpassLine(fields[1..]);
      }
    }
  }


  /** Characters of a line that are part of no escape or separator come back. */
  lemma {:induction false} ReadKeepsNoNewline(line: string, field: string)
    requires '\n' !in line && '\n' !in field
    ensures AllOneLine(ReadLine(line, field))
    decreases |line|
  {
    if line != "" {
      assert line[0] in line;
      if line[0] == ':' {
        ReadKeepsNoNewline(line[1..], "");
        var rest := ReadLine(line[1..], "");
        assert forall i :: 1 <= i < |rest| + 1 ==> ([field] + rest)[i] == rest[i - 1];
      } else if line[0] == '\\' && |line| > 1 {
        assert line[1] in line;
        ReadKeepsNoNewline(line[2..], field + [line[1]]);
      } else {
        ReadKeepsNoNewline(line[1..], field + [line[0]]);
      }
    }
  }

  /** Written to a file, the entry is recovered from its first line exactly when no
      field holds a newline. */
  lemma PgpassFileRoundTrip(fields: seq<string>)
    requires fields != []
    ensures ReadLine(FirstLine(PgpassLine(fields) + "\n"), "") == fields <==> AllOneLine(fields)
  {
    var line := PgpassLine(fields);
    LineNewlines(fields);
    PgpassLineRoundTrip(fields);
    if AllOneLine(fields) {
      SplitHead(line, "", '\n');
      assert line + ['\n'] + "" == line + "\n";
    }
    ReadKeepsNoNewline(FirstLine(line + "\n"), "");
  }
}
