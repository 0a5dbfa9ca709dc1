/** Rendering the environment file and reading the target database back from it
    (internal/envgen/env.go, internal/workspace/target_env.go,
    internal/secrets/password.go). */
module EnvFile {
  import opened Basics
  import D = Decimal
  import T = Text

  type Subs = map<string, string>

  // ---------------------------------------------------------------- render

  /** `strings.TrimRight(s, "\r")`. */
  function TrimReturns(s: string): (r: string)
    ensures |r| <= |s| && r == s[..|r|]
    ensures r != "" ==> Last(r) != '\r'
  {
    if s != "" && Last(s) == '\r' then TrimReturns(Front(s)) else s
  }

  /** The position of the first `=`, or -1. */
  function EqualsAt(s: string): (i: int)
    ensures -1 <= i < |s|
    ensures i >= 0 ==> s[i] == '=' && '=' !in s[..i]
    ensures i < 0 ==> '=' !in s
  {
    if s == "" then -1
    else if s[0] == '=' then 0
    else
      var i := EqualsAt(s[1..]);
      if i < 0 then -1
      else
        assert s[..i + 1] == [s[0]] + s[1..][..i];
        i + 1
  }

  /** The key a line assigns, if it is an assignment of a managed key. */
  function ManagedKey(stripped: string, subs: Subs): (key: Option<string>)
    ensures key.Some? ==> key.value in subs
  {
    if stripped == "" || stripped[0] == '#' || EqualsAt(stripped) < 0 then None
    else if stripped[..EqualsAt(stripped)] in subs then Some(stripped[..EqualsAt(stripped)])
    else None
  }

  /** What `Render` writes for one line. */
  function RenderLine(line: string, subs: Subs): string {
    var stripped := TrimReturns(line);
    var key := ManagedKey(stripped, subs);
    if key.None? then stripped else key.value + "=" + subs[key.value]
  }

  function RenderLines(lines: seq<string>, subs: Subs): (r: seq<string>)
    ensures |r| == |lines| && forall i :: 0 <= i < |lines| ==> r[i] == RenderLine(lines[i], subs)
  {
    seq(|lines|, i requires 0 <= i < |lines| => RenderLine(lines[i], subs))
  }

  /** The lines of a text, without the empty one behind a final newline. */
  function Lines(text: string): seq<string> {
    var lines := Split(text, '\n');
    if Last(lines) == "" then Front(lines) else lines
  }

  function Unlines(lines: seq<string>): string {
    if lines == [] then "" else lines[0] + "\n" + Unlines(lines[1..])
  }

  /** `Render` once the substitutions are known. */
  function Render(template: string, subs: Subs): string {
    var text := Unlines(RenderLines(Lines(template), subs));
    if text == "" then "\n" else text
  }

  lemma RenderMore(lines: seq<string>, subs: Subs, i: nat, out: string)
    requires i < |lines|
    ensures out + Unlines(RenderLines(lines[i..], subs)) ==
            out + RenderLine(lines[i], subs) + "\n" + Unlines(RenderLines(lines[i + 1..], subs))
  {
    var rest := RenderLines(lines[i..], subs);
    assert lines[i..][1..] == lines[i + 1..] && rest[1..] == RenderLines(lines[i + 1..], subs);
    assert Unlines(rest) == rest[0] + "\n" + Unlines(rest[1..]);
  }

  method WriteLine(line: string, subs: Subs) returns (written: string)
    ensures written == RenderLine(line, subs)
  {
    var stripped := TrimReturns(line);
    var key := ManagedKey(stripped, subs);
    if key.None? {
      return stripped;
    }
    return key.value + "=" + subs[key.value];
  }

  /** The loop of `Render`. */
  method RenderTemplate(template: string, subs: Subs) returns (out: string)
    ensures out == Render(template, subs)
  {
    hide RenderLine;
    var lines := Split(template, '\n');
    if lines[|lines| - 1] == "" {
      lines := lines[..|lines| - 1];
    }
    out := "";
    assert lines[0..] == lines;
    for i := 0 to |lines|
      invariant out + Unlines(RenderLines(lines[i..], subs)) == Unlines(RenderLines(lines, subs))
    {
      RenderMore(lines, subs, i, out);
      var written := WriteLine(lines[i], subs);
      out := out + written + "\n";
    }
    assert out + Unlines(RenderLines(lines[|lines|..], subs)) == out;
    if out == "" || out[|out| - 1] != '\n' {
      UnlinesEndsLine(RenderLines(lines, subs));
      out := out + "\n";
    }
  }

  lemma {:induction false} UnlinesEndsLine(lines: seq<string>)
    ensures Unlines(lines) == "" || Last(Unlines(lines)) == '\n'
  {
    if lines != [] {
      UnlinesEndsLine(lines[1..]);
      assert Unlines(lines) == lines[0] + "\n" + Unlines(lines[1..]);
    }
  }

  predicate OneLiners(subs: Subs) {
    forall k :: k in subs ==> OneLine(subs[k])
  }

  lemma {:induction false} SplitUnlines(lines: seq<string>)
    requires AllOneLine(lines)
    ensures Split(Unlines(lines), '\n') == lines + [""]
  {
    if lines != [] {
      SplitUnlines(lines[1..]);
      SplitHead(lines[0], Unlines(lines[1..]), '\n');
      assert Unlines(lines) == lines[0] + ['\n'] + Unlines(lines[1..]);
      assert [lines[0]] + (lines[1..] + [""]) == lines + [""];
    }
  }

  lemma LinesUnlines(lines: seq<string>)
    requires AllOneLine(lines)
    ensures Lines(Unlines(lines)) == lines
  {
    SplitUnlines(lines);
    assert Front(lines + [""]) == lines;
  }

  lemma LinesAreOneLine(text: string)
    ensures AllOneLine(Lines(text))
  {
  }

  lemma RenderedIsOneLine(line: string, subs: Subs)
    requires OneLine(line) && OneLiners(subs)
    ensures OneLine(RenderLine(line, subs))
  {
    var stripped := TrimReturns(line);
    assert forall c :: c in stripped ==> c in line;
    assert forall i, c :: 0 <= i <= |stripped| && c in stripped[..i] ==> c in stripped;
  }

  lemma AllRenderedAreOneLine(template: string, subs: Subs)
    requires OneLiners(subs)
    ensures AllOneLine(RenderLines(Lines(template), subs))
  {
    LinesAreOneLine(template);
    forall i | 0 <= i < |Lines(template)| ensures OneLine(RenderLines(Lines(template), subs)[i]) {
      RenderedIsOneLine(Lines(template)[i], subs);
    }
  }

  lemma TrimReturnsStays(s: string)
    requires s == "" || Last(s) != '\r'
    ensures TrimReturns(s) == s
  {
  }

  lemma {:induction false} EqualsAtOf(key: string, value: string)
    requires '=' !in key
    ensures EqualsAt(key + "=" + value) == |key|
  {
    if key != "" {
      assert (key + "=" + value)[1..] == key[1..] + "=" + value;
      assert key[0] in key;
      EqualsAtOf(key[1..], value);
    }
  }

  /** A line that was rendered is rendered to itself. */
  lemma RenderLineTwice(line: string, subs: Subs)
    ensures RenderLine(RenderLine(line, subs), subs) == RenderLine(line, subs)
  {
    var stripped := TrimReturns(line);
    var key := ManagedKey(stripped, subs);
    TrimReturnsStays(stripped);
    if key.Some? {
      var k := key.value;
      var once := RenderLine(line, subs);
      EqualsAtOf(k, subs[k]);
      assert once == k + "=" + subs[k] && once[..|k|] == k;
      var again := TrimReturns(once);
      TrimmedAssignment(k, subs[k]);
      assert k == "" || k[0] == stripped[0];
      assert again[0] == if k == "" then '=' else k[0];
    }
  }

  /** Trimming an assignment never reaches its `=`. */
  lemma TrimmedAssignment(key: string, value: string)
    requires '=' !in key
    ensures var t := TrimReturns(key + "=" + value);
            |t| > |key| && t[..|key|] == key && EqualsAt(t) == |key|
  {
    hide EqualsAt;
    TrimAppended(key + "=", value);
    var t := TrimReturns(value);
    assert TrimReturns(key + "=" + value) == key + "=" + t;
    EqualsAtOf(key, t);
  }

  lemma {:induction false} TrimAppended(head: string, tail: string)
    requires head != "" && Last(head) != '\r'
    ensures TrimReturns(head + tail) == head + TrimReturns(tail)
    decreases |tail|
  {
    if tail == "" {
      assert head + tail == head;
    } else {
      assert Last(head + tail) == Last(tail) && Front(head + tail) == head + Front(tail);
      if Last(tail) == '\r' {
        TrimAppended(head, Front(tail));
      }
    }
  }

  /** Rendering is idempotent for any substitutions without newlines. */
  lemma RenderIsIdempotent(template: string, subs: Subs)
    requires OneLiners(subs)
    ensures Render(Render(template, subs), subs) == Render(template, subs)
  {
    hide RenderLine, Split, TrimReturns;
    var once := RenderLines(Lines(template), subs);
    AllRenderedAreOneLine(template, subs);
    LinesUnlines(once);
    forall i | 0 <= i < |once| ensures RenderLine(once[i], subs) == once[i] {
      RenderLineTwice(Lines(template)[i], subs);
    }
    assert RenderLines(once, subs) == once;
    if once == [] {
      assert Render(template, subs) == "\n";
      BlankLine(subs);
    }
  }

  lemma BlankLine(subs: Subs)
    ensures Render("\n", subs) == "\n"
  {
    SplitUnlines([""]);
    assert Unlines([""]) == "\n" by { assert Unlines([]) == ""; }
    assert Front(["", ""]) == [""];
    assert RenderLines([""], subs) == [""];
  }

  /** Every line that does not assign a managed key is kept, but for trailing carriage
      returns, and every one that does gets the new value; the lines stay in place. */
  lemma RenderKeepsLines(template: string, subs: Subs, i: nat)
    requires OneLiners(subs) && i < |Lines(template)|
    ensures |Lines(Render(template, subs))| == |Lines(template)|
    ensures var line := TrimReturns(Lines(template)[i]);
            Lines(Render(template, subs))[i] ==
              if ManagedKey(line, subs).None? then line
              else ManagedKey(line, subs).value + "=" + subs[ManagedKey(line, subs).value]
  {
    hide Split, TrimReturns, ManagedKey;
    var once := RenderLines(Lines(template), subs);
    AllRenderedAreOneLine(template, subs);
    LinesUnlines(once);
    assert Unlines(once) != "";
  }
}
