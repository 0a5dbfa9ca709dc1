/** Editing the managed sections of configuration files
    (internal/asterisk/templates.go). */
module ManagedSections {
  import opened Basics
  import opened Text

  const BEGIN := "; BEGIN alice-installer managed: "
  const END := "; END alice-installer managed: "

  lemma MarkHeads()
    ensures |BEGIN| == |END| + 2 && |END| > 2
    ensures BEGIN[0] == END[0] == ';' && BEGIN[1] == ' ' && BEGIN[2] == 'B' && END[2] == 'E'
    ensures '\n' !in BEGIN && '\n' !in END
  {
  }

  function BeginMark(name: string): string {
    BEGIN + name
  }

  function EndMark(name: string): string {
    END + name
  }

  /** `strings.TrimRight(s, "\n")`. */
  function TrimNewlines(s: string): (r: string)
    ensures |r| <= |s| && r == s[..|r|]
    ensures forall i :: |r| <= i < |s| ==> s[i] == '\n'
    ensures r != "" ==> Last(r) != '\n'
  {
    if s != "" && Last(s) == '\n' then TrimNewlines(Front(s)) else s
  }

  function Section(name: string, body: string): string {
    BeginMark(name) + "\n" + TrimNewlines(body) + "\n" + EndMark(name) + "\n"
  }

  predicate NewlineEnded(s: string) {
    s == "" || Last(s) == '\n'
  }

  function Terminated(s: string): string {
    if NewlineEnded(s) then s else s + "\n"
  }

  /** Where the first section of a name stands; `end` is behind its last newline. */
  datatype Place = Unmarked | Unclosed(start: nat) | Closed(start: nat, end: nat)

  function Find(text: string, name: string): (p: Place)
    ensures p.Unclosed? ==> p.start <= |text|
    ensures p.Closed? ==> p.start <= p.end <= |text|
  {
    var start := Index(text, BeginMark(name));
    if start == -1 then Unmarked
    else
      var close := Index(text[start..], EndMark(name));
      if close == -1 then Unclosed(start)
      else
        var end := start + close + |EndMark(name)|;
        Closed(start, if end < |text| && text[end] == '\n' then end + 1 else end)
  }

  /** `ReplaceManagedSection`. */
  function Replace(text: string, name: string, body: string): string {
    match Find(text, name)
    case Unmarked => Terminated(text) + Section(name, body)
    case Unclosed(start) =>
      var prefix := TrimNewlines(text[..start]);
      (if prefix == "" then "" else prefix + "\n") + Section(name, body)
    case Closed(start, end) => text[..start] + Section(name, body) + text[end..]
  }

  /** `RemoveManagedSection`. */
  function Remove(text: string, name: string): string {
    var place := Find(text, name);
    if place.Closed? then text[..place.start] + text[place.end..] else text
  }

  // ------------------------------------------------------------ occurrences

  /** An occurrence of a one-line pattern does not reach over a newline. */
  lemma NotOverNewline(text: string, pattern: string, i: int, newline: int)
    requires OneLine(pattern) && OccursAt(text, pattern, i)
    requires 0 <= newline < |text| && text[newline] == '\n'
    ensures newline < i || i + |pattern| <= newline
  {
    forall j | i <= j < i + |pattern| ensures text[j] != '\n' {
      assert text[j] == pattern[j - i] && pattern[j - i] in pattern;
    }
  }

  lemma OccursInside(text: string, pattern: string, i: int, from: nat, part: string)
    requires from <= i && i + |pattern| <= from + |part| <= |text| && part == text[from..from + |part|]
    ensures OccursAt(text, pattern, i) <==> OccursAt(part, pattern, i - from)
  {
    var a, b := i - from, i - from + |pattern|;
    assert forall k :: 0 <= k < |part| ==> part[k] == text[from + k];
    assert text[i..i + |pattern|] == part[a..b];
  }

  lemma MarksAreOneLine(name: string)
    requires OneLine(name)
    ensures OneLine(BeginMark(name)) && OneLine(EndMark(name)) && |EndMark(name)| == |BeginMark(name)| - 2
    ensures |EndMark(name)| > 2 && EndMark(name)[0] == ';'
  {
    MarkHeads();
  }

  /** The closing mark never occurs inside the opening mark. */
  lemma EndNotInBegin(name: string, i: int)
    ensures !OccursAt(BeginMark(name), EndMark(name), i)
  {
    var b, e := BeginMark(name), EndMark(name);
    MarkHeads();
    assert forall k :: 0 <= k < 3 ==> b[k] == BEGIN[k] && e[k] == END[k];
    if 0 <= i && i + |e| <= |b| {
      assert b[i..i + |e|][0] == b[i] && b[i..i + |e|][2] == b[i + 2];
    }
  }

  /** Where the closing mark of a written section stands, counted from its start. */
  function CloseOffset(name: string, body: string): nat {
    |BeginMark(name)| + 1 + |TrimNewlines(body)| + 1
  }

  lemma SectionParts(name: string, body: string)
    ensures var s := Section(name, body);
            && s[..|BeginMark(name)|] == BeginMark(name) && s[|BeginMark(name)|] == '\n'
            && s[|BeginMark(name)| + 1..CloseOffset(name, body) - 1] == TrimNewlines(body)
            && s[CloseOffset(name, body) - 1] == '\n'
            && s[CloseOffset(name, body)..|s| - 1] == EndMark(name) && Last(s) == '\n'
            && |s| == CloseOffset(name, body) + |EndMark(name)| + 1
  {
    hide BeginMark, EndMark, TrimNewlines;
  }

  lemma TrimKeepsMark(body: string, name: string)
    requires OneLine(name)
    ensures Contains(TrimNewlines(body), EndMark(name)) <==> Contains(body, EndMark(name))
  {
    hide EndMark, Index;
    var t, e := TrimNewlines(body), EndMark(name);
    MarksAreOneLine(name);
    var i, j := Index(body, e), Index(t, e);
    if i >= 0 {
      if |t| < |body| { NotOverNewline(body, e, i, |t|); }
      assert body[i] == body[i..i + |e|][0] == e[0] == ';';
      OccursInside(body, e, i, 0, t);
    }
    if j >= 0 {
      OccursInside(body, e, j, 0, t);
    }
  }

  /** In a written section followed by anything, the first closing mark is the
      section's own exactly when the body holds none; otherwise it comes earlier, in
      the body. */
  lemma FirstClose(name: string, body: string, suffix: string)
    requires OneLine(name)
    ensures var close := Index(Section(name, body) + suffix, EndMark(name));
            if Contains(body, EndMark(name)) then 0 <= close < CloseOffset(name, body) - |EndMark(name)|
            else close == CloseOffset(name, body)
  {
    hide TrimNewlines, BeginMark, EndMark, Section, Index;
    var b, e, t := BeginMark(name), EndMark(name), TrimNewlines(body);
    var s := Section(name, body);
    var all, at := s + suffix, CloseOffset(name, body);
    SectionParts(name, body);
    MarksAreOneLine(name);
    TrimKeepsMark(body, name);
    OccursInside(all, e, at, at, e);
    assert OccursAt(e, e, 0);
    var close := Index(all, e);
    assert 0 <= close <= at;
    NotOverNewline(all, e, close, |b|);
    NotOverNewline(all, e, close, at - 1);
    if close < |b| {
      assert all[0..|b|] == b;
      OccursInside(all, e, close, 0, b);
      EndNotInBegin(name, close);
    }
    assert all[|b| + 1..|b| + 1 + |t|] == t;
    if close < at {
      OccursInside(all, e, close, |b| + 1, t);
    }
    if Contains(body, e) {
      var i := Index(t, e);
      OccursInside(all, e, |b| + 1 + i, |b| + 1, t);
    }
  }

  /** The text before a section holds no opening mark, not even one that would run
      into the section. */
  ghost predicate Clear(prefix: string, name: string) {
    forall i :: 0 <= i < |prefix| ==> !OccursAt(prefix + BeginMark(name), BeginMark(name), i)
  }

  lemma FirstMark(prefix: string, name: string, behind: string)
    requires Clear(prefix, name)
    ensures Index(prefix + BeginMark(name) + behind, BeginMark(name)) == |prefix|
  {
    hide BeginMark;
    var b := BeginMark(name);
    var text := prefix + b + behind;
    assert text[..|prefix| + |b|] == prefix + b;
    forall i | 0 <= i < |prefix| ensures !OccursAt(text, b, i) {
      OccursInside(text, b, i, 0, prefix + b);
    }
    assert OccursAt(text, b, |prefix|) by { assert text[|prefix|..|prefix| + |b|] == b; }
  }

  /** A written section is found where it was written. */
  lemma FindWritten(prefix: string, name: string, body: string, suffix: string)
    requires OneLine(name) && Clear(prefix, name)
    ensures var text, end := prefix + Section(name, body) + suffix, |prefix| + |Section(name, body)|;
            && Find(text, name).Closed? && Find(text, name).start == |prefix|
            && (if Contains(body, EndMark(name)) then Find(text, name).end < end else Find(text, name).end == end)
  {
    hide Section, BeginMark, EndMark, Clear, Index, TrimNewlines;
    var b, s := BeginMark(name), Section(name, body);
    var text := prefix + s + suffix;
    SectionParts(name, body);
    assert text == prefix + b + (s[|b|..] + suffix);
    FirstMark(prefix, name, s[|b|..] + suffix);
    assert text[|prefix|..] == s + suffix;
    FirstClose(name, body, suffix);
    assert text[|prefix| + |s| - 1] == Last(s);
  }

  lemma FoundIsClear(text: string, name: string)
    requires !Find(text, name).Unmarked?
    ensures Clear(text[..Find(text, name).start], name)
  {
    hide BeginMark, EndMark;
    var start, b := Find(text, name).start, BeginMark(name);
    assert text[..start] + b == text[..start + |b|];
    forall i | 0 <= i < start ensures !OccursAt(text[..start] + b, b, i) {
      if i + |b| <= start + |b| {
        OccursInside(text, b, i, 0, text[..start + |b|]);
      }
    }
  }

  /** An unmarked text ending with a newline, or none at all, is clear. */
  lemma UnmarkedIsClear(text: string, name: string)
    requires OneLine(name) && NewlineEnded(text) && Find(text, name).Unmarked?
    ensures Clear(text, name)
  {
    hide BeginMark, EndMark;
    var b := BeginMark(name);
    MarksAreOneLine(name);
    forall i | 0 <= i < |text| ensures !OccursAt(text + b, b, i) {
      assert !OccursAt(text, b, i);
      assert (text + b)[..|text|] == text && (text + b)[|text| - 1] == '\n';
      ClearStep(text, b, i);
    }
  }

  lemma ClearStep(text: string, b: string, i: nat)
    requires OneLine(b) && i < |text| && Last(text) == '\n' && !OccursAt(text, b, i)
    ensures !OccursAt(text + b, b, i)
  {
    if OccursAt(text + b, b, i) {
      NotOverNewline(text + b, b, i, |text| - 1);
    }
    if i + |b| <= |text| {
      OccursInside(text + b, b, i, 0, text);
    }
  }

  /** What stands before the section `Replace` writes, and behind it. */
  function Before(text: string, name: string): string {
    match Find(text, name)
    case Unmarked => Terminated(text)
    case Unclosed(start) => Terminated(TrimNewlines(text[..start]))
    case Closed(start, _) => text[..start]
  }

  function Behind(text: string, name: string): string {
    var place := Find(text, name);
    if place.Closed? then text[place.end..] else ""
  }

  lemma ReplaceMeans(text: string, name: string, body: string)
    ensures Replace(text, name, body) == Before(text, name) + Section(name, body) + Behind(text, name)
  {
    var s := Section(name, body);
    assert Before(text, name) + s + "" == Before(text, name) + s;
  }

  lemma TerminatedIsClear(text: string, name: string)
    requires OneLine(name) && Find(text, name).Unmarked?
    ensures Clear(Terminated(text), name)
  {
    hide BeginMark, EndMark;
    var t, b := Terminated(text), BeginMark(name);
    MarksAreOneLine(name);
    if t != text {
      forall i | 0 <= i < |t| ensures !OccursAt(t, b, i) {
        assert !OccursAt(text, b, i);
        ClearNewline(text, b, i);
      }
      assert Index(t, b) == -1;
    }
    UnmarkedIsClear(t, name);
  }

  lemma ClearNewline(text: string, b: string, i: nat)
    requires OneLine(b) && !OccursAt(text, b, i) && b != ""
    ensures !OccursAt(text + "\n", b, i)
  {
    if OccursAt(text + "\n", b, i) {
      NotOverNewline(text + "\n", b, i, |text|);
    }
    if i + |b| <= |text| {
      OccursInside(text + "\n", b, i, 0, text);
    }
  }

  lemma PrefixIsUnmarked(text: string, name: string, n: nat)
    requires OneLine(name) && n <= |text| && Clear(text, name)
    ensures Find(text[..n], name).Unmarked?
  {
    hide BeginMark, EndMark;
    var b := BeginMark(name);
    MarksAreOneLine(name);
    forall i ensures !OccursAt(text[..n], b, i) {
      if 0 <= i && i + |b| <= n {
        OccursInside(text + b, b, i, 0, text[..n]);
      }
    }
  }

  lemma BeforeIsClear(text: string, name: string)
    requires OneLine(name)
    ensures Clear(Before(text, name), name)
  {
    hide Find, BeginMark, EndMark, Clear, TrimNewlines;
    match Find(text, name)
    case Unmarked => TerminatedIsClear(text, name);
    case Closed(_, _) => FoundIsClear(text, name);
    case Unclosed(start) =>
      FoundIsClear(text, name);
      var kept := TrimNewlines(text[..start]);
      PrefixIsUnmarked(text[..start], name, |kept|);
      TerminatedIsClear(kept, name);
  }

  // -------------------------------------------------------------- theorems

  /** The last writer wins over any original text, exactly when the body written
      first does not hold the closing mark. */
  lemma LastWriterWins(text: string, name: string, first: string, second: string)
    requires OneLine(name)
    ensures Replace(Replace(text, name, first), name, second) == Replace(text, name, second) <==>
            !Contains(first, EndMark(name))
  {
    hide Find, Section, Clear, Before, Behind, EndMark;
    var before, behind := Before(text, name), Behind(text, name);
    var written := Replace(text, name, first);
    ReplaceMeans(text, name, first);
    ReplaceMeans(text, name, second);
    BeforeIsClear(text, name);
    FindWritten(before, name, first, behind);
    var place := Find(written, name);
    assert written[..|before|] == before;
    var end := |before| + |Section(name, first)|;
    assert written[end..] == behind;
    if Contains(first, EndMark(name)) {
      assert |written[place.end..]| > |behind|;
    }
  }

  /** Removing undoes replacing, in the sense of giving what removing from the
      original gives, exactly when the original held a complete section, or held none
      and was empty or ended with a newline. */
  lemma RemoveUndoesReplace(text: string, name: string, body: string)
    requires OneLine(name) && !Contains(body, EndMark(name))
    ensures Remove(Replace(text, name, body), name) == Remove(text, name) <==>
            Find(text, name).Closed? || (Find(text, name).Unmarked? && NewlineEnded(text))
  {
    hide Find, Section, Clear, EndMark, BeginMark, TrimNewlines;
    var before, behind := Before(text, name), Behind(text, name);
    var written := Replace(text, name, body);
    ReplaceMeans(text, name, body);
    BeforeIsClear(text, name);
    FindWritten(before, name, body, behind);
    assert written[..|before|] == before;
    assert written[|before| + |Section(name, body)|..] == behind;
    assert Remove(written, name) == before + behind;
    UnclosedIsLonger(text, name);
  }

  lemma UnclosedIsLonger(text: string, name: string)
    requires OneLine(name)
    ensures Find(text, name).Unclosed? ==> |Before(text, name)| < |text|
  {
    MarksAreOneLine(name);
  }

  /** With a complete section in place, everything outside it is kept as it is. */
  lemma OutsideIsKept(text: string, name: string, body: string)
    requires OneLine(name) && !Contains(body, EndMark(name)) && Find(text, name).Closed?
    ensures var place, written := Find(text, name), Replace(text, name, body);
            var now := Find(written, name);
            && now.Closed? && now.start == place.start
            && written[..now.start] == text[..place.start] && written[now.end..] == text[place.end..]
            && written[now.start..now.end] == Section(name, body)
  {
    hide Find, Section, Clear, EndMark, BeginMark, TrimNewlines;
    ReplaceMeans(text, name, body);
    BeforeIsClear(text, name);
    FindWritten(Before(text, name), name, body, Behind(text, name));
  }
}
