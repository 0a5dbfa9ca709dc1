/** The lexer of static JavaScript configuration (internal/migration/config_parser.go).

    `Lex` reads a suffix of the source; `Document` describes every text that spells a
    token list: any trivia, any quoting, any escaping. The two are proved to be
    inverse to each other. */
module ConfigLexer {
  import opened Basics
  import D = Decimal
  import opened Text

  datatype Token =
    | EndOfFile
    | Identifier(text: string)
    | Str(text: string)
    | Number(text: string)
    | Punct(c: char)
    | Or
    | Nullish

  predicate IdentifierStart(c: char) {
    c == '_' || c == '$' || 'a' <= c <= 'z' || 'A' <= c <= 'Z'
  }

  predicate IdentifierPart(c: char) {
    IdentifierStart(c) || D.IsDigit(c)
  }

  predicate IsPunct(c: char) {
    c in {'{', '}', '[', ']', ':', ',', '.', '=', ';'}
  }

  predicate IsQuote(c: char) { c == '\'' || c == '"' }

  /** What a backslash before `c` stands for inside quotes. */
  function Unescaped(c: char, quote: char): Option<char> {
    if c == 'n' then Some('\n')
    else if c == 'r' then Some('\r')
    else if c == 't' then Some('\t')
    else if c == '\\' || c == quote then Some(c)
    else None
  }

  // --------------------------------------------------------- specification

  function WordEnd(s: string): (n: nat)
    ensures n <= |s| && (forall i :: 0 <= i < n ==> IdentifierPart(s[i])) && (n < |s| ==> !IdentifierPart(s[n]))
  {
    if s == "" || !IdentifierPart(s[0]) then 0 else 1 + WordEnd(s[1..])
  }

  function DigitsEnd(s: string): (n: nat)
    ensures n <= |s| && (forall i :: 0 <= i < n ==> D.IsDigit(s[i])) && (n < |s| ==> !D.IsDigit(s[n]))
  {
    if s == "" || !D.IsDigit(s[0]) then 0 else 1 + DigitsEnd(s[1..])
  }

  function LineEnd(s: string): (n: nat)
    ensures n <= |s| && '\n' !in s[..n] && (n < |s| ==> s[n] == '\n')
  {
    if s == "" || s[0] == '\n' then 0
    else
      var n := 1 + LineEnd(s[1..]);
      assert s[..n] == [s[0]] + s[1..][..n - 1];
      n
  }

  datatype Unquoted = Unquoted(text: string, length: nat)

  /** The content and length of a quoted string after its opening quote. */
  function Unquote(s: string, quote: char): (r: Option<Unquoted>)
    ensures r.Some? ==> 0 < r.value.length <= |s|
  {
    if s == "" then None
    else if s[0] == quote then Some(Unquoted("", 1))
    else if s[0] == '\\' then
      if |s| == 1 || Unescaped(s[1], quote).None? then None
      else Prepend(Unescaped(s[1], quote).value, 2, Unquote(s[2..], quote))
    else Prepend(s[0], 1, Unquote(s[1..], quote))
  }

  function Prepend(c: char, n: nat, r: Option<Unquoted>): Option<Unquoted> {
    if r.None? then None else Some(Unquoted([c] + r.value.text, n + r.value.length))
  }

  function After(tokens: seq<Token>, r: Option<seq<Token>>): Option<seq<Token>> {
    if r.None? then None else Some(tokens + r.value)
  }

  /** What the head of a text is: trivia, a token, or neither. */
  datatype Head = Skipped(length: nat) | Taken(token: Token, length: nat) | Unreadable

  /** The head of a text, as one round of the lexer's loop sees it. */
  function HeadOf(s: string): (h: Head)
    requires s != ""
    ensures !h.Unreadable? ==> 0 < h.length <= |s|
  {
    if IsSpace(s[0]) then Skipped(1)
    else if s[0] == '/' then
      if s[..if |s| > 1 then 2 else 1] == "//" then Skipped(2 + LineEnd(s[2..]))
      else if s[..if |s| > 1 then 2 else 1] == "/*" then
        var end := Index(s[2..], "*/");
        if end < 0 then Unreadable else Skipped(2 + end + 2)
      else Unreadable
    else if IdentifierStart(s[0]) then
      var n := 1 + WordEnd(s[1..]);
      Taken(Identifier(s[..n]), n)
    else if D.IsDigit(s[0]) then
      var n := 1 + DigitsEnd(s[1..]);
      Taken(Number(s[..n]), n)
    else if IsQuote(s[0]) then
      var quoted := Unquote(s[1..], s[0]);
      if quoted.None? then Unreadable else Taken(Str(quoted.value.text), 1 + quoted.value.length)
    else if |s| > 1 && s[..2] == "||" then Taken(Or, 2)
    else if |s| > 1 && s[..2] == "??" then Taken(Nullish, 2)
    else if IsPunct(s[0]) then Taken(Punct(s[0]), 1)
    else Unreadable
  }

  /** The tokens of a source text, ending with one end-of-file token. */
  function Lex(s: string): Option<seq<Token>>
    decreases |s|
  {
    if s == "" then Some([EndOfFile])
    else
      match HeadOf(s)
      case Skipped(n) => Lex(s[n..])
      case Taken(token, n) => After([token], Lex(s[n..]))
      case Unreadable => None
  }

  // -------------------------------------------------------------- documents

  /** A character of a quoted string, written plainly or after a backslash. */
  datatype Item = Plain(c: char) | Escape(c: char)

  datatype Lexeme =
    | Word(text: string)
    | Digits(text: string)
    | Quoted(quote: char, items: seq<Item>)
    | Mark(c: char)
    | OrMark
    | NullishMark

  datatype Trivia = Space(c: char) | LineComment(text: string) | BlockComment(text: string)

  /** Lexemes and trivia in source order; a last line comment needs no newline. */
  datatype Document =
    | End
    | LastComment(text: string)
    | Gap(trivia: Trivia, rest: Document)
    | Piece(lexeme: Lexeme, rest: Document)

  predicate ValidItem(item: Item, quote: char) {
    match item
    case Plain(c) => c != quote && c != '\\'
    case Escape(c) => Unescaped(c, quote).Some?
  }

  predicate ValidLexeme(l: Lexeme) {
    match l
    case Word(text) => text != "" && IdentifierStart(text[0]) && forall i :: 0 <= i < |text| ==> IdentifierPart(text[i])
    case Digits(text) => text != "" && forall i :: 0 <= i < |text| ==> D.IsDigit(text[i])
    case Quoted(quote, items) => IsQuote(quote) && forall i :: 0 <= i < |items| ==> ValidItem(items[i], quote)
    case Mark(c) => IsPunct(c)
    case _ => true
  }

  predicate ValidTrivia(t: Trivia) {
    match t
    case Space(c) => IsSpace(c)
    case LineComment(text) => '\n' !in text
    case BlockComment(text) => Index(text + "*/", "*/") == |text|
  }

  /** Two lexemes the lexer would read as one when nothing separates them. */
  predicate Merges(l: Lexeme, next: Lexeme) {
    || (l.Word? && (next.Word? || next.Digits?))
    || (l.Digits? && next.Digits?)
  }

  predicate ValidDocument(d: Document) {
    match d
    case End => true
    case LastComment(text) => '\n' !in text
    case Gap(t, rest) => ValidTrivia(t) && ValidDocument(rest)
    case Piece(l, rest) => ValidLexeme(l) && ValidDocument(rest) && !(rest.Piece? && Merges(l, rest.lexeme))
  }

  function ItemText(item: Item): string {
    match item
    case Plain(c) => [c]
    case Escape(c) => ['\\', c]
  }

  function ItemsText(items: seq<Item>): string {
    if items == [] then "" else ItemText(items[0]) + ItemsText(items[1..])
  }

  function ItemValue(item: Item, quote: char): char
    requires ValidItem(item, quote)
  {
    match item
    case Plain(c) => c
    case Escape(c) => Unescaped(c, quote).value
  }

  function ItemsValue(items: seq<Item>, quote: char): string
    requires forall i :: 0 <= i < |items| ==> ValidItem(items[i], quote)
  {
    if items == [] then "" else [ItemValue(items[0], quote)] + ItemsValue(items[1..], quote)
  }

  function LexemeText(l: Lexeme): string {
    match l
    case Word(text) => text
    case Digits(text) => text
    case Quoted(quote, items) => [quote] + ItemsText(items) + [quote]
    case Mark(c) => [c]
    case OrMark => "||"
    case NullishMark => "??"
  }

  function TriviaText(t: Trivia): string {
    match t
    case Space(c) => [c]
    case LineComment(text) => "//" + text + "\n"
    case BlockComment(text) => "/*" + text + "*/"
  }

  function DocumentText(d: Document): string {
    match d
    case End => ""
    case LastComment(text) => "//" + text
    case Gap(t, rest) => TriviaText(t) + DocumentText(rest)
    case Piece(l, rest) => LexemeText(l) + DocumentText(rest)
  }

  function LexemeToken(l: Lexeme): Token
    requires ValidLexeme(l)
  {
    match l
    case Word(text) => Identifier(text)
    case Digits(text) => Number(text)
    case Quoted(quote, items) => Str(ItemsValue(items, quote))
    case Mark(c) => Punct(c)
    case OrMark => Or
    case NullishMark => Nullish
  }

  function DocumentTokens(d: Document): seq<Token>
    requires ValidDocument(d)
  {
    match d
    case End => []
    case LastComment(_) => []
    case Gap(_, rest) => DocumentTokens(rest)
    case Piece(l, rest) => [LexemeToken(l)] + DocumentTokens(rest)
  }

  // ------------------------------------------------- documents are lexed back

  lemma {:induction false} WordEndOf(word: string, rest: string)
    requires forall i :: 0 <= i < |word| ==> IdentifierPart(word[i])
    requires rest == "" || !IdentifierPart(rest[0])
    ensures WordEnd(word + rest) == |word|
  {
    if word == "" {
      assert word + rest == rest;
    } else {
      assert (word + rest)[1..] == word[1..] + rest;
      WordEndOf(word[1..], rest);
    }
  }

  lemma {:induction false} DigitsEndOf(word: string, rest: string)
    requires forall i :: 0 <= i < |word| ==> D.IsDigit(word[i])
    requires rest == "" || !D.IsDigit(rest[0])
    ensures DigitsEnd(word + rest) == |word|
  {
    if word == "" {
      assert word + rest == rest;
    } else {
      assert (word + rest)[1..] == word[1..] + rest;
      DigitsEndOf(word[1..], rest);
    }
  }

  lemma {:induction false} LineEndOf(line: string, rest: string)
    requires '\n' !in line
    requires rest == "" || rest[0] == '\n'
    ensures LineEnd(line + rest) == |line|
  {
    if line == "" {
      assert line + rest == rest;
    } else {
      assert (line + rest)[1..] == line[1..] + rest;
      assert line[0] in line;
      LineEndOf(line[1..], rest);
    }
  }

  lemma {:induction false} UnquoteOf(items: seq<Item>, quote: char, rest: string)
    requires IsQuote(quote) && forall i :: 0 <= i < |items| ==> ValidItem(items[i], quote)
    ensures Unquote(ItemsText(items) + [quote] + rest, quote) ==
            Some(Unquoted(ItemsValue(items, quote), |ItemsText(items)| + 1))
  {
    if items == [] {
      assert ItemsText(items) + [quote] + rest == [quote] + rest;
    } else {
      var tail := ItemsText(items[1..]) + [quote] + rest;
      UnquoteOf(items[1..], quote, rest);
      assert ItemsText(items) + [quote] + rest == ItemText(items[0]) + tail;
      assert (ItemText(items[0]) + tail)[|ItemText(items[0])|..] == tail;
    }
  }

  /** The rest of a document does not extend the lexeme before it. */
  predicate Ends(l: Lexeme, rest: string) {
    && (l.Word? ==> rest == "" || !IdentifierPart(rest[0]))
    && (l.Digits? ==> rest == "" || !D.IsDigit(rest[0]))
  }

  lemma NextIsSeparate(l: Lexeme, d: Document)
    requires ValidDocument(Piece(l, d))
    ensures Ends(l, DocumentText(d))
  {
    match d
    case End =>
    case LastComment(text) => assert DocumentText(d)[0] == '/';
    case Gap(t, rest) => assert DocumentText(d)[0] == TriviaText(t)[0];
    case Piece(next, rest) => assert DocumentText(d)[0] == LexemeText(next)[0];
  }

  lemma HeadOfWord(text: string, rest: string)
    requires ValidLexeme(Word(text)) && Ends(Word(text), rest)
    ensures HeadOf(text + rest) == Taken(Identifier(text), |text|)
  {
    var s := text + rest;
    assert s[0] == text[0] && s[1..] == text[1..] + rest;
    WordEndOf(text[1..], rest);
    assert s[..|text|] == text;
  }

  lemma HeadOfDigits(text: string, rest: string)
    requires ValidLexeme(Digits(text)) && Ends(Digits(text), rest)
    ensures HeadOf(text + rest) == Taken(Number(text), |text|)
  {
    var s := text + rest;
    assert s[0] == text[0] && s[1..] == text[1..] + rest;
    DigitsEndOf(text[1..], rest);
    assert s[..|text|] == text;
  }

  lemma HeadOfQuoted(quote: char, items: seq<Item>, rest: string)
    requires ValidLexeme(Quoted(quote, items))
    ensures HeadOf(LexemeText(Quoted(quote, items)) + rest) ==
            Taken(Str(ItemsValue(items, quote)), |LexemeText(Quoted(quote, items))|)
  {
    var s := LexemeText(Quoted(quote, items)) + rest;
    assert s[0] == quote && s[1..] == ItemsText(items) + [quote] + rest;
    UnquoteOf(items, quote, rest);
  }

  lemma HeadOfLexeme(l: Lexeme, rest: string)
    requires ValidLexeme(l) && Ends(l, rest)
    ensures LexemeText(l) != "" && HeadOf(LexemeText(l) + rest) == Taken(LexemeToken(l), |LexemeText(l)|)
  {
    match l
    case Word(text) => HeadOfWord(text, rest);
    case Digits(text) => HeadOfDigits(text, rest);
    case Quoted(quote, items) => HeadOfQuoted(quote, items, rest);
    case _ => HeadOfMark(l, rest);
  }

  lemma HeadOfMark(l: Lexeme, rest: string)
    requires ValidLexeme(l) && Ends(l, rest) && (l.Mark? || l.OrMark? || l.NullishMark?)
    ensures LexemeText(l) != "" && HeadOf(LexemeText(l) + rest) == Taken(LexemeToken(l), |LexemeText(l)|)
  {
    hide Unquote, WordEnd, DigitsEnd, LineEnd, Index;
    match l
    case Mark(c) => assert (LexemeText(l) + rest)[0] == c;
    case OrMark => assert ("||" + rest)[..2] == "||" && ("||" + rest)[0] == '|';
    case NullishMark => assert ("??" + rest)[..2] == "??" && ("??" + rest)[0] == '?';
  }

  lemma HeadOfTrivia(t: Trivia, rest: string)
    requires ValidTrivia(t)
    ensures TriviaText(t) != "" && HeadOf(TriviaText(t) + rest).Skipped?
    ensures t.LineComment? ==> HeadOf(TriviaText(t) + rest).length == |TriviaText(t)| - 1
    ensures !t.LineComment? ==> HeadOf(TriviaText(t) + rest).length == |TriviaText(t)|
  {
    match t
    case Space(c) => assert ([c] + rest)[0] == c;
    case LineComment(text) => HeadOfLine(text, rest);
    case BlockComment(text) => HeadOfBlock(text, rest);
  }

  lemma HeadOfLine(text: string, rest: string)
    requires '\n' !in text
    ensures HeadOf("//" + text + "\n" + rest) == Skipped(2 + |text|)
  {
    var s := "//" + text + "\n" + rest;
    assert s[0] == '/' && s[..2] == "//" && s[2..] == text + ("\n" + rest);
    LineEndOf(text, "\n" + rest);
  }

  lemma HeadOfBlock(text: string, rest: string)
    requires Index(text + "*/", "*/") == |text|
    ensures HeadOf("/*" + text + "*/" + rest) == Skipped(|text| + 4)
  {
    var s := "/*" + text + "*/" + rest;
    assert s[0] == '/' && s[..2] == "/*" && s[2..] == text + "*/" + rest;
    FirstClose(text, rest);
  }

  /** One round of the loop. */
  lemma LexHead(head: string, rest: string)
    requires head != "" && !HeadOf(head + rest).Unreadable? && HeadOf(head + rest).length == |head|
    ensures Lex(head + rest) ==
            if HeadOf(head + rest).Skipped? then Lex(rest) else After([HeadOf(head + rest).token], Lex(rest))
  {
    assert (head + rest)[|head|..] == rest;
  }

  lemma LexTrivia(t: Trivia, rest: string)
    requires ValidTrivia(t)
    ensures Lex(TriviaText(t) + rest) == Lex(rest)
  {
    hide Lex, HeadOf;
    HeadOfTrivia(t, rest);
    if t.LineComment? {
      var head := "//" + t.text;
      assert TriviaText(t) + rest == head + ("\n" + rest);
      LexHead(head, "\n" + rest);
      HeadOfTrivia(Space('\n'), rest);
      LexHead("\n", rest);
    } else {
      LexHead(TriviaText(t), rest);
    }
  }

  lemma FirstClose(text: string, rest: string)
    requires Index(text + "*/", "*/") == |text|
    ensures Index(text + "*/" + rest, "*/") == |text|
  {
    var short, long := text + "*/", text + "*/" + rest;
    assert OccursAt(long, "*/", |text|) by { assert long[|text|..|text| + 2] == "*/"; }
    var i := Index(long, "*/");
    if i < |text| {
      assert long[i..i + 2] == short[i..i + 2];
      assert OccursAt(short, "*/", i);
    }
  }

  /** Lexing the text of any valid document, whatever its trivia, quotes and escapes,
      gives back exactly its tokens. */
  lemma {:induction false} LexDocument(d: Document)
    requires ValidDocument(d)
    ensures Lex(DocumentText(d)) == Some(DocumentTokens(d) + [EndOfFile])
    decreases d
  {
    hide Lex, LexemeText, LexemeToken, TriviaText, HeadOf, ValidTrivia, ValidLexeme;
    match d
    case End =>
      LexEnd();
      assert DocumentTokens(d) + [EndOfFile] == [EndOfFile];
    case LastComment(text) =>
      LexLast(text);
      assert DocumentTokens(d) + [EndOfFile] == [EndOfFile];
    case Gap(t, rest) =>
      LexTrivia(t, DocumentText(rest));
      LexDocument(rest);
    case Piece(l, rest) =>
      LexDocument(rest);
      NextIsSeparate(l, rest);
      HeadOfLexeme(l, DocumentText(rest));
      LexHead(LexemeText(l), DocumentText(rest));
      var head, tail := [LexemeToken(l)], DocumentTokens(rest);
      assert head + (tail + [EndOfFile]) == head + tail + [EndOfFile];
  }

  lemma LexEnd()
    ensures Lex("") == Some([EndOfFile])
  {
  }

  lemma LexLast(text: string)
    requires '\n' !in text
    ensures Lex("//" + text) == Some([EndOfFile])
  {
    var s := "//" + text;
    assert s[..2] == "//" && s[2..] == text && text + "" == text;
    LineEndOf(text, "");
    assert text[|text|..] == "";
  }

  // --------------------------------------- whatever is lexed is a document

  lemma FirstItem(s: string, quote: char) returns (item: Item)
    requires IsQuote(quote) && s != "" && s[0] != quote && Unquote(s, quote).Some?
    ensures ValidItem(item, quote) && |ItemText(item)| <= |s| && s[..|ItemText(item)|] == ItemText(item)
    ensures Unquote(s, quote) == Prepend(ItemValue(item, quote), |ItemText(item)|, Unquote(s[|ItemText(item)|..], quote))
  {
    if s[0] == '\\' {
      item := Escape(s[1]);
    } else {
      item := Plain(s[0]);
    }
  }

  lemma AtClosingQuote(s: string, quote: char)
    requires s != "" && s[0] == quote
    ensures Unquote(s, quote) == Some(Unquoted("", 1)) && s[..1] == [quote]
  {
  }

  lemma {:induction false} ItemsOf(s: string, quote: char) returns (items: seq<Item>)
    requires IsQuote(quote) && Unquote(s, quote).Some?
    ensures forall i :: 0 <= i < |items| ==> ValidItem(items[i], quote)
    ensures s[..Unquote(s, quote).value.length] == ItemsText(items) + [quote]
    ensures Unquote(s, quote).value.text == ItemsValue(items, quote)
    decreases |s|
  {
    hide Unquote, ValidItem, ItemText, ItemValue;
    NotEmpty(s, quote);
    if s[0] == quote {
      items := [];
      AtClosingQuote(s, quote);
    } else {
      var item := FirstItem(s, quote);
      var n := |ItemText(item)|;
      ItemNotEmpty(item);
      var rest := ItemsOf(s[n..], quote);
      items := [item] + rest;
      assert items[1..] == rest;
      var length := Unquote(s[n..], quote).value.length;
      assert s[..n + length] == s[..n] + s[n..][..length];
    }
  }

  lemma NotEmpty(s: string, quote: char)
    requires Unquote(s, quote).Some?
    ensures s != ""
  {
  }

  lemma ItemNotEmpty(item: Item)
    ensures |ItemText(item)| > 0
  {
  }

  lemma LexemeOf(s: string) returns (l: Lexeme)
    requires s != "" && HeadOf(s).Taken?
    ensures ValidLexeme(l) && LexemeText(l) == s[..HeadOf(s).length] && LexemeToken(l) == HeadOf(s).token
    ensures Ends(l, s[HeadOf(s).length..])
  {
    var token, n := HeadOf(s).token, HeadOf(s).length;
    if IdentifierStart(s[0]) {
      l := Word(s[..n]);
      assert forall i :: 1 <= i < n ==> s[i] == s[1..][i - 1];
      assert n < |s| ==> s[n] == s[1..][n - 1];
    } else if D.IsDigit(s[0]) {
      l := Digits(s[..n]);
      assert forall i :: 1 <= i < n ==> s[i] == s[1..][i - 1];
      assert n < |s| ==> s[n] == s[1..][n - 1];
    } else if IsQuote(s[0]) {
      var items := ItemsOf(s[1..], s[0]);
      l := Quoted(s[0], items);
      assert s[..n] == [s[0]] + s[1..][..n - 1];
    } else if token.Or? {
      l := OrMark;
    } else if token.Nullish? {
      l := NullishMark;
    } else {
      l := Mark(s[0]);
    }
  }

  /** The trivia at the head of a text, or nothing when it is a last line comment. */
  lemma TriviaOf(s: string) returns (t: Trivia, text: string)
    requires s != "" && HeadOf(s).Skipped?
    ensures ValidTrivia(t)
    ensures t.LineComment? ==>
              if HeadOf(s).length == |s| then '\n' !in text && s == "//" + text
              else s[..HeadOf(s).length + 1] == TriviaText(t)
    ensures !t.LineComment? ==> s[..HeadOf(s).length] == TriviaText(t)
  {
    var n := HeadOf(s).length;
    if IsSpace(s[0]) {
      t, text := Space(s[0]), "";
    } else if s[1] == '/' {
      text := s[2..][..n - 2];
      t := LineComment(text);
      if n == |s| {
        assert s == s[..2] + s[2..] && s[2..][..n - 2] == s[2..];
      } else {
        assert s[n] == s[2..][n - 2];
        assert s[..n + 1] == s[..2] + text + [s[n]];
      }
    } else {
      text := s[2..][..n - 4];
      t := BlockComment(text);
      var end := n - 4;
      assert s[2..][end..end + 2] == "*/";
      assert s[..n] == s[..2] + text + "*/";
      NoEarlierClose(s[2..], end);
    }
  }

  lemma NoEarlierClose(s: string, end: int)
    requires Index(s, "*/") == end && end >= 0
    ensures Index(s[..end] + "*/", "*/") == end
  {
    var short := s[..end] + "*/";
    assert short == s[..end + 2];
    assert OccursAt(short, "*/", end) by { assert short[end..end + 2] == "*/"; }
    var i := Index(short, "*/");
    if i < end {
      assert s[i..i + 2] == short[i..i + 2];
      assert OccursAt(s, "*/", i);
    }
  }

  /** The lexer accepts nothing else: every text it accepts is the text of a valid
      document with exactly the tokens it returned. */
  lemma {:induction false} LexedIsDocument(s: string) returns (d: Document)
    requires Lex(s).Some?
    ensures ValidDocument(d) && DocumentText(d) == s
    ensures Lex(s) == Some(DocumentTokens(d) + [EndOfFile])
    decreases |s|
  {
    hide HeadOf, LexemeText, LexemeToken, TriviaText, ValidTrivia, ValidLexeme;
    if s == "" {
      d := End;
    } else {
      var n := HeadOf(s).length;
      assert s == s[..n] + s[n..];
      if HeadOf(s).Skipped? {
        var t, text := TriviaOf(s);
        if t.LineComment? && n == |s| {
          d := LastComment(text);
          LexLast(text);
        } else if t.LineComment? {
          assert s == s[..n + 1] + s[n + 1..];
          LexTrivia(t, s[n + 1..]);
          var rest := LexedIsDocument(s[n + 1..]);
          d := Gap(t, rest);
        } else {
          var rest := LexedIsDocument(s[n..]);
          d := Gap(t, rest);
        }
      } else {
        var l := LexemeOf(s);
        var rest := LexedIsDocument(s[n..]);
        d := Piece(l, rest);
        if rest.Piece? {
          MergedWouldExtend(l, rest);
        }
      }
    }
    assert DocumentText(d) == s;
    LexDocument(d);
  }

  lemma MergedWouldExtend(l: Lexeme, next: Document)
    requires next.Piece? && ValidDocument(next) && Ends(l, DocumentText(next))
    ensures !Merges(l, next.lexeme)
  {
    assert next.lexeme.Word? || next.lexeme.Digits? ==> DocumentText(next)[0] == next.lexeme.text[0];
  }

  // ------------------------------------------ every token list can be spelled

  predicate Spellable(t: Token) {
    match t
    case EndOfFile => false
    case Identifier(text) => ValidLexeme(Word(text))
    case Number(text) => ValidLexeme(Digits(text))
    case Punct(c) => IsPunct(c)
    case _ => true
  }

  /** A string between double quotes, escaping only what must be. */
  function Escaped(s: string): (items: seq<Item>)
    ensures forall i :: 0 <= i < |items| ==> ValidItem(items[i], '"')
    ensures ItemsValue(items, '"') == s
  {
    if s == "" then []
    else
      var item := if s[0] == '"' || s[0] == '\\' then Escape(s[0]) else Plain(s[0]);
      var items := [item] + Escaped(s[1..]);
      assert items[1..] == Escaped(s[1..]);
      items
  }

  function Spelled(t: Token): (l: Lexeme)
    requires Spellable(t)
    ensures ValidLexeme(l) && LexemeToken(l) == t
  {
    match t
    case Identifier(text) => Word(text)
    case Number(text) => Digits(text)
    case Str(text) => Quoted('"', Escaped(text))
    case Punct(c) => Mark(c)
    case Or => OrMark
    case Nullish => NullishMark
  }

  /** The tokens printed one after the other with a space after each. */
  function Printed(tokens: seq<Token>): (d: Document)
    requires forall i :: 0 <= i < |tokens| ==> Spellable(tokens[i])
    ensures ValidDocument(d) && DocumentTokens(d) == tokens
  {
    if tokens == [] then End else Piece(Spelled(tokens[0]), Gap(Space(' '), Printed(tokens[1..])))
  }

  /** Printing any token list and lexing it returns that list and the end of file. */
  lemma LexPrinted(tokens: seq<Token>)
    requires forall i :: 0 <= i < |tokens| ==> Spellable(tokens[i])
    ensures Lex(DocumentText(Printed(tokens))) == Some(tokens + [EndOfFile])
  {
    LexDocument(Printed(tokens));
  }

  // -------------------------------------------------------- implementation

  method ScanWord(source: string, start: nat) returns (i: nat)
    requires start <= |source|
    ensures i == start + WordEnd(source[start..])
  {
    i := start;
    while i < |source| && IdentifierPart(source[i])
      invariant start <= i <= |source|
      invariant i + WordEnd(source[i..]) == start + WordEnd(source[start..])
    {
      assert source[i..][1..] == source[i + 1..];
      i := i + 1;
    }
  }

  method ScanDigits(source: string, start: nat) returns (i: nat)
    requires start <= |source|
    ensures i == start + DigitsEnd(source[start..])
  {
    i := start;
    while i < |source| && D.IsDigit(source[i])
      invariant start <= i <= |source|
      invariant i + DigitsEnd(source[i..]) == start + DigitsEnd(source[start..])
    {
      assert source[i..][1..] == source[i + 1..];
      i := i + 1;
    }
  }

  method ScanLine(source: string, start: nat) returns (i: nat)
    requires start <= |source|
    ensures i == start + LineEnd(source[start..])
  {
    i := start;
    while i < |source| && source[i] != '\n'
      invariant start <= i <= |source|
      invariant i + LineEnd(source[i..]) == start + LineEnd(source[start..])
    {
      assert source[i..][1..] == source[i + 1..];
      i := i + 1;
    }
  }

  /** The position of the closing mark of a block comment, or -1. */
  method ScanBlock(source: string, start: nat) returns (end: int)
    requires start <= |source|
    ensures end == if Index(source[start..], "*/") < 0 then -1 else start + Index(source[start..], "*/")
  {
    var rest := source[start..];
    end := start;
    while end + 1 < |source| && (source[end] != '*' || source[end + 1] != '/')
      invariant start <= end <= |source|
      invariant forall k :: 0 <= k < end - start ==> !OccursAt(rest, "*/", k)
    {
      assert rest[end - start..end - start + 2] == [source[end], source[end + 1]];
      end := end + 1;
    }
    if end + 1 >= |source| {
      return -1;
    }
    assert rest[end - start..end - start + 2] == [source[end], source[end + 1]];
    assert OccursAt(rest, "*/", end - start);
  }

  lemma PrependPiece(a: string, c: char, text: string)
    ensures a + ([c] + text) == a + [c] + text
  {
  }

  function Append(out: string, n: nat, r: Option<Unquoted>): Option<Unquoted> {
    if r.None? then None else Some(Unquoted(out + r.value.text, n + r.value.length))
  }

  method ScanString(source: string, start: nat, quote: char) returns (r: Option<Unquoted>)
    requires start <= |source|
    ensures r == Unquote(source[start..], quote)
  {
    hide Unquote, Unescaped;
    var i, out := start, "";
    assert Append("", 0, Unquote(source[start..], quote)) == Unquote(source[start..], quote) by {
      if Unquote(source[start..], quote).Some? {
        assert "" + Unquote(source[start..], quote).value.text == Unquote(source[start..], quote).value.text;
      }
    }
    while i < |source|
      invariant start <= i <= |source|
      invariant Append(out, i - start, Unquote(source[i..], quote)) == Unquote(source[start..], quote)
    {
      UnquoteEnds(source[i..], quote);
      if source[i] == quote {
        assert out + "" == out;
        return Some(Unquoted(out, i + 1 - start));
      }
      if source[i] == '\\' {
        if i + 1 >= |source| || Unescaped(source[i + 1], quote).None? {
          return None;
        }
        UnquoteStep(source[i..], quote, out, i - start);
        assert source[i..][2..] == source[i + 2..];
        out := out + [Unescaped(source[i + 1], quote).value];
        i := i + 2;
        continue;
      }
      UnquoteStep(source[i..], quote, out, i - start);
      assert source[i..][1..] == source[i + 1..];
      out := out + [source[i]];
      i := i + 1;
    }
    UnquoteEnds(source[i..], quote);
    return None;
  }

  /** The ways a quoted string ends. */
  lemma UnquoteEnds(s: string, quote: char)
    ensures s == "" ==> Unquote(s, quote) == None
    ensures s != "" && s[0] == quote ==> Unquote(s, quote) == Some(Unquoted("", 1))
    ensures s != "" && s[0] != quote && s[0] == '\\' && (|s| == 1 || Unescaped(s[1], quote).None?) ==> Unquote(s, quote) == None
  {
  }

  lemma UnquoteStep(s: string, quote: char, out: string, n: nat)
    requires s != "" && s[0] != quote
    ensures s[0] == '\\' && |s| > 1 && Unescaped(s[1], quote).Some? ==>
              Append(out, n, Unquote(s, quote)) == Append(out + [Unescaped(s[1], quote).value], n + 2, Unquote(s[2..], quote))
    ensures s[0] != '\\' ==>
              Append(out, n, Unquote(s, quote)) == Append(out + [s[0]], n + 1, Unquote(s[1..], quote))
  {
    if s[0] == '\\' {
      if |s| > 1 && Unescaped(s[1], quote).Some? && Unquote(s[2..], quote).Some? {
        PrependPiece(out, Unescaped(s[1], quote).value, Unquote(s[2..], quote).value.text);
      }
    } else if Unquote(s[1..], quote).Some? {
      PrependPiece(out, s[0], Unquote(s[1..], quote).value.text);
    }
  }

  /** The branches of `lex`, at one position. */
  method ScanHead(source: string, at: nat) returns (h: Head)
    requires at < |source|
    ensures h == HeadOf(source[at..])
  {
    hide Unquote, Index, WordEnd, DigitsEnd, LineEnd;
    var c := source[at];
    ghost var s := source[at..];
    assert s[0] == c && s[1..] == source[at + 1..];
    if IsSpace(c) {
      return Skipped(1);
    }
    assert at + 1 < |source| ==> s[..2] == [c, source[at + 1]] && s[2..] == source[at + 2..];
    if c == '/' && at + 1 < |source| && source[at + 1] == '/' {
      var end := ScanLine(source, at + 2);
      return Skipped(end - at);
    }
    if c == '/' && at + 1 < |source| && source[at + 1] == '*' {
      var end := ScanBlock(source, at + 2);
      if end < 0 {
        return Unreadable;
      }
      return Skipped(end + 2 - at);
    }
    if IdentifierStart(c) {
      var end := ScanWord(source, at + 1);
      assert s[..end - at] == source[at..end];
      return Taken(Identifier(source[at..end]), end - at);
    }
    if D.IsDigit(c) {
      var end := ScanDigits(source, at + 1);
      assert s[..end - at] == source[at..end];
      return Taken(Number(source[at..end]), end - at);
    }
    if IsQuote(c) {
      var quoted := ScanString(source, at + 1, c);
      if quoted.None? {
        return Unreadable;
      }
      return Taken(Str(quoted.value.text), 1 + quoted.value.length);
    }
    if at + 1 < |source| && c == '|' && source[at + 1] == '|' {
      return Taken(Or, 2);
    }
    if at + 1 < |source| && c == '?' && source[at + 1] == '?' {
      return Taken(Nullish, 2);
    }
    if IsPunct(c) {
      return Taken(Punct(c), 1);
    }
    return Unreadable;
  }

  /** `lex`. */
  method LexSource(source: string) returns (result: Option<seq<Token>>)
    ensures result == Lex(source)
  {
    hide HeadOf;
    var tokens: seq<Token> := [];
    var i := 0;
    assert source[0..] == source;
    AfterNothing(Lex(source));
    while i < |source|
      invariant 0 <= i <= |source|
      invariant After(tokens, Lex(source[i..])) == Lex(source)
    {
      var head := ScanHead(source, i);
      if head.Unreadable? {
        return None;
      }
      assert source[i..][head.length..] == source[i + head.length..];
      if head.Taken? {
        AfterTwice(tokens, head.token, Lex(source[i + head.length..]));
        tokens := tokens + [head.token];
      }
      i := i + head.length;
    }
    return Some(tokens + [EndOfFile]);
  }

  lemma AfterNothing(r: Option<seq<Token>>)
    ensures After([], r) == r
  {
    if r.Some? {
      assert [] + r.value == r.value;
    }
  }

  lemma AfterTwice(tokens: seq<Token>, t: Token, r: Option<seq<Token>>)
    ensures After(tokens, After([t], r)) == After(tokens + [t], r)
  {
    if r.Some? {
      assert tokens + ([t] + r.value) == tokens + [t] + r.value;
    }
  }
}
