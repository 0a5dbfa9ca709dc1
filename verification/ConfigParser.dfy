/** The parser of static JavaScript configuration (internal/migration/config_parser.go).

    The `Parse...` functions say what the parser does with the tokens that are left.
    `Config` is the abstract syntax of everything it accepts; printing and parsing
    are proved to be inverse to each other. */
module ConfigParser {
  import opened Basics
  import D = Decimal
  import opened ConfigLexer

  /** A literal, or an environment variable with a literal to fall back on. A string
      literal has number 0, a number literal the empty text. */
  datatype ConfigValue = Literal(text: string, number: nat) | Environment(name: string, text: string, number: nat)

  type Fields = map<string, ConfigValue>

  predicate IsRequiredField(name: string) {
    name in {"dialect", "database", "username", "password", "host", "port"}
  }

  /** `strconv.Atoi` of a number token, which holds digits only. */
  function Atoi(digits: string): Option<nat> {
    D.ParseUint(digits, D.MAX_INT)
  }

  // ---------------------------------------------------- what the parser does

  type Tokens = seq<Token>

  function Current(ts: Tokens): Token {
    if ts == [] then EndOfFile else ts[0]
  }

  predicate Takes(ts: Tokens, t: Token) {
    ts != [] && ts[0] == t
  }

  function ParseLiteral(ts: Tokens): (r: Option<(ConfigValue, Tokens)>)
    ensures r.Some? ==> |r.value.1| < |ts| && r.value.0.Literal?
  {
    if Current(ts).Str? then Some((Literal(ts[0].text, 0), ts[1..]))
    else if Current(ts).Number? && Atoi(ts[0].text).Some? then Some((Literal("", Atoi(ts[0].text).value), ts[1..]))
    else None
  }

  /** `value`. */
  function ParseValue(ts: Tokens): (r: Option<(ConfigValue, Tokens)>)
    ensures r.Some? ==> |r.value.1| < |ts|
  {
    if Current(ts).Str? || Current(ts).Number? then ParseLiteral(ts)
    else if |ts| < 6 || ts[0] != Identifier("process") || ts[1] != Punct('.') || ts[2] != Identifier("env")
            || ts[3] != Punct('.') || !ts[4].Identifier? || (!ts[5].Or? && !ts[5].Nullish?) then None
    else
      var fallback := ParseLiteral(ts[6..]);
      if fallback.None? then None
      else
        var (literal, rest) := fallback.value;
        Some((Environment(ts[4].text, literal.text, literal.number), rest))
  }

  /** `key`, followed by a colon. */
  function ParseKey(ts: Tokens): (r: Option<(string, Tokens)>)
    ensures r.Some? ==> |r.value.1| < |ts|
  {
    if |ts| < 2 || (!ts[0].Identifier? && !ts[0].Str?) || ts[1] != Punct(':') then None
    else Some((ts[0].text, ts[2..]))
  }

  predicate IsWord(t: Token) {
    t.Identifier? && t.text in {"true", "false", "null"}
  }

  /** `skipStaticValue`: what is left behind a static value. */
  function SkipStatic(ts: Tokens): (r: Option<Tokens>)
    ensures r.Some? ==> |r.value| < |ts|
    decreases |ts|, 2
  {
    var t := Current(ts);
    if t.Str? || t.Number? || IsWord(t) then Some(ts[1..])
    else if t == Identifier("process") then
      var value := ParseValue(ts);
      if value.None? then None else Some(value.value.1)
    else if t == Punct('{') then SkipMembers(ts[1..], {})
    else if t == Punct('[') then SkipElements(ts[1..])
    else None
  }

  function SkipMembers(ts: Tokens, seen: set<string>): (r: Option<Tokens>)
    ensures r.Some? ==> |r.value| < |ts|
    decreases |ts|, 1
  {
    if Takes(ts, Punct('}')) then Some(ts[1..])
    else
      var key := ParseKey(ts);
      if key.None? || key.value.0 in seen then None
      else
        var value := SkipStatic(key.value.1);
        if value.None? then None
        else if Takes(value.value, Punct('}')) then Some(value.value[1..])
        else if Takes(value.value, Punct(',')) then SkipMembers(value.value[1..], seen + {key.value.0})
        else None
  }

  function SkipElements(ts: Tokens): (r: Option<Tokens>)
    ensures r.Some? ==> |r.value| < |ts|
    decreases |ts|, 3
  {
    if Takes(ts, Punct(']')) then Some(ts[1..])
    else
      var value := SkipStatic(ts);
      if value.None? then None
      else if Takes(value.value, Punct(']')) then Some(value.value[1..])
      else if Takes(value.value, Punct(',')) then SkipElements(value.value[1..])
      else None
  }

  /** The loop of `fields`: only required fields are kept, and only they are checked
      for repetition. */
  function ParseFields(ts: Tokens, found: Fields): (r: Option<(Fields, Tokens)>)
    ensures r.Some? ==> |r.value.1| < |ts|
    decreases |ts|
  {
    if Takes(ts, Punct('}')) then Some((found, ts[1..]))
    else
      var key := ParseKey(ts);
      if key.None? || key.value.0 in found then None
      else
        var member := ParseField(key.value.1, key.value.0, found);
        if member.None? then None
        else
          var (now, rest) := member.value;
          if Takes(rest, Punct('}')) then Some((now, rest[1..]))
          else if Takes(rest, Punct(',')) then ParseFields(rest[1..], now)
          else None
  }

  function ParseField(ts: Tokens, key: string, found: Fields): (r: Option<(Fields, Tokens)>)
    ensures r.Some? ==> |r.value.1| < |ts|
  {
    if IsRequiredField(key) then
      var value := ParseValue(ts);
      if value.None? then None else Some((found[key := value.value.0], value.value.1))
    else
      var rest := SkipStatic(ts);
      if rest.None? then None else Some((found, rest.value))
  }

  /** The loop of `object`. */
  function ParseEntries(ts: Tokens, selected: string, seen: set<string>, fields: Option<Fields>)
    : (r: Option<(Option<Fields>, Tokens)>)
    ensures r.Some? ==> |r.value.1| < |ts|
    decreases |ts|
  {
    if Takes(ts, Punct('}')) then Some((fields, ts[1..]))
    else
      var key := ParseKey(ts);
      if key.None? || key.value.0 in seen then None
      else
        var entry := ParseEntry(key.value.1, selected, key.value.0, fields);
        if entry.None? then None
        else
          var (now, rest) := entry.value;
          if Takes(rest, Punct('}')) then Some((now, rest[1..]))
          else if Takes(rest, Punct(',')) then ParseEntries(rest[1..], selected, seen + {key.value.0}, now)
          else None
  }

  function ParseEntry(ts: Tokens, selected: string, key: string, fields: Option<Fields>): (r: Option<(Option<Fields>, Tokens)>)
    ensures r.Some? ==> |r.value.1| < |ts|
  {
    if key == selected then
      if !Takes(ts, Punct('{')) then None
      else
        var parsed := ParseFields(ts[1..], map[]);
        if parsed.None? then None else Some((Some(parsed.value.0), parsed.value.1))
    else
      var rest := SkipStatic(ts);
      if rest.None? then None else Some((fields, rest.value))
  }

  const HEADER: Tokens := [Identifier("module"), Punct('.'), Identifier("exports"), Punct('='), Punct('{')]

  /** `parseConfig` on the tokens. */
  function ParseTokens(ts: Tokens, selected: string): Option<Fields> {
    if !(HEADER <= ts) then None
    else
      var entries := ParseEntries(ts[|HEADER|..], selected, {}, None);
      if entries.None? then None
      else
        var (fields, rest) := entries.value;
        if !Takes(rest, Punct(';')) || !Current(rest[1..]).EndOfFile? then None else fields
  }

  /** `parseConfig`. */
  function ParseConfig(source: string, selected: string): Option<Fields> {
    var ts := Lex(source);
    if ts.None? then None else ParseTokens(ts.value, selected)
  }

  // --------------------------------------------------------- abstract syntax

  datatype Scalar = Quote(text: string) | Numeral(digits: string)

  datatype Key = Key(text: string, quoted: bool)

  /** The lists carry their own end: a comma may follow the last member. */
  datatype Static =
    | Simple(scalar: Scalar)
    | Constant(text: string)
    | FromEnvironment(name: string, nullish: bool, fallback: Scalar)
    | Object(members: Members)
    | Array(elements: Elements)

  datatype Members = NoMember | Member(key: Key, value: Static, comma: bool, others: Members)

  datatype Elements = NoElement | Element(value: Static, comma: bool, others: Elements)

  function ScalarToken(s: Scalar): Token {
    match s
    case Quote(text) => Str(text)
    case Numeral(digits) => Number(digits)
  }

  function KeyTokens(k: Key): Tokens {
    [if k.quoted then Str(k.text) else Identifier(k.text), Punct(':')]
  }

  function StaticTokens(v: Static): Tokens {
    match v
    case Simple(scalar) => [ScalarToken(scalar)]
    case Constant(text) => [Identifier(text)]
    case FromEnvironment(name, nullish, fallback) =>
      [Identifier("process"), Punct('.'), Identifier("env"), Punct('.'), Identifier(name),
       if nullish then Nullish else Or, ScalarToken(fallback)]
    case Object(members) => [Punct('{')] + MembersTokens(members)
    case Array(elements) => [Punct('[')] + ElementsTokens(elements)
  }

  /** What stands behind a member: a comma and the others, or the closing mark. */
  function Followed(comma: bool, others: Tokens, close: Token): Tokens {
    if comma then [Punct(',')] + others else [close]
  }

  function MembersTokens(ms: Members): Tokens {
    match ms
    case NoMember => [Punct('}')]
    case Member(key, value, comma, others) =>
      KeyTokens(key) + StaticTokens(value) + Followed(comma, MembersTokens(others), Punct('}'))
  }

  function ElementsTokens(es: Elements): Tokens {
    match es
    case NoElement => [Punct(']')]
    case Element(value, comma, others) =>
      StaticTokens(value) + Followed(comma, ElementsTokens(others), Punct(']'))
  }

  predicate InRange(s: Scalar) {
    s.Numeral? ==> Atoi(s.digits).Some?
  }

  /** Values the parser skips: no key twice in one object, and a fallback number that
      is an `int`. */
  predicate ValidStatic(v: Static) {
    match v
    case Simple(_) => true
    case Constant(text) => text in {"true", "false", "null"}
    case FromEnvironment(_, _, fallback) => InRange(fallback)
    case Object(members) => ValidMembers(members, {})
    case Array(elements) => ValidElements(elements)
  }

  predicate ValidMembers(ms: Members, seen: set<string>) {
    match ms
    case NoMember => true
    case Member(key, value, comma, others) =>
      key.text !in seen && ValidStatic(value) && (!comma ==> others.NoMember?) && ValidMembers(others, seen + {key.text})
  }

  predicate ValidElements(es: Elements) {
    match es
    case NoElement => true
    case Element(value, comma, others) =>
      ValidStatic(value) && (!comma ==> others.NoElement?) && ValidElements(others)
  }

  // ------------------------------------------- printed values are skipped

  lemma ParsePrintedLiteral(s: Scalar, rest: Tokens)
    requires InRange(s)
    ensures ParseLiteral([ScalarToken(s)] + rest) == Some((ScalarValue(s), rest))
  {
    var ts := [ScalarToken(s)] + rest;
    assert ts[0] == ScalarToken(s) && ts[1..] == rest;
  }

  function ScalarValue(s: Scalar): (v: ConfigValue)
    requires InRange(s)
    ensures v.Literal?
  {
    match s
    case Quote(text) => Literal(text, 0)
    case Numeral(digits) => Literal("", Atoi(digits).value)
  }

  /** The value of a required field: a literal or an environment reference. */
  predicate IsValue(v: Static) {
    match v
    case Simple(scalar) => InRange(scalar)
    case FromEnvironment(_, _, fallback) => InRange(fallback)
    case _ => false
  }

  function ValueOf(v: Static): ConfigValue
    requires IsValue(v)
  {
    match v
    case Simple(scalar) => ScalarValue(scalar)
    case FromEnvironment(name, _, fallback) =>
      Environment(name, ScalarValue(fallback).text, ScalarValue(fallback).number)
  }

  lemma ParsePrintedValue(v: Static, rest: Tokens)
    requires IsValue(v)
    ensures ParseValue(StaticTokens(v) + rest) == Some((ValueOf(v), rest))
  {
    var ts := StaticTokens(v) + rest;
    match v
    case Simple(scalar) =>
      ParsePrintedLiteral(scalar, rest);
      assert ts[0] == ScalarToken(scalar);
    case FromEnvironment(name, nullish, fallback) =>
      ParsePrintedLiteral(fallback, rest);
      assert ts[6..] == [ScalarToken(fallback)] + rest;
  }

  lemma ParsePrintedKey(k: Key, rest: Tokens)
    ensures ParseKey(KeyTokens(k) + rest) == Some((k.text, rest))
    ensures (KeyTokens(k) + rest)[0] != Punct('}') && (KeyTokens(k) + rest)[0] != Punct(']')
  {
    assert (KeyTokens(k) + rest)[2..] == rest;
  }

  lemma StaticStart(v: Static)
    ensures StaticTokens(v) != [] && StaticTokens(v)[0] != Punct(']') && StaticTokens(v)[0] != Punct('}')
  {
  }

  lemma {:induction false} SkipPrinted(v: Static, rest: Tokens)
    requires ValidStatic(v)
    ensures SkipStatic(StaticTokens(v) + rest) == Some(rest)
    decreases v, 1
  {
    hide ParseValue, ParseLiteral;
    var ts := StaticTokens(v) + rest;
    match v
    case Simple(scalar) => assert ts[0] == ScalarToken(scalar) && ts[1..] == rest;
    case Constant(text) => assert ts[0] == Identifier(text) && ts[1..] == rest;
    case FromEnvironment(name, nullish, fallback) => ParsePrintedValue(v, rest);
    case Object(members) =>
      SkipPrintedMembers(members, {}, rest);
      assert ts[0] == Punct('{') && ts[1..] == MembersTokens(members) + rest;
    case Array(elements) =>
      SkipPrintedElements(elements, rest);
      assert ts[0] == Punct('[') && ts[1..] == ElementsTokens(elements) + rest;
  }

  /** What is behind a printed member, read as the parser's loops do. */
  lemma Behind(comma: bool, others: Tokens, close: Token, rest: Tokens)
    requires close != Punct(',')
    ensures var ts := Followed(comma, others, close) + rest;
            && ts != [] && (Takes(ts, close) <==> !comma) && (Takes(ts, Punct(',')) <==> comma)
            && ts[1..] == if comma then others + rest else rest
  {
  }

  lemma {:induction false} SkipPrintedMembers(ms: Members, seen: set<string>, rest: Tokens)
    requires ValidMembers(ms, seen)
    ensures SkipMembers(MembersTokens(ms) + rest, seen) == Some(rest)
    decreases ms, 0
  {
    hide SkipStatic, StaticTokens, KeyTokens, ParseKey, Followed, ValidStatic;
    match ms
    case NoMember => assert (MembersTokens(ms) + rest)[1..] == rest;
    case Member(key, value, comma, others) =>
      var behind := Followed(comma, MembersTokens(others), Punct('}')) + rest;
      assert MembersTokens(ms) + rest == KeyTokens(key) + (StaticTokens(value) + behind);
      ParsePrintedKey(key, StaticTokens(value) + behind);
      SkipPrinted(value, behind);
      Behind(comma, MembersTokens(others), Punct('}'), rest);
      if comma {
        SkipPrintedMembers(others, seen + {key.text}, rest);
      }
  }

  lemma {:induction false} SkipPrintedElements(es: Elements, rest: Tokens)
    requires ValidElements(es)
    ensures SkipElements(ElementsTokens(es) + rest) == Some(rest)
    decreases es, 0
  {
    hide SkipStatic, StaticTokens, Followed, ValidStatic;
    match es
    case NoElement => assert (ElementsTokens(es) + rest)[1..] == rest;
    case Element(value, comma, others) =>
      var behind := Followed(comma, ElementsTokens(others), Punct(']')) + rest;
      assert ElementsTokens(es) + rest == StaticTokens(value) + behind;
      StaticStart(value);
      assert (StaticTokens(value) + behind)[0] == StaticTokens(value)[0];
      SkipPrinted(value, behind);
      Behind(comma, ElementsTokens(others), Punct(']'), rest);
      if comma {
        SkipPrintedElements(others, rest);
      }
  }

  // -------------------------------------- printed configurations are parsed

  /** The fields of the selected environment: the required ones hold values and are
      not repeated; the others hold anything static, even repeatedly. */
  predicate ValidFields(ms: Members, found: set<string>) {
    match ms
    case NoMember => true
    case Member(key, value, comma, others) =>
      && key.text !in found
      && (if IsRequiredField(key.text) then IsValue(value) else ValidStatic(value))
      && (!comma ==> others.NoMember?)
      && ValidFields(others, if IsRequiredField(key.text) then found + {key.text} else found)
  }

  function FieldsOf(ms: Members, names: set<string>, found: Fields): Fields
    requires ValidFields(ms, names)
  {
    match ms
    case NoMember => found
    case Member(key, value, _, others) =>
      if IsRequiredField(key.text) then FieldsOf(others, names + {key.text}, found[key.text := ValueOf(value)])
      else FieldsOf(others, names, found)
  }

  /** The environments of a configuration: no name twice, and the selected one is an
      object of fields. */
  predicate ValidConfig(ms: Members, selected: string, seen: set<string>) {
    match ms
    case NoMember => true
    case Member(key, value, comma, others) =>
      && key.text !in seen
      && (if key.text == selected then value.Object? && ValidFields(value.members, {}) else ValidStatic(value))
      && (!comma ==> others.NoMember?)
      && ValidConfig(others, selected, seen + {key.text})
  }

  function SelectedFields(ms: Members, selected: string, seen: set<string>, fields: Option<Fields>): Option<Fields>
    requires ValidConfig(ms, selected, seen)
  {
    match ms
    case NoMember => fields
    case Member(key, value, _, others) =>
      SelectedFields(others, selected, seen + {key.text},
                     if key.text == selected then Some(FieldsOf(value.members, {}, map[])) else fields)
  }

  function ConfigTokens(ms: Members): Tokens {
    HEADER + MembersTokens(ms) + [Punct(';')]
  }

  lemma {:induction false} ParsePrintedFields(ms: Members, found: Fields, rest: Tokens)
    requires ValidFields(ms, found.Keys)
    ensures ParseFields(MembersTokens(ms) + rest, found) == Some((FieldsOf(ms, found.Keys, found), rest))
    decreases ms
  {
    hide SkipStatic, StaticTokens, KeyTokens, ParseKey, ParseValue, Followed, ValidStatic, IsValue, ValueOf, IsRequiredField;
    match ms
    case NoMember => assert (MembersTokens(ms) + rest)[1..] == rest;
    case Member(key, value, comma, others) =>
      var behind := Followed(comma, MembersTokens(others), Punct('}')) + rest;
      assert MembersTokens(ms) + rest == KeyTokens(key) + (StaticTokens(value) + behind);
      ParsePrintedKey(key, StaticTokens(value) + behind);
      var now := found;
      if IsRequiredField(key.text) {
        ParsePrintedValue(value, behind);
        now := found[key.text := ValueOf(value)];
        assert now.Keys == found.Keys + {key.text};
      } else {
        SkipPrinted(value, behind);
      }
      Behind(comma, MembersTokens(others), Punct('}'), rest);
      if comma {
        ParsePrintedFields(others, now, rest);
      }
  }

  lemma ParsePrintedEntry(value: Static, selected: string, key: string, fields: Option<Fields>, behind: Tokens)
    requires if key == selected then value.Object? && ValidFields(value.members, {}) else ValidStatic(value)
    ensures ParseEntry(StaticTokens(value) + behind, selected, key, fields) ==
            Some((if key == selected then Some(FieldsOf(value.members, {}, map[])) else fields, behind))
  {
    hide SkipStatic, ParseFields, ValidStatic, ValidFields, FieldsOf, MembersTokens;
    var body := StaticTokens(value) + behind;
    if key == selected {
      var none: Fields := map[];
      assert none.Keys == {};
      ParsePrintedFields(value.members, map[], behind);
      assert body[0] == Punct('{') && body[1..] == MembersTokens(value.members) + behind;
    } else {
      SkipPrinted(value, behind);
    }
  }

  lemma {:induction false} ParsePrintedEntries(ms: Members, selected: string, seen: set<string>, fields: Option<Fields>, rest: Tokens)
    requires ValidConfig(ms, selected, seen)
    ensures ParseEntries(MembersTokens(ms) + rest, selected, seen, fields) ==
            Some((SelectedFields(ms, selected, seen, fields), rest))
    decreases ms
  {
    hide StaticTokens, KeyTokens, ParseKey, ParseEntry, Followed, ValidStatic, ValidFields, FieldsOf;
    match ms
    case NoMember => assert (MembersTokens(ms) + rest)[1..] == rest;
    case Member(key, value, comma, others) =>
      var behind := Followed(comma, MembersTokens(others), Punct('}')) + rest;
      var body := StaticTokens(value) + behind;
      assert MembersTokens(ms) + rest == KeyTokens(key) + body;
      ParsePrintedKey(key, body);
      ParsePrintedEntry(value, selected, key.text, fields, behind);
      Behind(comma, MembersTokens(others), Punct('}'), rest);
      if comma {
        var now := if key.text == selected then Some(FieldsOf(value.members, {}, map[])) else fields;
        ParsePrintedEntries(others, selected, seen + {key.text}, now, rest);
      }
  }

  lemma ParsePrintedConfig(ms: Members, selected: string)
    requires ValidConfig(ms, selected, {})
    ensures ParseTokens(ConfigTokens(ms) + [EndOfFile], selected) == SelectedFields(ms, selected, {}, None)
  {
    hide ParseEntries, MembersTokens;
    var ts := ConfigTokens(ms) + [EndOfFile];
    var end := [Punct(';'), EndOfFile];
    assert ts == HEADER + (MembersTokens(ms) + end);
    assert ts[|HEADER|..] == MembersTokens(ms) + end;
    ParsePrintedEntries(ms, selected, {}, None, end);
  }

  // --------------------------------- whatever is parsed is a configuration

  lemma LiteralOf(ts: Tokens) returns (s: Scalar)
    requires ParseLiteral(ts).Some?
    ensures InRange(s) && ts == [ScalarToken(s)] + ParseLiteral(ts).value.1 && ParseLiteral(ts).value.0 == ScalarValue(s)
  {
    s := if ts[0].Str? then Quote(ts[0].text) else Numeral(ts[0].text);
  }

  lemma ValueFrom(ts: Tokens) returns (v: Static)
    requires ParseValue(ts).Some?
    ensures IsValue(v) && ts == StaticTokens(v) + ParseValue(ts).value.1 && ParseValue(ts).value.0 == ValueOf(v)
    ensures Current(ts) == Identifier("process") ==> ValidStatic(v)
  {
    if ts[0].Str? || ts[0].Number? {
      var s := LiteralOf(ts);
      v := Simple(s);
    } else {
      var s := LiteralOf(ts[6..]);
      v := FromEnvironment(ts[4].text, ts[5].Nullish?, s);
      assert ts == ts[..6] + ts[6..];
    }
  }

  lemma KeyOf(ts: Tokens) returns (k: Key)
    requires ParseKey(ts).Some?
    ensures k.text == ParseKey(ts).value.0 && ts == KeyTokens(k) + ParseKey(ts).value.1
  {
    k := Key(ts[0].text, ts[0].Str?);
    assert ts == ts[..2] + ts[2..];
  }

  lemma {:induction false} StaticFrom(ts: Tokens) returns (v: Static)
    requires SkipStatic(ts).Some?
    ensures ValidStatic(v) && ts == StaticTokens(v) + SkipStatic(ts).value
    decreases |ts|, 2
  {
    hide SkipMembers, SkipElements, ParseValue, MembersTokens, ElementsTokens, ValidMembers, ValidElements;
    var t := Current(ts);
    if t.Str? {
      v := Simple(Quote(t.text));
    } else if t.Number? {
      v := Simple(Numeral(t.text));
    } else if IsWord(t) {
      v := Constant(t.text);
    } else if t == Identifier("process") {
      v := ValueFrom(ts);
    } else if t == Punct('{') {
      var members := MembersFrom(ts[1..], {});
      v := Object(members);
      assert ts == [Punct('{')] + ts[1..];
    } else {
      var elements := ElementsFrom(ts[1..]);
      v := Array(elements);
      assert ts == [Punct('[')] + ts[1..];
    }
  }

  /** The tail of a list: how the parser went on behind a member. */
  lemma TailOf(behind: Tokens, comma: bool, others: Tokens, close: Token, rest: Tokens)
    requires if comma then behind != [] && behind[0] == Punct(',') && behind[1..] == others + rest
             else behind != [] && behind[0] == close && behind[1..] == rest
    ensures behind == Followed(comma, others, close) + rest
  {
    assert behind == [behind[0]] + behind[1..];
  }

  lemma {:induction false} MembersFrom(ts: Tokens, seen: set<string>) returns (ms: Members)
    requires SkipMembers(ts, seen).Some?
    ensures ValidMembers(ms, seen) && ts == MembersTokens(ms) + SkipMembers(ts, seen).value
    decreases |ts|, 1
  {
    hide SkipStatic, StaticTokens, KeyTokens, ParseKey, Followed, ValidStatic;
    var rest := SkipMembers(ts, seen).value;
    if Takes(ts, Punct('}')) {
      ms := NoMember;
    } else {
      var key := KeyOf(ts);
      var body := ParseKey(ts).value.1;
      var value := StaticFrom(body);
      var behind := SkipStatic(body).value;
      var comma := Takes(behind, Punct(','));
      var others := NoMember;
      if comma {
        others := MembersFrom(behind[1..], seen + {key.text});
      }
      ms := Member(key, value, comma, others);
      TailOf(behind, comma, MembersTokens(others), Punct('}'), rest);
    }
  }

  lemma {:induction false} ElementsFrom(ts: Tokens) returns (es: Elements)
    requires SkipElements(ts).Some?
    ensures ValidElements(es) && ts == ElementsTokens(es) + SkipElements(ts).value
    decreases |ts|, 3
  {
    hide SkipStatic, StaticTokens, Followed, ValidStatic;
    var rest := SkipElements(ts).value;
    if Takes(ts, Punct(']')) {
      es := NoElement;
    } else {
      var value := StaticFrom(ts);
      var behind := SkipStatic(ts).value;
      var comma := Takes(behind, Punct(','));
      var others := NoElement;
      if comma {
        others := ElementsFrom(behind[1..]);
      }
      es := Element(value, comma, others);
      TailOf(behind, comma, ElementsTokens(others), Punct(']'), rest);
    }
  }

  lemma FieldFrom(body: Tokens, key: string, found: Fields) returns (value: Static)
    requires ParseField(body, key, found).Some?
    ensures if IsRequiredField(key) then IsValue(value) else ValidStatic(value)
    ensures body == StaticTokens(value) + ParseField(body, key, found).value.1
    ensures ParseField(body, key, found).value.0 ==
            if IsRequiredField(key) then found[key := ValueOf(value)] else found
  {
    hide SkipStatic, StaticTokens, ParseValue, ValidStatic, IsValue, ValueOf, IsRequiredField;
    if IsRequiredField(key) {
      value := ValueFrom(body);
    } else {
      value := StaticFrom(body);
    }
  }

  lemma {:induction false} FieldsFrom(ts: Tokens, found: Fields) returns (ms: Members)
    requires ParseFields(ts, found).Some?
    ensures ValidFields(ms, found.Keys)
    ensures ts == MembersTokens(ms) + ParseFields(ts, found).value.1
    ensures FieldsOf(ms, found.Keys, found) == ParseFields(ts, found).value.0
    decreases |ts|
  {
    hide StaticTokens, KeyTokens, ParseKey, ParseField, Followed, ValidStatic, IsValue, ValueOf, IsRequiredField;
    var rest := ParseFields(ts, found).value.1;
    if Takes(ts, Punct('}')) {
      ms := NoMember;
    } else {
      var key := KeyOf(ts);
      var body := ParseKey(ts).value.1;
      var value := FieldFrom(body, key.text, found);
      var (now, behind) := ParseField(body, key.text, found).value;
      assert now.Keys == if IsRequiredField(key.text) then found.Keys + {key.text} else found.Keys;
      var comma := Takes(behind, Punct(','));
      var others := NoMember;
      if comma {
        others := FieldsFrom(behind[1..], now);
      }
      ms := Member(key, value, comma, others);
      TailOf(behind, comma, MembersTokens(others), Punct('}'), rest);
    }
  }

  lemma EntryFrom(body: Tokens, selected: string, key: string, fields: Option<Fields>) returns (value: Static)
    requires ParseEntry(body, selected, key, fields).Some?
    ensures if key == selected then value.Object? && ValidFields(value.members, {}) else ValidStatic(value)
    ensures body == StaticTokens(value) + ParseEntry(body, selected, key, fields).value.1
    ensures ParseEntry(body, selected, key, fields).value.0 ==
            if key == selected then Some(FieldsOf(value.members, {}, map[])) else fields
  {
    hide SkipStatic, ParseFields, ValidStatic, ValidFields, FieldsOf, MembersTokens;
    if key == selected {
      var members := FieldsFrom(body[1..], map[]);
      var none: Fields := map[];
      assert none.Keys == {};
      value := Object(members);
      assert body == [Punct('{')] + body[1..];
    } else {
      value := StaticFrom(body);
    }
  }

  lemma {:induction false} EntriesFrom(ts: Tokens, selected: string, seen: set<string>, fields: Option<Fields>)
    returns (ms: Members)
    requires ParseEntries(ts, selected, seen, fields).Some?
    ensures ValidConfig(ms, selected, seen)
    ensures ts == MembersTokens(ms) + ParseEntries(ts, selected, seen, fields).value.1
    ensures SelectedFields(ms, selected, seen, fields) == ParseEntries(ts, selected, seen, fields).value.0
    decreases |ts|
  {
    hide StaticTokens, KeyTokens, ParseKey, ParseEntry, Followed, ValidStatic, ValidFields, FieldsOf;
    var rest := ParseEntries(ts, selected, seen, fields).value.1;
    if Takes(ts, Punct('}')) {
      ms := NoMember;
    } else {
      var key := KeyOf(ts);
      var body := ParseKey(ts).value.1;
      var value := EntryFrom(body, selected, key.text, fields);
      var (now, behind) := ParseEntry(body, selected, key.text, fields).value;
      var comma := Takes(behind, Punct(','));
      var others := NoMember;
      if comma {
        others := EntriesFrom(behind[1..], selected, seen + {key.text}, now);
      }
      ms := Member(key, value, comma, others);
      TailOf(behind, comma, MembersTokens(others), Punct('}'), rest);
    }
  }

  /** Every accepted token list is the print of a valid configuration. */
  lemma ConfigFrom(ts: Tokens, selected: string) returns (ms: Members, rest: Tokens)
    requires ParseTokens(ts, selected).Some?
    ensures ValidConfig(ms, selected, {}) && SelectedFields(ms, selected, {}, None) == ParseTokens(ts, selected)
    ensures ts == ConfigTokens(ms) + rest && Current(rest).EndOfFile?
  {
    hide ParseEntries, MembersTokens;
    var body := ts[|HEADER|..];
    ms := EntriesFrom(body, selected, {}, None);
    var end := ParseEntries(body, selected, {}, None).value.1;
    rest := end[1..];
    assert ts == HEADER + body && end == [Punct(';')] + rest;
  }

  // ---------------------------------------------------------------- theorem

  /** A text spells a configuration: some layout of its tokens. */
  ghost predicate Spells(source: string, ms: Members) {
    exists d :: ValidDocument(d) && DocumentText(d) == source && DocumentTokens(d) == ConfigTokens(ms)
  }

  lemma {:induction false} NoEndInside(d: Document)
    requires ValidDocument(d)
    ensures EndOfFile !in DocumentTokens(d)
    decreases d
  {
    match d
    case End =>
    case LastComment(_) =>
    case Gap(_, rest) => NoEndInside(rest);
    case Piece(_, rest) => NoEndInside(rest);
  }

  /** The exact language of `parseConfig`: it returns `fields` if and only if the text
      is some layout - any white space, comments, quotes and escapes - of a valid
      configuration whose selected environment has exactly those required fields. */
  lemma ParseConfigMeans(source: string, selected: string, fields: Fields)
    ensures ParseConfig(source, selected) == Some(fields) <==>
            exists ms ::
              ValidConfig(ms, selected, {}) && SelectedFields(ms, selected, {}, None) == Some(fields) && Spells(source, ms)
  {
    hide Lex, ParseTokens, ValidConfig, SelectedFields, ConfigTokens, DocumentText, DocumentTokens, ValidDocument;
    forall ms | ValidConfig(ms, selected, {}) && SelectedFields(ms, selected, {}, None) == Some(fields) && Spells(source, ms)
      ensures ParseConfig(source, selected) == Some(fields)
    {
      var d :| ValidDocument(d) && DocumentText(d) == source && DocumentTokens(d) == ConfigTokens(ms);
      LexDocument(d);
      ParsePrintedConfig(ms, selected);
    }
    if ParseConfig(source, selected) == Some(fields) {
      var d := LexedIsDocument(source);
      NoEndInside(d);
      var ms, rest := ConfigFrom(Lex(source).value, selected);
      ConfigEnds(ms);
      OnlyFinalEnd(DocumentTokens(d), ConfigTokens(ms), rest);
      assert Spells(source, ms);
    }
  }

  lemma ConfigEnds(ms: Members)
    ensures ConfigTokens(ms) != [] && Last(ConfigTokens(ms)) == Punct(';')
  {
  }

  lemma OnlyFinalEnd(tokens: Tokens, config: Tokens, rest: Tokens)
    requires tokens + [EndOfFile] == config + rest && Current(rest).EndOfFile? && EndOfFile !in tokens
    requires config != [] && Last(config) == Punct(';')
    ensures tokens == config
  {
    var all := tokens + [EndOfFile];
    assert forall i :: 0 <= i < |tokens| ==> tokens[i] in tokens;
    assert all[|config| - 1] == Punct(';') && all[|tokens|] == EndOfFile;
    assert |config| <= |tokens| && all[|config|] == EndOfFile;
    assert tokens == all[..|tokens|] && config == all[..|config|];
  }

  // -------------------------------------------------------- implementation

  /** `parser`: a cursor over the tokens. A method that fails leaves the cursor
      anywhere behind where it was; one that succeeds leaves exactly the rest. */
  class Parser {
    const tokens: Tokens
    var at: nat

    constructor (tokens: Tokens)
      ensures this.tokens == tokens && at == 0
    {
      this.tokens, this.at := tokens, 0;
    }

    predicate Valid()
      reads this
    {
      at <= |tokens|
    }

    function Rest(): Tokens
      reads this
      requires Valid()
    {
      tokens[at..]
    }

    function Peek(): (t: Token)
      reads this
      requires Valid()
      ensures t == Current(Rest())
    {
      if at == |tokens| then EndOfFile else tokens[at]
    }

    method Take(t: Token) returns (ok: bool)
      requires Valid() && !t.EndOfFile?
      modifies this
      ensures Valid() && old(at) <= at
      ensures ok <==> Takes(old(Rest()), t)
      ensures Rest() == if ok then old(Rest())[1..] else old(Rest())
    {
      ok := Peek() == t;
      if ok {
        at := at + 1;
      }
    }

    method TakeKey() returns (key: Option<string>)
      requires Valid()
      modifies this
      ensures Valid() && old(at) <= at
      ensures key.Some? <==> ParseKey(old(Rest())).Some?
      ensures key.Some? ==> ParseKey(old(Rest())) == Some((key.value, Rest())) && old(at) < at
    {
      var current := Peek();
      if !current.Identifier? && !current.Str? {
        return None;
      }
      at := at + 1;
      var colon := Take(Punct(':'));
      if !colon {
        return None;
      }
      return Some(current.text);
    }

    method TakeLiteral() returns (value: Option<ConfigValue>)
      requires Valid()
      modifies this
      ensures Valid() && old(at) <= at
      ensures value.Some? <==> ParseLiteral(old(Rest())).Some?
      ensures value.Some? ==> ParseLiteral(old(Rest())) == Some((value.value, Rest())) && old(at) < at
    {
      var current := Peek();
      if current.Str? {
        at := at + 1;
        return Some(Literal(current.text, 0));
      }
      if current.Number? {
        at := at + 1;
        var n := Atoi(current.text);
        if n.None? {
          return None;
        }
        return Some(Literal("", n.value));
      }
      return None;
    }

    /** `value`. */
    method TakeValue() returns (value: Option<ConfigValue>)
      requires Valid()
      modifies this
      ensures Valid() && old(at) <= at
      ensures value.Some? <==> ParseValue(old(Rest())).Some?
      ensures value.Some? ==> ParseValue(old(Rest())) == Some((value.value, Rest())) && old(at) < at
    {
      var current := Peek();
      if current.Str? || current.Number? {
        value := TakeLiteral();
        return;
      }
      hide ParseLiteral;
      ghost var start := Rest();
      var head := [Identifier("process"), Punct('.'), Identifier("env"), Punct('.')];
      var ok := TakeAll(head);
      if !ok { return None; }
      assert start[..4] == head && Rest() == start[4..];
      var name := Peek();
      if !name.Identifier? { return None; }
      at := at + 1;
      var operator := Peek();
      if !operator.Or? && !operator.Nullish? { return None; }
      at := at + 1;
      assert Rest() == start[6..];
      var fallback := TakeLiteral();
      if fallback.None? { return None; }
      return Some(Environment(name.text, fallback.value.text, fallback.value.number));
    }

    /** `skipStaticValue`. */
    method SkipStaticValue() returns (ok: bool)
      requires Valid()
      modifies this
      ensures Valid() && old(at) <= at
      ensures ok <==> SkipStatic(old(Rest())).Some?
      ensures ok ==> SkipStatic(old(Rest())) == Some(Rest()) && old(at) < at
      decreases |tokens| - at, 2
    {
      var current := Peek();
      if current.Str? || current.Number? || IsWord(current) {
        at := at + 1;
        return true;
      }
      if current == Identifier("process") {
        var value := TakeValue();
        return value.Some?;
      }
      var open := Take(Punct('{'));
      if open {
        ok := SkipObject();
        return;
      }
      open := Take(Punct('['));
      if open {
        ok := SkipArray();
        return;
      }
      return false;
    }

    /** The object loop of `skipStaticValue`. */
    method SkipObject() returns (ok: bool)
      requires Valid()
      modifies this
      ensures Valid() && old(at) <= at
      ensures ok <==> SkipMembers(old(Rest()), {}).Some?
      ensures ok ==> SkipMembers(old(Rest()), {}) == Some(Rest()) && old(at) < at
      decreases |tokens| - at, 3
    {
      hide ParseKey, SkipStatic;
      var seen: set<string> := {};
      while true
        invariant Valid() && old(at) <= at
        invariant SkipMembers(Rest(), seen) == SkipMembers(old(Rest()), {})
        decreases |tokens| - at
      {
        var closed := Take(Punct('}'));
        if closed { return true; }
        var key := TakeKey();
        if key.None? || key.value in seen { return false; }
        var skipped := SkipStaticValue();
        if !skipped { return false; }
        closed := Take(Punct('}'));
        if closed { return true; }
        var comma := Take(Punct(','));
        if !comma { return false; }
        seen := seen + {key.value};
      }
    }

    /** The array loop of `skipStaticValue`. */
    method SkipArray() returns (ok: bool)
      requires Valid()
      modifies this
      ensures Valid() && old(at) <= at
      ensures ok <==> SkipElements(old(Rest())).Some?
      ensures ok ==> SkipElements(old(Rest())) == Some(Rest()) && old(at) < at
      decreases |tokens| - at, 3
    {
      hide SkipStatic;
      while true
        invariant Valid() && old(at) <= at
        invariant SkipElements(Rest()) == SkipElements(old(Rest()))
        decreases |tokens| - at
      {
        var closed := Take(Punct(']'));
        if closed { return true; }
        var skipped := SkipStaticValue();
        if !skipped { return false; }
        closed := Take(Punct(']'));
        if closed { return true; }
        var comma := Take(Punct(','));
        if !comma { return false; }
      }
    }

    /** `fields`, behind its opening brace. */
    method TakeFields() returns (result: Option<Fields>)
      requires Valid()
      modifies this
      ensures Valid() && old(at) <= at
      ensures result.Some? <==> ParseFields(old(Rest()), map[]).Some?
      ensures result.Some? ==> ParseFields(old(Rest()), map[]) == Some((result.value, Rest()))
    {
      hide ParseKey, ParseValue, SkipStatic, IsRequiredField;
      var found: Fields := map[];
      while true
        invariant Valid() && old(at) <= at
        invariant ParseFields(Rest(), found) == ParseFields(old(Rest()), map[])
        decreases |tokens| - at
      {
        var closed := Take(Punct('}'));
        if closed { return Some(found); }
        var key := TakeKey();
        if key.None? || key.value in found { return None; }
        if IsRequiredField(key.value) {
          var value := TakeValue();
          if value.None? { return None; }
          found := found[key.value := value.value];
        } else {
          var skipped := SkipStaticValue();
          if !skipped { return None; }
        }
        closed := Take(Punct('}'));
        if closed { return Some(found); }
        var comma := Take(Punct(','));
        if !comma { return None; }
      }
    }

    /** `object`, behind its opening brace; the outer option is success. */
    method TakeObject(selected: string) returns (result: Option<Option<Fields>>)
      requires Valid()
      modifies this
      ensures Valid() && old(at) <= at
      ensures result.Some? <==> ParseEntries(old(Rest()), selected, {}, None).Some?
      ensures result.Some? ==> ParseEntries(old(Rest()), selected, {}, None) == Some((result.value, Rest()))
    {
      hide ParseKey, ParseFields, SkipStatic;
      var seen: set<string> := {};
      var fields: Option<Fields> := None;
      while true
        invariant Valid() && old(at) <= at
        invariant ParseEntries(Rest(), selected, seen, fields) == ParseEntries(old(Rest()), selected, {}, None)
        decreases |tokens| - at
      {
        var closed := Take(Punct('}'));
        if closed { return Some(fields); }
        var key := TakeKey();
        if key.None? || key.value in seen { return None; }
        if key.value == selected {
          var open := Take(Punct('{'));
          if !open { return None; }
          var parsed := TakeFields();
          if parsed.None? { return None; }
          fields := parsed;
        } else {
          var skipped := SkipStaticValue();
          if !skipped { return None; }
        }
        closed := Take(Punct('}'));
        if closed { return Some(fields); }
        var comma := Take(Punct(','));
        if !comma { return None; }
        seen := seen + {key.value};
      }
    }

    /** The tokens of a list one after the other. */
    method TakeAll(expected: Tokens) returns (ok: bool)
      requires Valid() && forall i :: 0 <= i < |expected| ==> !expected[i].EndOfFile?
      modifies this
      ensures Valid() && old(at) <= at
      ensures ok <==> expected <= old(Rest())
      ensures ok ==> Rest() == old(Rest())[|expected|..]
    {
      for i := 0 to |expected|
        invariant Valid() && at == old(at) + i
        invariant expected[..i] == old(Rest())[..i]
      {
        ok := Take(expected[i]);
        if !ok { return; }
      }
      return true;
    }
  }

  /** `parseConfig`. */
  method Parse(source: string, selected: string) returns (result: Option<Fields>)
    ensures result == ParseConfig(source, selected)
  {
    hide ParseEntries, Lex;
    var tokens := LexSource(source);
    if tokens.None? {
      return None;
    }
    var p := new Parser(tokens.value);
    assert p.Rest() == tokens.value;
    var ok := p.TakeAll(HEADER);
    if !ok {
      return None;
    }
    var fields := p.TakeObject(selected);
    if fields.None? {
      return None;
    }
    ok := p.Take(Punct(';'));
    if !ok || !p.Peek().EndOfFile? {
      return None;
    }
    return fields.value;
  }
}
