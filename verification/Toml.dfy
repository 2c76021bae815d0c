/**
 The printer of TOML inline tables, and a reader for inline tables of basic strings after the
 "String" and "Inline Table" sections of TOML v1.0.0.
 */
module Toml {
  import opened Wrappers

  datatype Pair = Pair(key: string, value: string)

  // ---- The printer ----

  /** Every occurrence of one character replaced. */
  function Replace(s: string, c: char, text: string): string {
    if s == "" then "" else (if s[0] == c then text else [s[0]]) + Replace(s[1..], c, text)
  }

  function Escape(value: string): string {
    Replace(Replace(value, '\\', "\\\\"), '"', "\\\"")
  }

  function Quoted(s: string): string {
    "\"" + Escape(s) + "\""
  }

  function Item(pair: Pair): string {
    Quoted(pair.key) + " = " + Quoted(pair.value)
  }

  function Items(pairs: seq<Pair>): string {
    if pairs == [] then ""
    else if |pairs| == 1 then Item(pairs[0])
    else Item(pairs[0]) + ", " + Items(pairs[1..])
  }

  function InlineTable(pairs: seq<Pair>): string {
    "{ " + Items(pairs) + " }"
  }

  // ---- The reader ----

  /** Characters a basic string may not hold unescaped, the quotation mark and the backslash aside. */
  predicate Control(c: char) {
    (c < ' ' && c != '\t') || c as int == 0x7F
  }

  function Unescaped(c: char): Option<char> {
    if c == '"' || c == '\\' then Some(c)
    else if c == 'b' then Some(8 as char)
    else if c == 't' then Some('\t')
    else if c == 'n' then Some('\n')
    else if c == 'f' then Some(12 as char)
    else if c == 'r' then Some('\r')
    else None
  }

  datatype Token<T> = Token(value: T, rest: string)

  /** The rest of a basic string, after its opening mark. */
  function ReadString(s: string): (r: Option<Token<string>>)
    ensures r.Some? ==> |r.value.rest| < |s|
  {
    if s == "" then None
    else if s[0] == '"' then Some(Token("", s[1..]))
    else if s[0] == '\\' then
      if |s| == 1 || Unescaped(s[1]) == None then None
      else match ReadString(s[2..])
        case None => None
        case Some(t) => Some(Token([Unescaped(s[1]).value] + t.value, t.rest))
    else if Control(s[0]) then None
    else match ReadString(s[1..])
      case None => None
      case Some(t) => Some(Token([s[0]] + t.value, t.rest))
  }

  function SkipBlanks(s: string): (r: string)
    ensures |r| <= |s|
  {
    if s != "" && (s[0] == ' ' || s[0] == '\t') then SkipBlanks(s[1..]) else s
  }

  function Expect(c: char, s: string): (r: Option<string>)
    ensures r.Some? ==> |r.value| < |s|
  {
    var t := SkipBlanks(s);
    if t != "" && t[0] == c then Some(t[1..]) else None
  }

  function ReadQuoted(s: string): (r: Option<Token<string>>)
    ensures r.Some? ==> |r.value.rest| < |s|
  {
    match Expect('"', s)
    case None => None
    case Some(t) => ReadString(t)
  }

  function ReadPair(s: string): (r: Option<Token<Pair>>)
    ensures r.Some? ==> |r.value.rest| < |s|
  {
    match ReadQuoted(s)
    case None => None
    case Some(key) =>
      match Expect('=', key.rest)
      case None => None
      case Some(t) =>
        match ReadQuoted(t)
        case None => None
        case Some(value) => Some(Token(Pair(key.value, value.value), value.rest))
  }

  /** One or more pairs and the closing brace; a comma may not precede the brace. */
  function ReadPairs(s: string): Option<Token<seq<Pair>>>
    decreases |s|
  {
    match ReadPair(s)
    case None => None
    case Some(first) =>
      match Expect('}', first.rest)
      case Some(rest) => Some(Token([first.value], rest))
      case None =>
        match Expect(',', first.rest)
        case None => None
        case Some(t) =>
          match ReadPairs(t)
          case None => None
          case Some(more) => Some(Token([first.value] + more.value, more.rest))
  }

  predicate DistinctKeys(pairs: seq<Pair>) {
    forall i, j :: 0 <= i < j < |pairs| ==> pairs[i].key != pairs[j].key
  }

  /** A whole text that is one inline table without repeated keys. */
  function Read(s: string): Option<seq<Pair>> {
    match Expect('{', s)
    case None => None
    case Some(t) =>
      match Expect('}', t)
      case Some(rest) => if SkipBlanks(rest) == "" then Some([]) else None
      case None =>
        match ReadPairs(t)
        case None => None
        case Some(pairs) => if SkipBlanks(pairs.rest) == "" && DistinctKeys(pairs.value) then Some(pairs.value) else None
  }

  // ---- Escaping ----

  function EscapeChar(c: char): string {
    if c == '\\' then "\\\\" else if c == '"' then "\\\"" else [c]
  }

  /** Each character escaped on its own. */
  function OnePass(s: string): string {
    if s == "" then "" else EscapeChar(s[0]) + OnePass(s[1..])
  }

  lemma {:induction false} ReplaceAppend(a: string, b: string, c: char, text: string)
    ensures Replace(a + b, c, text) == Replace(a, c, text) + Replace(b, c, text)
  {
    if a == "" {
      assert a + b == b;
    } else {
      assert (a + b)[1..] == a[1..] + b;
      ReplaceAppend(a[1..], b, c, text);
    }
  }

  lemma ReplaceShort(c: char, text: string, x: char)
    ensures Replace([x], c, text) == if x == c then text else [x]
    ensures x != c ==> Replace([x, x], c, text) == [x, x]
  {
    assert [x][1..] == "" && [x, x][1..] == [x];
  }

  /** The two replacements one after the other escape every character exactly once. */
  lemma {:induction false} EscapeIsOnePass(s: string)
    ensures Escape(s) == OnePass(s)
  {
    if s != "" {
      EscapeIsOnePass(s[1..]);
      var head := if s[0] == '\\' then "\\\\" else [s[0]];
      ReplaceAppend(head, Replace(s[1..], '\\', "\\\\"), '"', "\\\"");
      ReplaceShort('"', "\\\"", s[0]);
    }
  }

  predicate Clean(s: string) {
    forall i :: 0 <= i < |s| ==> !Control(s[i])
  }

  /** Reading an escaped text gives it back, exactly when it holds no control character. */
  lemma {:induction false} ReadEscaped(s: string, rest: string)
    ensures ReadString(OnePass(s) + "\"" + rest) == if Clean(s) then Some(Token(s, rest)) else None
  {
    hide ReadString, EscapeChar, Control, Clean;
    if s == "" {
      assert OnePass(s) + "\"" + rest == "\"" + rest;
      ReadNothing(rest);
    } else {
      var tail := OnePass(s[1..]) + "\"" + rest;
      ReadEscaped(s[1..], rest);
      assert OnePass(s) + "\"" + rest == EscapeChar(s[0]) + tail;
      assert s == [s[0]] + s[1..];
      CleanTail(s);
      ReadHead(s[0], tail);
    }
  }

  lemma ReadNothing(rest: string)
    ensures ReadString("\"" + rest) == Some(Token("", rest)) && Clean("")
  {
    assert ("\"" + rest)[1..] == rest;
  }

  /** One escaped character is read back as itself, unless it is a control character. */
  lemma ReadHead(c: char, tail: string)
    ensures ReadString(EscapeChar(c) + tail) ==
      if Control(c) || ReadString(tail) == None then None
      else Some(Token([c] + ReadString(tail).value.value, ReadString(tail).value.rest))
  {
    var text := EscapeChar(c) + tail;
    if c == '\\' || c == '"' {
      assert text[2..] == tail;
    } else {
      assert text[1..] == tail;
    }
  }

  lemma CleanTail(s: string)
    requires s != ""
    ensures Clean(s) <==> !Control(s[0]) && Clean(s[1..])
  {
    assert s == [s[0]] + s[1..];
  }

  // ---- The round trip ----

  predicate CleanPair(pair: Pair) {
    Clean(pair.key) && Clean(pair.value)
  }

  predicate CleanPairs(pairs: seq<Pair>) {
    forall i :: 0 <= i < |pairs| ==> CleanPair(pairs[i])
  }

  lemma ExpectHere(c: char, rest: string)
    requires c != ' ' && c != '\t'
    ensures Expect(c, [c] + rest) == Some(rest) && Expect(c, " " + [c] + rest) == Some(rest)
    ensures forall d: char :: d != c ==> Expect(d, [c] + rest) == None && Expect(d, " " + [c] + rest) == None
  {
    assert ([c] + rest)[1..] == rest && (" " + [c] + rest)[1..] == [c] + rest;
  }

  lemma ReadQuotedText(s: string, rest: string)
    ensures
      var want := if Clean(s) then Some(Token(s, rest)) else None;
      ReadQuoted(Quoted(s) + rest) == want && ReadQuoted(" " + Quoted(s) + rest) == want
  {
    hide ReadString, Expect, Clean, Escape;
    EscapeIsOnePass(s);
    var text := OnePass(s) + "\"" + rest;
    assert Quoted(s) + rest == ['"'] + text;
    assert " " + Quoted(s) + rest == " " + ['"'] + text;
    ExpectHere('"', text);
    ReadEscaped(s, rest);
  }

  lemma ReadItem(pair: Pair, rest: string)
    ensures ReadPair(Item(pair) + rest) == if CleanPair(pair) then Some(Token(pair, rest)) else None
    ensures ReadPair(" " + Item(pair) + rest) == if CleanPair(pair) then Some(Token(pair, rest)) else None
  {
    hide ReadQuoted, Expect, Clean, Quoted;
    var k, v := Quoted(pair.key), Quoted(pair.value);
    var after := " " + v + rest;
    assert Item(pair) + rest == k + (" " + ['='] + after);
    assert " " + Item(pair) + rest == " " + k + (" " + ['='] + after);
    ReadQuotedText(pair.key, " " + ['='] + after);
    ExpectHere('=', after);
    ReadQuotedText(pair.value, rest);
  }

  /** Reading printed pairs, with or without the blank that follows a comma. */
  lemma {:induction false} ReadItems(pairs: seq<Pair>, rest: string)
    requires pairs != []
    ensures
      var want := if CleanPairs(pairs) then Some(Token(pairs, rest)) else None;
      ReadPairs(Items(pairs) + " }" + rest) == want && ReadPairs(" " + Items(pairs) + " }" + rest) == want
  {
    hide ReadPair, Item, Expect, CleanPair;
    var first, more := pairs[0], pairs[1..];
    assert pairs == [first] + more;
    CleanMore(pairs);
    if more == [] {
      var tail := " }" + rest;
      assert tail == " " + ['}'] + rest;
      assert Items(pairs) + " }" + rest == Item(first) + tail;
      assert " " + Items(pairs) + " }" + rest == " " + Item(first) + tail;
      ReadItem(first, tail);
      ExpectHere('}', rest);
      assert [first] == pairs;
      assert CleanPairs(more);
    } else {
      var next := " " + Items(more) + " }" + rest;
      var tail := [','] + next;
      assert Items(pairs) + " }" + rest == Item(first) + tail;
      assert " " + Items(pairs) + " }" + rest == " " + Item(first) + tail;
      ReadItem(first, tail);
      ExpectHere(',', next);
      ReadItems(more, rest);
    }
  }

  lemma CleanMore(pairs: seq<Pair>)
    requires pairs != []
    ensures CleanPairs(pairs) <==> CleanPair(pairs[0]) && CleanPairs(pairs[1..])
  {
    hide CleanPair;
    assert forall i :: 0 < i < |pairs| ==> pairs[i] == pairs[1..][i - 1];
  }

  /**
   The reader gives back what was printed exactly when no key and no value holds a control
   character other than the tab; otherwise the printed text is not an inline table at all.
   */
  lemma ReadsBackExactly(pairs: seq<Pair>)
    requires DistinctKeys(pairs)
    ensures Read(InlineTable(pairs)) == if CleanPairs(pairs) then Some(pairs) else None
  {
    hide ReadPairs, Expect, CleanPair, Items;
    var tail := " " + Items(pairs) + " }";
    assert InlineTable(pairs) == ['{'] + tail;
    ExpectHere('{', tail);
    if pairs == [] {
      NoItems();
      assert tail == "  }";
    } else {
      StartsWithQuote(pairs);
      assert tail == " " + ['"'] + (Items(pairs)[1..] + " }");
      ExpectHere('"', Items(pairs)[1..] + " }");
      ReadItems(pairs, "");
      assert tail + "" == tail;
    }
  }

  lemma StartsWithQuote(pairs: seq<Pair>)
    requires pairs != []
    ensures Items(pairs) != "" && Items(pairs)[0] == '"'
  {
  }

  lemma NoItems()
    ensures Items([]) == "" && Expect('}', "  }") == Some("") && SkipBlanks("") == ""
  {
    assert "  }"[1..] == " }" && " }"[1..] == "}" && "}"[1..] == "";
    assert SkipBlanks("}") == "}";
    assert SkipBlanks(" }") == SkipBlanks("}");
  }

  // ---- The printed text ----

  /** One pair between braces, with single blanks. */
  lemma PrintedForm(key: string, value: string)
    ensures InlineTable([]) == "{  }"
    ensures InlineTable([Pair(key, value)]) == "{ \"" + OnePass(key) + "\" = \"" + OnePass(value) + "\" }"
  {
    hide Escape, OnePass;
    EscapeIsOnePass(key);
    EscapeIsOnePass(value);
    var k, v := OnePass(key), OnePass(value);
    assert Quoted(key) == "\"" + k + "\"" && Quoted(value) == "\"" + v + "\"";
    assert "{ " + ("\"" + k + "\"" + " = " + ("\"" + v + "\"")) + " }" == "{ \"" + k + "\" = \"" + v + "\" }";
  }

  /** Pairs are separated by a comma and a blank. */
  lemma {:induction false} PairsAreJoined(a: seq<Pair>, b: seq<Pair>)
    requires a != [] && b != []
    ensures Items(a + b) == Items(a) + ", " + Items(b)
    decreases |a|
  {
    hide Item;
    assert (a + b)[1..] == a[1..] + b && (a + b)[0] == a[0];
    if |a| > 1 {
      PairsAreJoined(a[1..], b);
    } else {
      assert a[1..] + b == b;
    }
  }
}
