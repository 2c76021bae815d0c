/**
 What each rule replaces and by what, with the patterns spelled out: a rule matches exactly the texts
 of its form, and what it puts in their place does not depend on the value it hides.
 */
module RedactionRules {
  import opened Wrappers
  import opened Redaction

  // ---- Forms ----

  /** The text from `i` on begins with the literal, up to case. */
  predicate LikeAt(u: Unicode, lit: string, s: string, i: nat) {
    i + |lit| <= |s| && forall k :: 0 <= k < |lit| ==> u.alike(lit[k], s[i + k])
  }

  predicate Blanks(u: Unicode, s: string, i: nat, j: nat) {
    i <= j <= |s| && forall k :: i <= k < j ==> u.space(s[k])
  }

  /** A non-empty run of `[\w\-\.]` that the rest of the text does not continue. */
  predicate TokenRun(u: Unicode, s: string, i: nat, j: nat) {
    && i < j <= |s| && (forall k :: i <= k < j ==> u.word(s[k]) || s[k] == '-' || s[k] == '.')
    && (j < |s| ==> !(u.word(s[j]) || s[j] == '-' || s[j] == '.'))
  }

  /** A non-empty run of `\S` that the rest of the text does not continue. */
  predicate ValueRun(u: Unicode, s: string, i: nat, j: nat) {
    i < j <= |s| && (forall k :: i <= k < j ==> !u.space(s[k])) && (j < |s| ==> u.space(s[j]))
  }

  /** `authorization:`, blanks, `bearer` from `a` on, at least one blank, and the token from `b` to `e`. */
  predicate BearerForm(u: Unicode, s: string, i: nat, a: nat, b: nat, e: nat) {
    && LikeAt(u, "authorization:", s, i) && Blanks(u, s, i + 14, a)
    && LikeAt(u, "bearer", s, a) && a + 6 < b && Blanks(u, s, a + 6, b)
    && TokenRun(u, s, b, e)
  }

  /** One of the three header names with its colon up to `a`, blanks, and the token from `b` to `e`. */
  predicate KeyHeaderForm(u: Unicode, s: string, i: nat, a: nat, b: nat, e: nat) {
    && i <= a
    && ((LikeAt(u, "x-internal-key:", s, i) && a == i + 15) || (LikeAt(u, "x-api-key:", s, i) && a == i + 10)
        || (LikeAt(u, "x-tenant-id:", s, i) && a == i + 12))
    && Blanks(u, s, a, b) && TokenRun(u, s, b, e)
  }

  /** `https://`, at least twenty of `[\w\-]` up to `b`, and `@github.com`. */
  predicate GitUrlForm(u: Unicode, s: string, i: nat, b: nat) {
    && i + 28 <= b && b + 11 <= |s| && s[i..i + 8] == "https://" && s[b..b + 11] == "@github.com"
    && forall k :: i + 8 <= k < b ==> u.word(s[k]) || s[k] == '-'
  }

  predicate CookieName(u: Unicode, s: string, i: nat, a: nat) {
    (LikeAt(u, "set-cookie:", s, i) && a == i + 11) || (LikeAt(u, "cookie:", s, i) && a == i + 7)
  }

  /** `cookie:` or `set-cookie:` up to `a`, blanks, and the rest of the line from `b` to `e`. */
  predicate CookieForm(u: Unicode, s: string, i: nat, a: nat, b: nat, e: nat) {
    && CookieName(u, s, i, a) && Blanks(u, s, a, b)
    && b < e <= |s| && !u.space(s[b]) && (forall k :: b <= k < e ==> s[k] != '\r' && s[k] != '\n')
    && (e < |s| ==> s[e] == '\r' || s[e] == '\n')
  }

  /** With nothing but blanks up to the end of the text, the last one that breaks no line ends the match. */
  predicate BlankCookieForm(u: Unicode, s: string, i: nat, a: nat, e: nat) {
    && CookieName(u, s, i, a) && Blanks(u, s, a, |s|)
    && a < e <= |s| && s[e - 1] != '\r' && s[e - 1] != '\n'
    && forall k :: e <= k < |s| ==> s[k] == '\r' || s[k] == '\n'
  }

  /** The secret names of configuration lines; `-` and `_` are optional separators. */
  predicate SecretName(name: string) {
    || name == "password" || name == "secret"
    || name == "api" + "key" || name == "api" + "-" + "key" || name == "api" + "_" + "key"
    || name == "access" + "token" || name == "access" + "-" + "token" || name == "access" + "_" + "token"
    || name == "refresh" + "token" || name == "refresh" + "-" + "token" || name == "refresh" + "_" + "token"
    || name == "client" + "secret" || name == "client" + "-" + "secret" || name == "client" + "_" + "secret"
  }

  /**
   A line that begins at `i`, after blanks and quotation marks a secret name from `a` to `b`, blanks, `:`
   or `=` at `c`, blanks, and the value from `d` to `e`.
   */
  predicate ConfigForm(u: Unicode, s: string, i: nat, a: nat, b: nat, c: nat, d: nat, e: nat, name: string) {
    && (i == 0 || (i <= |s| && s[i - 1] == '\n'))
    && i <= a <= |s| && (forall k :: i <= k < a ==> u.space(s[k]) || s[k] == '>')
    && SecretName(name) && LikeAt(u, name, s, a) && b == a + |name|
    && Blanks(u, s, b, c) && c < |s| && (s[c] == ':' || s[c] == '=') && Blanks(u, s, c + 1, d) && ValueRun(u, s, d, e)
  }

  predicate HeaderName(name: string) {
    name == "authorization" || name == "x-api-key" || name == "x-internal-key" || name == "x-tenant-id"
  }

  /** A header name from `i` to `b` that begins a word, blanks, `:` at `c`, blanks, and the value from `d` to `e`. */
  predicate HeaderForm(u: Unicode, s: string, i: nat, b: nat, c: nat, d: nat, e: nat, name: string) {
    && (i == 0 || (i <= |s| && !u.word(s[i - 1])))
    && HeaderName(name) && LikeAt(u, name, s, i) && b == i + |name|
    && Blanks(u, s, b, c) && c < |s| && s[c] == ':' && Blanks(u, s, c + 1, d) && ValueRun(u, s, d, e)
  }

  /** No character is two different lower-case letters or marks up to case. */
  ghost predicate Cased(u: Unicode) {
    forall p, q, c :: Plain(p) && Plain(q) && u.alike(p, c) && u.alike(q, c) ==> p == q
  }

  predicate Plain(c: char) {
    'a' <= c <= 'z' || c == '_' || c == '-' || c == ':'
  }

  // ---- Literals and runs ----

  /** `Literal` is the first alternative that is there. */
  lemma {:induction false} LiteralIsFirst(u: Unicode, lits: seq<string>, s: string, i: nat)
    requires i <= |s|
    ensures Literal(u, lits, s, i) == None <==> forall k :: 0 <= k < |lits| ==> !LikeAt(u, lits[k], s, i)
    ensures Literal(u, lits, s, i).Some? ==>
      exists k :: 0 <= k < |lits| && LikeAt(u, lits[k], s, i) && |lits[k]| == Literal(u, lits, s, i).value
  {
    if lits != [] && !LikeAt(u, lits[0], s, i) {
      LiteralIsFirst(u, lits[1..], s, i);
      if Literal(u, lits, s, i).Some? {
        var k :| 0 <= k < |lits| - 1 && LikeAt(u, lits[1..][k], s, i) && |lits[1..][k]| == Literal(u, lits, s, i).value;
        assert lits[k + 1] == lits[1..][k];
      }
      assert forall k :: 1 <= k < |lits| ==> lits[k] == lits[1..][k - 1];
    }
  }

  lemma OneLiteral(u: Unicode, lit: string, s: string, i: nat)
    requires i <= |s|
    ensures Literal(u, [lit], s, i) == if LikeAt(u, lit, s, i) then Some(|lit|) else None
  {
    LiteralIsFirst(u, [lit], s, i);
  }

  lemma BlanksSpan(u: Unicode, s: string, i: nat, j: nat)
    requires Blanks(u, s, i, j) && (j < |s| ==> !u.space(s[j]))
    ensures Span(u.space, s, i) == j - i
  {
    SpanIs(u.space, s, i, j - i);
  }

  lemma SpanBlanks(u: Unicode, s: string, i: nat)
    requires i <= |s|
    ensures Blanks(u, s, i, i + Span(u.space, s, i))
  {
  }

  lemma TokensSpan(u: Unicode, s: string, i: nat, j: nat)
    requires TokenRun(u, s, i, j)
    ensures Span(Tokens(u), s, i) == j - i
  {
    SpanIs(Tokens(u), s, i, j - i);
  }

  lemma SpanTokens(u: Unicode, s: string, i: nat)
    requires i <= |s| && Span(Tokens(u), s, i) > 0
    ensures TokenRun(u, s, i, i + Span(Tokens(u), s, i))
  {
    var n := Span(Tokens(u), s, i);
    assert forall k :: i <= k < i + n ==> Tokens(u)(s[k]);
    assert i + n < |s| ==> !Tokens(u)(s[i + n]);
  }

  /** Where a literal letter, digit or mark is found there is no blank. */
  lemma NoBlankThere(u: Unicode, lit: string, s: string, i: nat)
    requires Sane(u) && LikeAt(u, lit, s, i) && lit != "" && (Plain(lit[0]) || lit[0] in "<>=:@./-")
    ensures !u.space(s[i])
  {
    assert u.alike(lit[0], s[i + 0]);
  }

  // ---- Authorization: Bearer ----

  lemma BearerMatches(u: Unicode, s: string, i: nat, a: nat, b: nat, e: nat)
    requires Sane(u) && BearerForm(u, s, i, a, b, e)
    ensures MatchAt(u, Bearer, s, i) == Some(Match(e, s[i..b] + "<redacted>"))
  {
    hide Sane, Span, Literal;
    OneLiteral(u, "authorization:", s, i);
    assert "bearer"[0] == 'b' && |"authorization:"| == 14 && |"bearer"| == 6;
    NoBlankThere(u, "bearer", s, a);
    BlanksSpan(u, s, i + 14, a);
    OneLiteral(u, "bearer", s, a);
    NoBlankInToken(u, s, b, e);
    BlanksSpan(u, s, a + 6, b);
    TokensSpan(u, s, b, e);
  }

  lemma NoBlankInToken(u: Unicode, s: string, b: nat, e: nat)
    requires Sane(u) && TokenRun(u, s, b, e)
    ensures !u.space(s[b])
  {
  }

  lemma BearerHasForm(u: Unicode, s: string, i: nat)
    requires i < |s| && MatchAt(u, Bearer, s, i).Some?
    ensures exists a, b :: BearerForm(u, s, i, a, b, MatchAt(u, Bearer, s, i).value.end)
  {
    hide Span, Literal;
    OneLiteral(u, "authorization:", s, i);
    var a := i + 14 + Span(u.space, s, i + 14);
    SpanBlanks(u, s, i + 14);
    OneLiteral(u, "bearer", s, a);
    var b := a + 6 + Span(u.space, s, a + 6);
    SpanBlanks(u, s, a + 6);
    SpanTokens(u, s, b);
    assert BearerForm(u, s, i, a, b, MatchAt(u, Bearer, s, i).value.end);
  }

  // ---- X-Internal-Key, X-Api-Key and X-Tenant-Id ----

  /** At most one of the three names is there: their hyphens stand at different places. */
  lemma OneKeyHeader(u: Unicode, s: string, i: nat)
    requires Sane(u) && i <= |s|
    ensures Literal(u, ["x-internal-key:", "x-api-key:", "x-tenant-id:"], s, i) ==
      if LikeAt(u, "x-internal-key:", s, i) then Some(15)
      else if LikeAt(u, "x-api-key:", s, i) then Some(10)
      else if LikeAt(u, "x-tenant-id:", s, i) then Some(12)
      else None
  {
    hide Sane, LikeAt;
    LiteralSplit(u, "x-internal-key:", ["x-api-key:", "x-tenant-id:"], s, i);
    LiteralSplit(u, "x-api-key:", ["x-tenant-id:"], s, i);
    OneLiteral(u, "x-tenant-id:", s, i);
    assert ["x-internal-key:", "x-api-key:", "x-tenant-id:"] == ["x-internal-key:"] + ["x-api-key:", "x-tenant-id:"];
    assert ["x-api-key:", "x-tenant-id:"] == ["x-api-key:"] + ["x-tenant-id:"];
  }

  lemma LiteralSplit(u: Unicode, lit: string, more: seq<string>, s: string, i: nat)
    requires i <= |s|
    ensures Literal(u, [lit] + more, s, i) == if LikeAt(u, lit, s, i) then Some(|lit|) else Literal(u, more, s, i)
  {
    assert ([lit] + more)[1..] == more;
  }

  /** A mark is found only as itself. */
  lemma MarkThere(u: Unicode, lit: string, s: string, i: nat, k: nat)
    requires Sane(u) && LikeAt(u, lit, s, i) && k < |lit| && lit[k] in "<>=:@./-"
    ensures s[i + k] == lit[k]
  {
  }

  lemma LetterThere(u: Unicode, lit: string, s: string, i: nat, k: nat)
    requires Sane(u) && LikeAt(u, lit, s, i) && k < |lit| && 'a' <= lit[k] <= 'z'
    ensures u.word(s[i + k])
  {
  }

  lemma KeyHeadersAreApart(u: Unicode, s: string, i: nat)
    requires Sane(u)
    ensures !(LikeAt(u, "x-internal-key:", s, i) && LikeAt(u, "x-api-key:", s, i))
    ensures !(LikeAt(u, "x-internal-key:", s, i) && LikeAt(u, "x-tenant-id:", s, i))
    ensures !(LikeAt(u, "x-api-key:", s, i) && LikeAt(u, "x-tenant-id:", s, i))
  {
    hide LikeAt;
    assert "x-internal-key:"[5] == 'e' && "x-api-key:"[5] == '-' && "x-internal-key:"[8] == 'a' && "x-tenant-id:"[8] == '-';
    assert "x-tenant-id:"[5] == 'a' && !u.word('-');
    if LikeAt(u, "x-internal-key:", s, i) {
      LetterThere(u, "x-internal-key:", s, i, 5);
      LetterThere(u, "x-internal-key:", s, i, 8);
    }
    if LikeAt(u, "x-api-key:", s, i) {
      MarkThere(u, "x-api-key:", s, i, 5);
    }
    if LikeAt(u, "x-tenant-id:", s, i) {
      MarkThere(u, "x-tenant-id:", s, i, 8);
      LetterThere(u, "x-tenant-id:", s, i, 5);
    }
  }

  lemma KeyHeaderMatches(u: Unicode, s: string, i: nat, a: nat, b: nat, e: nat)
    requires Sane(u) && KeyHeaderForm(u, s, i, a, b, e)
    ensures MatchAt(u, KeyHeader, s, i) == Some(Match(e, s[i..b] + "<redacted>"))
  {
    hide Sane, Span, Literal, LikeAt;
    OneKeyHeader(u, s, i);
    KeyHeadersAreApart(u, s, i);
    NoBlankInToken(u, s, b, e);
    BlanksSpan(u, s, a, b);
    TokensSpan(u, s, b, e);
  }

  lemma KeyHeaderHasForm(u: Unicode, s: string, i: nat)
    requires Sane(u) && i < |s| && MatchAt(u, KeyHeader, s, i).Some?
    ensures exists a, b :: KeyHeaderForm(u, s, i, a, b, MatchAt(u, KeyHeader, s, i).value.end)
  {
    hide Sane, Span, Literal, LikeAt;
    OneKeyHeader(u, s, i);
    var a := i + Literal(u, ["x-internal-key:", "x-api-key:", "x-tenant-id:"], s, i).value;
    var b := a + Span(u.space, s, a);
    SpanBlanks(u, s, a);
    SpanTokens(u, s, b);
    assert KeyHeaderForm(u, s, i, a, b, MatchAt(u, KeyHeader, s, i).value.end);
  }

  // ---- Git URLs ----

  lemma GitUrlMatches(u: Unicode, s: string, i: nat, b: nat)
    requires Sane(u) && GitUrlForm(u, s, i, b)
    ensures MatchAt(u, GitUrl, s, i) == Some(Match(b + 11, "https://<redacted>@github.com"))
  {
    hide Span, Sane, Here;
    assert s[b] == s[b..b + 11][0] == '@';
    NotDashed(u);
    SpanIs(Dashes(u), s, i + 8, b - (i + 8));
    HereIs("https://", s, i);
    HereIs("@github.com", s, b);
  }

  lemma NotDashed(u: Unicode)
    requires Sane(u)
    ensures !Dashed(u, '@')
  {
  }

  lemma HereIs(lit: string, s: string, i: nat)
    ensures Here(lit, s, i) <==> i + |lit| <= |s| && s[i..i + |lit|] == lit
  {
    if i + |lit| <= |s| {
      assert s[i..][..|lit|] == s[i..i + |lit|];
    }
  }

  lemma GitUrlHasForm(u: Unicode, s: string, i: nat)
    requires i < |s| && MatchAt(u, GitUrl, s, i).Some?
    ensures var e := MatchAt(u, GitUrl, s, i).value.end; e >= 11 && GitUrlForm(u, s, i, e - 11)
  {
    hide Span, Here;
    var n := Span(Dashes(u), s, i + 8);
    var b := i + 8 + n;
    HereIs("https://", s, i);
    HereIs("@github.com", s, b);
    forall k | i + 8 <= k < b ensures u.word(s[k]) || s[k] == '-' {
      assert Dashes(u)(s[k]);
    }
  }

  // ---- Cookies ----

  lemma OneCookie(u: Unicode, s: string, i: nat)
    requires i <= |s|
    ensures Literal(u, ["set-cookie:", "cookie:"], s, i) ==
      if LikeAt(u, "set-cookie:", s, i) then Some(11) else if LikeAt(u, "cookie:", s, i) then Some(7) else None
  {
    hide LikeAt;
    LiteralSplit(u, "set-cookie:", ["cookie:"], s, i);
    OneLiteral(u, "cookie:", s, i);
    assert ["set-cookie:", "cookie:"] == ["set-cookie:"] + ["cookie:"];
  }

  lemma CookiesAreApart(u: Unicode, s: string, i: nat)
    requires Sane(u)
    ensures !(LikeAt(u, "set-cookie:", s, i) && LikeAt(u, "cookie:", s, i))
  {
    hide LikeAt;
    assert "set-cookie:"[3] == '-' && "cookie:"[3] == 'k' && !u.word('-');
    if LikeAt(u, "set-cookie:", s, i) {
      MarkThere(u, "set-cookie:", s, i, 3);
    }
    if LikeAt(u, "cookie:", s, i) {
      LetterThere(u, "cookie:", s, i, 3);
    }
  }

  lemma CookieMatches(u: Unicode, s: string, i: nat, a: nat, b: nat, e: nat)
    requires Sane(u) && CookieForm(u, s, i, a, b, e)
    ensures MatchAt(u, Cookie, s, i) == Some(Match(e, "<redacted-cookie>"))
  {
    hide Sane, Span, Literal, LikeAt;
    OneCookie(u, s, i);
    CookiesAreApart(u, s, i);
    BlanksSpan(u, s, a, b);
    LineSpan(s, b + 1, e);
  }

  lemma LineSpan(s: string, i: nat, e: nat)
    requires i <= e <= |s| && (forall k :: i <= k < e ==> s[k] != '\r' && s[k] != '\n')
    requires e < |s| ==> s[e] == '\r' || s[e] == '\n'
    ensures Span(c => c != '\r' && c != '\n', s, i) == e - i
  {
    SpanIs(c => c != '\r' && c != '\n', s, i, e - i);
  }

  lemma BlankCookieMatches(u: Unicode, s: string, i: nat, a: nat, e: nat)
    requires Sane(u) && BlankCookieForm(u, s, i, a, e)
    ensures MatchAt(u, Cookie, s, i) == Some(Match(e, "<redacted-cookie>"))
  {
    hide Sane, Span, Literal, LikeAt;
    OneCookie(u, s, i);
    CookiesAreApart(u, s, i);
    BlanksSpan(u, s, a, |s|);
    LastBlankIs(s, a, |s|, e);
  }

  lemma {:induction false} LastBlankIs(s: string, i: nat, j: nat, e: nat)
    requires i < e <= j <= |s| && s[e - 1] != '\r' && s[e - 1] != '\n'
    requires forall k :: e <= k < j ==> s[k] == '\r' || s[k] == '\n'
    ensures LastBlank(s, i, j) == Some(e - 1)
    decreases j
  {
    if e < j {
      LastBlankIs(s, i, j - 1, e);
    }
  }

  lemma {:induction false} LastBlankFound(s: string, i: nat, j: nat)
    requires i <= j <= |s| && LastBlank(s, i, j).Some?
    ensures
      var e := LastBlank(s, i, j).value + 1;
      && i < e <= j && s[e - 1] != '\r' && s[e - 1] != '\n'
      && forall k :: e <= k < j ==> s[k] == '\r' || s[k] == '\n'
    decreases j
  {
    if !(s[j - 1] != '\r' && s[j - 1] != '\n') {
      LastBlankFound(s, i, j - 1);
    }
  }

  lemma CookieHasForm(u: Unicode, s: string, i: nat)
    requires Sane(u) && i < |s| && MatchAt(u, Cookie, s, i).Some?
    ensures
      var e := MatchAt(u, Cookie, s, i).value.end;
      (exists a, b :: CookieForm(u, s, i, a, b, e)) || (exists a :: BlankCookieForm(u, s, i, a, e))
  {
    hide Literal, LikeAt, CookieRest;
    OneCookie(u, s, i);
    if Literal(u, ["set-cookie:", "cookie:"], s, i) == None {
      NoCookie(u, s, i);
    } else {
      var n := Literal(u, ["set-cookie:", "cookie:"], s, i).value;
      CookieAtRest(u, s, i, n);
      RestHasForm(u, s, i, n);
    }
  }

  lemma RestHasForm(u: Unicode, s: string, i: nat, n: nat)
    requires Sane(u) && 0 < n && i + n <= |s| && CookieName(u, s, i, i + n) && CookieRest(u, s, i, n).Some?
    ensures
      var e := CookieRest(u, s, i, n).value.end;
      (exists a, b :: CookieForm(u, s, i, a, b, e)) || BlankCookieForm(u, s, i, i + n, e)
  {
    hide Span, CookieName;
    var a := i + n;
    var b := a + Span(u.space, s, a);
    SpanBlanks(u, s, a);
    if b < |s| {
      assert CookieForm(u, s, i, a, b, CookieRest(u, s, i, n).value.end);
    } else {
      LastBlankFound(s, a, |s|);
    }
  }

  // ---- Separators and values ----

  /** `ValueEnd` is found exactly over blanks, a separator, blanks and a value. */
  lemma ValueEndIs(u: Unicode, separators: string, s: string, b: nat, c: nat, d: nat, e: nat)
    requires Sane(u) && Blanks(u, s, b, c) && c < |s| && s[c] in separators && Blanks(u, s, c + 1, d) && ValueRun(u, s, d, e)
    requires separators == ":=" || separators == ":"
    ensures ValueEnd(u, separators, s, b) == Some(e)
  {
    hide Sane, Span, Blanks, ValueRun, ValueFrom, ValueEnd;
    BlanksOrder(u, s, b, c);
    SeparatorIsNoBlank(u, separators, s[c]);
    BlanksSpan(u, s, b, c);
    ValueFromIs(u, s, c + 1, d, e);
    ValueEndInSteps(u, separators, s, b);
  }

  lemma SeparatorIsNoBlank(u: Unicode, separators: string, c: char)
    requires Sane(u) && (separators == ":=" || separators == ":") && c in separators
    ensures !u.space(c)
  {
    assert c == ':' || c == '=';
  }

  lemma BlanksOrder(u: Unicode, s: string, i: nat, j: nat)
    requires Blanks(u, s, i, j)
    ensures i <= j <= |s|
  {
  }

  lemma ValueFromIs(u: Unicode, s: string, i: nat, d: nat, e: nat)
    requires Blanks(u, s, i, d) && ValueRun(u, s, d, e)
    ensures ValueFrom(u, s, i) == Some(e - i)
  {
    hide Span;
    BlanksSpan(u, s, i, d);
    SpanIs(c => !u.space(c), s, d, e - d);
  }

  lemma ValueEndFound(u: Unicode, separators: string, s: string, b: nat) returns (c: nat, d: nat)
    requires b <= |s| && ValueEnd(u, separators, s, b).Some?
    ensures Blanks(u, s, b, c) && c < |s| && s[c] in separators && Blanks(u, s, c + 1, d)
    ensures ValueRun(u, s, d, ValueEnd(u, separators, s, b).value)
  {
    hide Span;
    SpanBlanks(u, s, b);
    c := b + Span(u.space, s, b);
    SpanBlanks(u, s, c + 1);
    d := c + 1 + Span(u.space, s, c + 1);
    var n := Span(c => !u.space(c), s, d);
    assert forall k :: d <= k < d + n ==> !u.space(s[k]);
  }

  // ---- Names ----

  /** The alternatives of the configuration rule are the secret names. */
  lemma SecretNamesSpelledOut(name: string)
    ensures name in SECRET_NAMES <==> SecretName(name)
  {
    assert "api" + "key" == "apikey" && "api" + "-" + "key" == "api-key" && "api" + "_" + "key" == "api_key";
    assert "access" + "token" == "accesstoken" && "access" + "-" + "token" == "access-token"
        && "access" + "_" + "token" == "access_token";
    assert "refresh" + "token" == "refreshtoken" && "refresh" + "-" + "token" == "refresh-token"
        && "refresh" + "_" + "token" == "refresh_token";
    assert "client" + "secret" == "clientsecret" && "client" + "-" + "secret" == "client-secret"
        && "client" + "_" + "secret" == "client_secret";
  }

  lemma HeaderNamesSpelledOut(name: string)
    ensures name in HEADER_NAMES <==> HeaderName(name)
  {
  }

  /** Two names of which neither goes on after the other ends are told apart by one character. */
  predicate Distinguished(x: string, y: string) {
    exists k :: 0 <= k < |x| && k < |y| && x[k] != y[k]
  }

  predicate AllPlain(x: string) {
    forall k :: 0 <= k < |x| ==> Plain(x[k])
  }

  lemma NotBoth(u: Unicode, x: string, y: string, s: string, i: nat)
    requires Cased(u) && AllPlain(x) && AllPlain(y) && Distinguished(x, y)
    ensures !(LikeAt(u, x, s, i) && LikeAt(u, y, s, i))
  {
  }

  /** Three names that differ in the separator behind their stem. */
  predicate Family(stem: string, rest: string, x: string) {
    x == stem + rest || x == stem + "-" + rest || x == stem + "_" + rest
  }

  lemma FamilyIsDistinguished(stem: string, rest: string, x: string, y: string)
    requires Family(stem, rest, x) && Family(stem, rest, y) && x != y && rest != "" && rest[0] != '-' && rest[0] != '_'
    ensures Distinguished(x, y)
  {
    assert x[|stem|] != y[|stem|] by {
      assert (stem + rest)[|stem|] == rest[0];
      assert (stem + "-" + rest)[|stem|] == '-' && (stem + "_" + rest)[|stem|] == '_';
    }
  }

  /** Which family a secret name is of, by its first two letters. */
  lemma FamilyOf(x: string)
    requires SecretName(x)
    ensures |x| >= 6
    ensures x[0] == 'p' ==> x == "password"
    ensures x[0] == 's' ==> x == "secret"
    ensures x[0] == 'a' && x[1] == 'p' ==> Family("api", "key", x)
    ensures x[0] == 'a' && x[1] != 'p' ==> x[1] == 'c' && Family("access", "token", x)
    ensures x[0] == 'r' ==> Family("refresh", "token", x)
    ensures x[0] == 'c' ==> Family("client", "secret", x)
    ensures x[0] in {'p', 's', 'a', 'r', 'c'}
  {
    if Family("api", "key", x) {
      assert x[0] == 'a' && x[1] == 'p';
    } else if Family("access", "token", x) {
      assert x[0] == 'a' && x[1] == 'c';
    } else if Family("refresh", "token", x) {
      assert x[0] == 'r';
    } else if Family("client", "secret", x) {
      assert x[0] == 'c';
    } else {
      assert x[0] == 'p' || x[0] == 's';
    }
  }

  lemma SecretNamesAreDistinguished(x: string, y: string)
    requires SecretName(x) && SecretName(y) && x != y
    ensures Distinguished(x, y)
  {
    hide SecretName, Family;
    FamilyOf(x);
    FamilyOf(y);
    if x[0] == y[0] && x[1] == y[1] {
      if x[0] == 'a' && x[1] == 'p' {
        FamilyIsDistinguished("api", "key", x, y);
      } else if x[0] == 'a' {
        FamilyIsDistinguished("access", "token", x, y);
      } else if x[0] == 'r' {
        FamilyIsDistinguished("refresh", "token", x, y);
      } else if x[0] == 'c' {
        FamilyIsDistinguished("client", "secret", x, y);
      }
    }
  }

  lemma HeaderNamesAreDistinguished(x: string, y: string)
    requires HeaderName(x) && HeaderName(y) && x != y
    ensures Distinguished(x, y)
  {
    assert "authorization"[0] == 'a' && "x-api-key"[0] == 'x' && "x-internal-key"[0] == 'x' && "x-tenant-id"[0] == 'x';
    assert "x-api-key"[2] == 'a' && "x-internal-key"[2] == 'i' && "x-tenant-id"[2] == 't';
  }

  lemma FamilyIsPlain(stem: string, rest: string, x: string)
    requires Family(stem, rest, x) && AllPlain(stem) && AllPlain(rest)
    ensures AllPlain(x)
  {
  }

  lemma SecretNamesArePlain(x: string)
    requires SecretName(x)
    ensures x != "" && AllPlain(x) && 'a' <= x[0] <= 'z'
  {
    hide SecretName, Family;
    FamilyOf(x);
    if x[0] == 'a' && x[1] == 'p' {
      FamilyIsPlain("api", "key", x);
    } else if x[0] == 'a' {
      FamilyIsPlain("access", "token", x);
    } else if x[0] == 'r' {
      FamilyIsPlain("refresh", "token", x);
    } else if x[0] == 'c' {
      FamilyIsPlain("client", "secret", x);
    }
  }

  lemma HeaderNamesArePlain(x: string)
    requires HeaderName(x)
    ensures x != "" && AllPlain(x) && 'a' <= x[0] <= 'z'
  {
  }

  /** A name that is there is the only alternative that is, so `Literal` finds its length. */
  lemma NameFound(u: Unicode, lits: seq<string>, s: string, i: nat, name: string)
    requires i <= |s| && name in lits && LikeAt(u, name, s, i)
    requires forall y :: y in lits && y != name ==> !LikeAt(u, y, s, i)
    ensures Literal(u, lits, s, i) == Some(|name|)
  {
    hide LikeAt;
    LiteralIsFirst(u, lits, s, i);
    var j :| 0 <= j < |lits| && lits[j] == name;
    assert LikeAt(u, lits[j], s, i);
    var k :| 0 <= k < |lits| && LikeAt(u, lits[k], s, i) && |lits[k]| == Literal(u, lits, s, i).value;
    assert lits[k] in lits;
  }

  lemma SecretNameFound(u: Unicode, s: string, i: nat, name: string)
    requires Cased(u) && i <= |s| && SecretName(name) && LikeAt(u, name, s, i)
    ensures Literal(u, SECRET_NAMES, s, i) == Some(|name|)
  {
    hide Cased, LikeAt, SecretName, SECRET_NAMES, AllPlain, Distinguished;
    SecretNamesSpelledOut(name);
    SecretNamesArePlain(name);
    forall y | y in SECRET_NAMES && y != name ensures !LikeAt(u, y, s, i) {
      SecretNamesSpelledOut(y);
      SecretNamesArePlain(y);
      SecretNamesAreDistinguished(name, y);
      NotBoth(u, name, y, s, i);
    }
    NameFound(u, SECRET_NAMES, s, i, name);
  }

  lemma HeaderNameFound(u: Unicode, s: string, i: nat, name: string)
    requires Cased(u) && i <= |s| && HeaderName(name) && LikeAt(u, name, s, i)
    ensures Literal(u, HEADER_NAMES, s, i) == Some(|name|)
  {
    hide Cased, LikeAt, HeaderName, HEADER_NAMES, AllPlain, Distinguished;
    HeaderNamesSpelledOut(name);
    HeaderNamesArePlain(name);
    forall y | y in HEADER_NAMES && y != name ensures !LikeAt(u, y, s, i) {
      HeaderNamesSpelledOut(y);
      HeaderNamesArePlain(y);
      HeaderNamesAreDistinguished(name, y);
      NotBoth(u, name, y, s, i);
    }
    NameFound(u, HEADER_NAMES, s, i, name);
  }

  /** A name begins with a letter, so no blank or quotation mark is taken for it. */
  lemma NameBegins(u: Unicode, name: string, s: string, i: nat)
    requires Sane(u) && LikeAt(u, name, s, i) && name != "" && 'a' <= name[0] <= 'z'
    ensures i < |s| && !u.space(s[i]) && s[i] != '>'
  {
    LetterThere(u, name, s, i, 0);
  }

  // ---- Configuration lines ----

  lemma ConfigMatches(u: Unicode, s: string, i: nat, a: nat, b: nat, c: nat, d: nat, e: nat, name: string)
    requires Sane(u) && Cased(u) && ConfigForm(u, s, i, a, b, c, d, e, name)
    ensures MatchAt(u, ConfigLine, s, i) == Some(Match(e, s[a..b] + "=<redacted>"))
  {
    hide Sane, Cased, Span, Literal, LikeAt, ValueEnd, SecretName, AllPlain, SECRET_NAMES;
    SecretNamesArePlain(name);
    NameBegins(u, name, s, a);
    SpanIs(c => u.space(c) || c == '>', s, i, a - i);
    SecretNameFound(u, s, a, name);
    ValueEndIs(u, ":=", s, b, c, d, e);
  }

  lemma ConfigHasForm(u: Unicode, s: string, i: nat)
    requires i < |s| && MatchAt(u, ConfigLine, s, i).Some?
    ensures exists a, b, c, d, name :: ConfigForm(u, s, i, a, b, c, d, MatchAt(u, ConfigLine, s, i).value.end, name)
  {
    hide Span, Literal, LikeAt, ValueEnd, SecretName, SECRET_NAMES;
    var a := i + Span(c => u.space(c) || c == '>', s, i);
    LiteralIsFirst(u, SECRET_NAMES, s, a);
    var n := Literal(u, SECRET_NAMES, s, a).value;
    var k :| 0 <= k < |SECRET_NAMES| && LikeAt(u, SECRET_NAMES[k], s, a) && |SECRET_NAMES[k]| == n;
    SecretNamesSpelledOut(SECRET_NAMES[k]);
    var c, d := ValueEndFound(u, ":=", s, a + n);
    assert ConfigForm(u, s, i, a, a + n, c, d, MatchAt(u, ConfigLine, s, i).value.end, SECRET_NAMES[k]);
  }

  // ---- Header lines ----

  lemma HeaderMatches(u: Unicode, s: string, i: nat, b: nat, c: nat, d: nat, e: nat, name: string)
    requires Sane(u) && Cased(u) && HeaderForm(u, s, i, b, c, d, e, name)
    ensures MatchAt(u, HeaderLine, s, i) == Some(Match(e, s[i..b] + ": <redacted>"))
  {
    hide Sane, Cased, Span, Literal, LikeAt, ValueEnd, HeaderName, AllPlain, HEADER_NAMES;
    HeaderNameFound(u, s, i, name);
    ValueEndIs(u, ":", s, b, c, d, e);
  }

  lemma HeaderHasForm(u: Unicode, s: string, i: nat)
    requires i < |s| && MatchAt(u, HeaderLine, s, i).Some?
    ensures exists b, c, d, name :: HeaderForm(u, s, i, b, c, d, MatchAt(u, HeaderLine, s, i).value.end, name)
  {
    hide Span, Literal, LikeAt, ValueEnd, HeaderName, HEADER_NAMES;
    LiteralIsFirst(u, HEADER_NAMES, s, i);
    var n := Literal(u, HEADER_NAMES, s, i).value;
    var k :| 0 <= k < |HEADER_NAMES| && LikeAt(u, HEADER_NAMES[k], s, i) && |HEADER_NAMES[k]| == n;
    HeaderNamesSpelledOut(HEADER_NAMES[k]);
    var c, d := ValueEndFound(u, ":", s, i + n);
    assert HeaderForm(u, s, i, i + n, c, d, MatchAt(u, HeaderLine, s, i).value.end, HEADER_NAMES[k]);
  }

  // ---- The three secret shapes ----

  /** What is found is a secret of the shape: nothing shorter or of another make is replaced. */
  lemma LongestIsSecret(u: Unicode, shape: Shape, t: string)
    ensures Longest(u, shape, t) > 0 ==> IsSecret(u, shape, t[..Longest(u, shape, t)])
  {
    hide Span, Here;
    var n := Longest(u, shape, t);
    if n > 0 {
      match shape
      case Pat =>
        assert t[..n][..4] == t[..4];
      case Sk =>
        assert t[..n][..3] == t[..3];
        forall k | 3 <= k < n ensures Dashed(u, t[..n][k]) {
          assert Dashes(u)(t[k]);
        }
      case WebToken =>
        WebTokenIsSecret(u, t);
    }
  }

  lemma WebTokenIsSecret(u: Unicode, t: string)
    requires Longest(u, WebToken, t) > 0
    ensures IsSecret(u, WebToken, t[..Longest(u, WebToken, t)])
  {
    hide Span, Here, Dashed, Longest, IsWebToken;
    WebTokenParts(u, t);
    WebTokenLength(u, t);
    var a := Span(Dashes(u), t, 3);
    var b := Span(Dashes(u), t, a + 7);
    AssembleAll(u, t, a, b, Longest(u, WebToken, t));
  }

  lemma WebTokenLength(u: Unicode, t: string)
    requires Longest(u, WebToken, t) > 0
    ensures
      var a := Span(Dashes(u), t, 3);
      && a + 7 <= |t|
      && var b := Span(Dashes(u), t, a + 7);
         a + b + 8 <= |t| && Longest(u, WebToken, t) == a + b + 8 + Span(Dashes(u), t, a + b + 8)
  {
    hide Span, Here;
  }

  lemma AssembleAll(u: Unicode, t: string, a: nat, b: nat, n: nat)
    requires a >= 10 && b >= 10 && a + b + 18 <= n <= |t| && "eyJ" <= t
    requires Here(".eyJ", t, a + 3) && Here(".", t, a + b + 7)
    requires Span(Dashes(u), t, 3) == a && Span(Dashes(u), t, a + 7) == b && a + b + 8 + Span(Dashes(u), t, a + b + 8) == n
    ensures IsWebToken(u, t[..n], a, b)
  {
    hide Dashed, Here, Dashes, Span;
    HereInPrefix(t, n, a + 3, ".eyJ");
    HereInPrefix(t, n, a + b + 7, ".");
    DashesInPrefix(u, t, n, 3, a);
    DashesInPrefix(u, t, n, a + 7, b);
    DashesInPrefix(u, t, n, a + b + 8, n - (a + b + 8));
    assert t[..n][..3] == t[..3];
  }

  function RuleOf(shape: Shape): Rule {
    match shape
    case Pat => GithubToken
    case Sk => ApiKey
    case WebToken => Jwt
  }

  function MarkerOf(shape: Shape): string {
    match shape
    case Pat => "<redacted-github-token>"
    case Sk => "<redacted-api-key>"
    case WebToken => "<redacted-jwt>"
  }

  /** Each of the three rules replaces, by its own marker, exactly the longest secret that begins there. */
  lemma ShapeMatchesExactly(u: Unicode, shape: Shape, s: string, i: nat, e: nat)
    requires Sane(u) && i < e <= |s|
    ensures MatchAt(u, RuleOf(shape), s, i) == Some(Match(e, MarkerOf(shape))) <==>
      IsSecret(u, shape, s[i..e]) && forall l :: e < l <= |s| ==> !IsSecret(u, shape, s[i..l])
    ensures MatchAt(u, RuleOf(shape), s, i).Some? ==> MatchAt(u, RuleOf(shape), s, i).value.text == MarkerOf(shape)
  {
    hide Sane, Longest, IsSecret;
    var t := s[i..];
    var n := Longest(u, shape, t);
    LongestIsSecret(u, shape, t);
    forall l | i < l <= |s| && IsSecret(u, shape, s[i..l]) ensures n >= l - i {
      assert t[..l - i] == s[i..l];
      SecretIsFound(u, shape, t, l - i);
    }
    if n > 0 {
      assert t[..n] == s[i..i + n];
    }
  }

  // ---- What follows does not depend on what came before ----

  /** The little a rule sees of the text before a position. */
  predicate SameContext(u: Unicode, rule: Rule, s: string, i: nat, t: string, j: nat)
    requires i <= |s| && j <= |t|
  {
    match rule
    case ConfigLine => (i == 0 || s[i - 1] == '\n') == (j == 0 || t[j - 1] == '\n')
    case HeaderLine => (i == 0 || !u.word(s[i - 1])) == (j == 0 || !u.word(t[j - 1]))
    case _ => true
  }

  predicate SameMatch(m: Option<Match>, i: nat, n: Option<Match>, j: nat) {
    match m
    case None => n == None
    case Some(x) => n.Some? && n.value.text == x.text && n.value.end - j == x.end - i
  }

  lemma NothingSame(i: nat, j: nat)
    ensures SameMatch(None, i, None, j)
  {
  }

  /** From `i` on the one text is what the other is from `j` on. */
  predicate SameTail(s: string, i: nat, t: string, j: nat) {
    i <= |s| && j <= |t| && s[i..] == t[j..]
  }

  lemma Later(s: string, i: nat, t: string, j: nat, n: nat)
    requires SameTail(s, i, t, j) && i + n <= |s|
    ensures SameTail(s, i + n, t, j + n) && |s| - i == |t| - j && j + n <= |t|
  {
    assert |s| - i == |t| - j;
    assert s[i + n..] == s[i..][n..] && t[j + n..] == t[j..][n..];
  }

  lemma SamePart(s: string, i: nat, t: string, j: nat, n: nat)
    requires SameTail(s, i, t, j) && i + n <= |s|
    ensures j + n <= |t| && s[i..i + n] == t[j..j + n]
  {
    assert |s| - i == |t| - j;
    assert s[i..i + n] == s[i..][..n] && t[j..j + n] == t[j..][..n];
  }

  lemma SameHead(s: string, i: nat, t: string, j: nat)
    requires SameTail(s, i, t, j) && i < |s|
    ensures j < |t| && s[i] == t[j] && SameTail(s, i + 1, t, j + 1)
  {
    Later(s, i, t, j, 1);
    assert s[i] == s[i..][0] && t[j] == t[j..][0];
  }

  lemma {:induction false} SpanSame(p: char -> bool, s: string, i: nat, t: string, j: nat)
    requires SameTail(s, i, t, j)
    ensures Span(p, s, i) == Span(p, t, j)
    decreases |s| - i
  {
    Later(s, i, t, j, 0);
    if i < |s| {
      SameHead(s, i, t, j);
      SpanSame(p, s, i + 1, t, j + 1);
    }
  }

  lemma {:induction false} LiteralSame(u: Unicode, lits: seq<string>, s: string, i: nat, t: string, j: nat)
    requires SameTail(s, i, t, j)
    ensures Literal(u, lits, s, i) == Literal(u, lits, t, j)
  {
    assert |s| - i == |t| - j;
    if lits != [] {
      assert forall k :: 0 <= k < |s| - i ==> s[i + k] == s[i..][k] == t[j..][k] == t[j + k];
      LiteralSame(u, lits[1..], s, i, t, j);
    }
  }

  lemma TokenAfterSame(u: Unicode, s: string, i: nat, t: string, j: nat, n: nat)
    requires 0 < n && i + n <= |s| && SameTail(s, i, t, j)
    ensures j + n <= |t| && SameMatch(TokenAfter(u, s, i, i + n), i, TokenAfter(u, t, j, j + n), j)
  {
    hide Span, SameTail;
    Later(s, i, t, j, n);
    SamePart(s, i, t, j, n);
    SpanSame(Tokens(u), s, i + n, t, j + n);
  }

  /** How far a name from `i` on and the blanks behind it reach. */
  function Skipped(u: Unicode, lits: seq<string>, s: string, i: nat): (r: Option<nat>)
    requires i <= |s|
    ensures r.Some? ==> i + r.value <= |s|
  {
    match Literal(u, lits, s, i)
    case None => None
    case Some(n) => Some(n + Span(u.space, s, i + n))
  }

  lemma SkippedSame(u: Unicode, lits: seq<string>, s: string, i: nat, t: string, j: nat)
    requires i <= |s| && j <= |t| && SameTail(s, i, t, j)
    ensures Skipped(u, lits, s, i) == Skipped(u, lits, t, j)
  {
    hide Span, Literal, SameTail;
    LiteralSame(u, lits, s, i, t, j);
    if Literal(u, lits, s, i).Some? {
      var n := Literal(u, lits, s, i).value;
      Later(s, i, t, j, n);
      SpanSame(u.space, s, i + n, t, j + n);
    }
  }

  /** The token behind a name at `i + a`, with at least one blank in between. */
  function TokenBehind(u: Unicode, lits: seq<string>, s: string, i: nat, a: nat): Option<Match>
    requires 0 < a && i + a <= |s|
  {
    match Literal(u, lits, s, i + a)
    case None => None
    case Some(k) =>
      var gap := Span(u.space, s, i + a + k);
      if gap == 0 then None else TokenAfter(u, s, i, i + a + k + gap)
  }

  lemma TokenBehindSame(u: Unicode, lits: seq<string>, s: string, i: nat, t: string, j: nat, a: nat)
    requires 0 < a && i + a <= |s| && SameTail(s, i, t, j)
    ensures j + a <= |t| && SameMatch(TokenBehind(u, lits, s, i, a), i, TokenBehind(u, lits, t, j, a), j)
  {
    hide Span, Literal, TokenAfter, SameTail, SameMatch;
    Later(s, i, t, j, a);
    LiteralSame(u, lits, s, i + a, t, j + a);
    NothingSame(i, j);
    if Literal(u, lits, s, i + a).Some? {
      var k := Literal(u, lits, s, i + a).value;
      Later(s, i + a, t, j + a, k);
      SpanSame(u.space, s, i + a + k, t, j + a + k);
      GapSame(u, s, i, t, j, a + k);
    }
  }

  lemma GapSame(u: Unicode, s: string, i: nat, t: string, j: nat, n: nat)
    requires 0 < n && i + n <= |s| && j + n <= |t| && SameTail(s, i, t, j)
    requires Span(u.space, s, i + n) == Span(u.space, t, j + n)
    ensures
      var gap := Span(u.space, s, i + n);
      SameMatch(TokenAfter(u, s, i, i + n + gap), i, TokenAfter(u, t, j, j + n + gap), j)
  {
    hide Span, TokenAfter, SameTail, SameMatch;
    TokenAfterSame(u, s, i, t, j, n + Span(u.space, s, i + n));
  }

  lemma BearerInSteps(u: Unicode, s: string, i: nat)
    requires i < |s|
    ensures
      var a := Skipped(u, ["authorization:"], s, i);
      if a == None then BearerAt(u, s, i) == None
      else a.value > 0 && BearerAt(u, s, i) == TokenBehind(u, ["bearer"], s, i, a.value)
  {
    hide LikeAt, Span, TokenAfter;
    OneLiteral(u, "authorization:", s, i);
  }

  lemma BearerSame(u: Unicode, s: string, i: nat, t: string, j: nat)
    requires i < |s| && j < |t| && SameTail(s, i, t, j)
    ensures SameMatch(BearerAt(u, s, i), i, BearerAt(u, t, j), j)
  {
    hide BearerAt, TokenBehind, Skipped, SameTail;
    BearerInSteps(u, s, i);
    BearerInSteps(u, t, j);
    SkippedSame(u, ["authorization:"], s, i, t, j);
    var a := Skipped(u, ["authorization:"], s, i);
    if a.Some? {
      TokenBehindSame(u, ["bearer"], s, i, t, j, a.value);
    }
  }

  lemma KeyHeaderSame(u: Unicode, s: string, i: nat, t: string, j: nat)
    requires i < |s| && j < |t| && SameTail(s, i, t, j)
    ensures SameMatch(KeyHeaderAt(u, s, i), i, KeyHeaderAt(u, t, j), j)
  {
    hide Span, Literal, TokenAfter, SameTail;
    var lits := ["x-internal-key:", "x-api-key:", "x-tenant-id:"];
    LiteralSame(u, lits, s, i, t, j);
    if Literal(u, lits, s, i).Some? {
      var n := Literal(u, lits, s, i).value;
      Later(s, i, t, j, n);
      SpanSame(u.space, s, i + n, t, j + n);
      if n > 0 {
        TokenAfterSame(u, s, i, t, j, n + Span(u.space, s, i + n));
      }
    }
  }

  lemma HereSame(lit: string, s: string, i: nat, t: string, j: nat)
    requires SameTail(s, i, t, j)
    ensures Here(lit, s, i) == Here(lit, t, j)
  {
  }

  lemma GitUrlSame(u: Unicode, s: string, i: nat, t: string, j: nat)
    requires i < |s| && j < |t| && SameTail(s, i, t, j)
    ensures SameMatch(GitUrlAt(u, s, i), i, GitUrlAt(u, t, j), j)
  {
    hide Span, Here, SameTail;
    HereSame("https://", s, i, t, j);
    if Here("https://", s, i) {
      HereIs("https://", s, i);
      Later(s, i, t, j, 8);
      SpanSame(Dashes(u), s, i + 8, t, j + 8);
      var n := Span(Dashes(u), s, i + 8);
      Later(s, i, t, j, 8 + n);
      HereSame("@github.com", s, i + 8 + n, t, j + 8 + n);
    }
  }

  lemma {:induction false} LastBlankSame(s: string, i: nat, j: nat, t: string, k: nat, l: nat)
    requires i <= j <= |s| && k <= l <= |t| && s[i..j] == t[k..l]
    ensures LastBlank(s, i, j) == None <==> LastBlank(t, k, l) == None
    ensures LastBlank(s, i, j).Some? ==> LastBlank(t, k, l) == Some(LastBlank(s, i, j).value - i + k)
    decreases j - i
  {
    assert j - i == l - k;
    if i < j {
      assert s[j - 1] == s[i..j][j - 1 - i] && t[l - 1] == t[k..l][l - 1 - k];
      assert s[i..j - 1] == s[i..j][..j - 1 - i] && t[k..l - 1] == t[k..l][..l - 1 - k];
      LastBlankSame(s, i, j - 1, t, k, l - 1);
    }
  }

  /** The cookie rule behind its header name. */
  function CookieRest(u: Unicode, s: string, i: nat, n: nat): Option<Match>
    requires 0 < n && i + n <= |s|
  {
    var b := i + n + Span(u.space, s, i + n);
    if b < |s| then Some(Match(b + 1 + Span(c => c != '\r' && c != '\n', s, b + 1), "<redacted-cookie>"))
    else match LastBlank(s, i + n, b)
      case None => None
      case Some(l) => Some(Match(l + 1, "<redacted-cookie>"))
  }

  lemma CookieRestSame(u: Unicode, s: string, i: nat, t: string, j: nat, n: nat)
    requires 0 < n && i + n <= |s| && SameTail(s, i, t, j)
    ensures j + n <= |t| && SameMatch(CookieRest(u, s, i, n), i, CookieRest(u, t, j, n), j)
  {
    hide Span, LastBlank, SameTail, SameMatch, CookieRest;
    RestInSteps(u, s, i, n);
    Later(s, i, t, j, n);
    RestInSteps(u, t, j, n);
    NothingSame(i, j);
    SpanSame(u.space, s, i + n, t, j + n);
    var b := n + Span(u.space, s, i + n);
    Later(s, i, t, j, b);
    if i + b < |s| {
      LineSame(s, i, t, j, b + 1);
    } else {
      SamePart(s, i + n, t, j + n, b - n);
      LastBlankSame(s, i + n, i + b, t, j + n, j + b);
    }
    SameCookie(CookieRest(u, s, i, n), i, CookieRest(u, t, j, n), j);
  }

  /** Where the cookie rule's match ends, if there is one. */
  function RestEnd(u: Unicode, s: string, i: nat, n: nat): Option<nat>
    requires 0 < n && i + n <= |s|
  {
    var b := i + n + Span(u.space, s, i + n);
    if b < |s| then Some(b + 1 + Span(c => c != '\r' && c != '\n', s, b + 1) - i)
    else match LastBlank(s, i + n, b)
      case None => None
      case Some(l) => Some(l + 1 - i)
  }

  lemma RestInSteps(u: Unicode, s: string, i: nat, n: nat)
    requires 0 < n && i + n <= |s|
    ensures CookieRest(u, s, i, n).Some? <==> RestEnd(u, s, i, n).Some?
    ensures RestEnd(u, s, i, n).Some? ==> CookieRest(u, s, i, n) == Some(Match(i + RestEnd(u, s, i, n).value, "<redacted-cookie>"))
  {
    hide Span, LastBlank;
  }

  lemma SameCookie(m: Option<Match>, i: nat, n: Option<Match>, j: nat)
    requires m.Some? <==> n.Some?
    requires m.Some? ==> m.value.text == n.value.text && m.value.end - i == n.value.end - j
    ensures SameMatch(m, i, n, j)
  {
  }

  lemma LineSame(s: string, i: nat, t: string, j: nat, n: nat)
    requires i + n <= |s| && j + n <= |t| && SameTail(s, i, t, j)
    ensures Span(c => c != '\r' && c != '\n', s, i + n) == Span(c => c != '\r' && c != '\n', t, j + n)
  {
    Later(s, i, t, j, n);
    SpanSame(c => c != '\r' && c != '\n', s, i + n, t, j + n);
  }

  lemma CookieSame(u: Unicode, s: string, i: nat, t: string, j: nat)
    requires i < |s| && j < |t| && SameTail(s, i, t, j)
    ensures SameMatch(CookieAt(u, s, i), i, CookieAt(u, t, j), j)
  {
    hide Span, Literal, LastBlank, LikeAt, SameTail, SameMatch;
    LiteralSame(u, ["set-cookie:", "cookie:"], s, i, t, j);
    OneCookie(u, s, i);
    if Literal(u, ["set-cookie:", "cookie:"], s, i).Some? {
      var n := Literal(u, ["set-cookie:", "cookie:"], s, i).value;
      CookieAtRest(u, s, i, n);
      CookieRestSame(u, s, i, t, j, n);
      CookieAtRest(u, t, j, n);
    } else {
      NoCookie(u, s, i);
      NoCookie(u, t, j);
      assert SameMatch(None, i, None, j) by { NothingSame(i, j); }
    }
  }

  lemma CookieAtRest(u: Unicode, s: string, i: nat, n: nat)
    requires i < |s| && 0 < n && Literal(u, ["set-cookie:", "cookie:"], s, i) == Some(n)
    ensures i + n <= |s| && CookieAt(u, s, i) == CookieRest(u, s, i, n)
  {
    hide Span, LastBlank;
  }

  lemma NoCookie(u: Unicode, s: string, i: nat)
    requires i < |s| && Literal(u, ["set-cookie:", "cookie:"], s, i) == None
    ensures CookieAt(u, s, i) == None
  {
  }

  // ---- The rules that look back ----

  lemma ValueEndSame(u: Unicode, separators: string, s: string, i: nat, t: string, j: nat)
    requires i <= |s| && j <= |t| && SameTail(s, i, t, j)
    ensures ValueEnd(u, separators, s, i) == None <==> ValueEnd(u, separators, t, j) == None
    ensures ValueEnd(u, separators, s, i).Some? ==>
      ValueEnd(u, separators, t, j) == Some(ValueEnd(u, separators, s, i).value - i + j)
  {
    hide Span, SameTail, ValueFrom, ValueEnd;
    ValueEndInSteps(u, separators, s, i);
    ValueEndInSteps(u, separators, t, j);
    SpanSame(u.space, s, i, t, j);
    var a := Span(u.space, s, i);
    Later(s, i, t, j, a);
    if i + a < |s| {
      SameHead(s, i + a, t, j + a);
      ValueFromSame(u, s, i + a + 1, t, j + a + 1);
    }
  }

  /** How far blanks and a value reach. */
  function ValueFrom(u: Unicode, s: string, i: nat): Option<nat>
    requires i <= |s|
  {
    var n := Span(u.space, s, i);
    if i + n == |s| then None else Some(n + Span(c => !u.space(c), s, i + n))
  }

  lemma ValueEndInSteps(u: Unicode, separators: string, s: string, i: nat)
    requires i <= |s|
    ensures
      var j := i + Span(u.space, s, i);
      if j == |s| || s[j] !in separators || ValueFrom(u, s, j + 1) == None then ValueEnd(u, separators, s, i) == None
      else ValueEnd(u, separators, s, i) == Some(j + 1 + ValueFrom(u, s, j + 1).value)
  {
    hide Span;
  }

  lemma ValueFromSame(u: Unicode, s: string, i: nat, t: string, j: nat)
    requires i <= |s| && j <= |t| && SameTail(s, i, t, j)
    ensures ValueFrom(u, s, i) == ValueFrom(u, t, j)
  {
    hide Span, SameTail;
    SpanSame(u.space, s, i, t, j);
    var n := Span(u.space, s, i);
    Later(s, i, t, j, n);
    SpanSame(c => !u.space(c), s, i + n, t, j + n);
  }

  /** A name at `i + a`, a separator and a value: the part of both rules that looks ahead. */
  function NamedValue(u: Unicode, lits: seq<string>, separators: string, tail: string, s: string, i: nat, a: nat)
    : Option<Match>
    requires i + a <= |s|
  {
    match Literal(u, lits, s, i + a)
    case None => None
    case Some(n) =>
      match ValueEnd(u, separators, s, i + a + n)
      case None => None
      case Some(end) => Some(Match(end, s[i + a..i + a + n] + tail))
  }

  lemma NamedValueSame(u: Unicode, lits: seq<string>, separators: string, tail: string,
                       s: string, i: nat, t: string, j: nat, a: nat)
    requires i + a <= |s| && j + a <= |t| && SameTail(s, i, t, j)
    ensures SameMatch(NamedValue(u, lits, separators, tail, s, i, a), i, NamedValue(u, lits, separators, tail, t, j, a), j)
  {
    hide Literal, ValueEnd, SameTail;
    Later(s, i, t, j, a);
    LiteralSame(u, lits, s, i + a, t, j + a);
    if Literal(u, lits, s, i + a).Some? {
      var n := Literal(u, lits, s, i + a).value;
      Later(s, i + a, t, j + a, n);
      SamePart(s, i + a, t, j + a, n);
      ValueEndSame(u, separators, s, i + a + n, t, j + a + n);
    }
  }

  lemma ConfigInSteps(u: Unicode, s: string, i: nat)
    requires i < |s|
    ensures ConfigLineAt(u, s, i) ==
      if i > 0 && s[i - 1] != '\n' then None
      else NamedValue(u, SECRET_NAMES, ":=", "=<redacted>", s, i, Span(c => u.space(c) || c == '>', s, i))
  {
    hide Literal, Span, ValueEnd, SECRET_NAMES;
  }

  lemma ConfigSame(u: Unicode, s: string, i: nat, t: string, j: nat)
    requires i < |s| && j < |t| && SameTail(s, i, t, j) && SameContext(u, ConfigLine, s, i, t, j)
    ensures SameMatch(ConfigLineAt(u, s, i), i, ConfigLineAt(u, t, j), j)
  {
    hide ConfigLineAt, NamedValue, Span, SameTail, SECRET_NAMES;
    ConfigInSteps(u, s, i);
    ConfigInSteps(u, t, j);
    SpanSame(c => u.space(c) || c == '>', s, i, t, j);
    NamedValueSame(u, SECRET_NAMES, ":=", "=<redacted>", s, i, t, j, Span(c => u.space(c) || c == '>', s, i));
  }

  lemma HeaderInSteps(u: Unicode, s: string, i: nat)
    requires i < |s|
    ensures HeaderLineAt(u, s, i) ==
      if i > 0 && u.word(s[i - 1]) then None else NamedValue(u, HEADER_NAMES, ":", ": <redacted>", s, i, 0)
  {
    hide Literal, Span, ValueEnd, HEADER_NAMES;
  }

  lemma HeaderSame(u: Unicode, s: string, i: nat, t: string, j: nat)
    requires i < |s| && j < |t| && SameTail(s, i, t, j) && SameContext(u, HeaderLine, s, i, t, j)
    ensures SameMatch(HeaderLineAt(u, s, i), i, HeaderLineAt(u, t, j), j)
  {
    hide HeaderLineAt, NamedValue, SameTail, HEADER_NAMES;
    HeaderInSteps(u, s, i);
    HeaderInSteps(u, t, j);
    NamedValueSame(u, HEADER_NAMES, ":", ": <redacted>", s, i, t, j, 0);
  }

  /** A match depends on the text from its position on, and on the little a rule sees before it. */
  lemma MatchSame(u: Unicode, rule: Rule, s: string, i: nat, t: string, j: nat)
    requires i < |s| && j < |t| && SameTail(s, i, t, j) && SameContext(u, rule, s, i, t, j)
    ensures SameMatch(MatchAt(u, rule, s, i), i, MatchAt(u, rule, t, j), j)
  {
    hide BearerAt, KeyHeaderAt, GitUrlAt, CookieAt, ConfigLineAt, HeaderLineAt, Longest;
    match rule
    case Bearer => BearerSame(u, s, i, t, j);
    case KeyHeader => KeyHeaderSame(u, s, i, t, j);
    case GitUrl => GitUrlSame(u, s, i, t, j);
    case Cookie => CookieSame(u, s, i, t, j);
    case ConfigLine => ConfigSame(u, s, i, t, j);
    case HeaderLine => HeaderSame(u, s, i, t, j);
    case _ =>
  }

  /** One step of a substitution. */
  lemma Step(u: Unicode, rule: Rule, s: string, i: nat)
    requires i < |s|
    ensures MatchAt(u, rule, s, i) == None ==> SubFrom(u, rule, s, i) == [s[i]] + SubFrom(u, rule, s, i + 1)
    ensures
      MatchAt(u, rule, s, i).Some? ==>
        var m := MatchAt(u, rule, s, i).value; SubFrom(u, rule, s, i) == m.text + SubFrom(u, rule, s, m.end)
  {
    hide MatchAt;
  }

  lemma ContextBehind(u: Unicode, rule: Rule, s: string, i: nat, t: string, j: nat)
    requires i < |s| && j < |t| && s[i] == t[j]
    ensures SameContext(u, rule, s, i + 1, t, j + 1)
  {
  }

  /** So does the substitution from there on. */
  lemma {:induction false} SubSame(u: Unicode, rule: Rule, s: string, i: nat, t: string, j: nat)
    requires i <= |s| && j <= |t| && SameTail(s, i, t, j) && SameContext(u, rule, s, i, t, j)
    ensures SubFrom(u, rule, s, i) == SubFrom(u, rule, t, j)
    decreases |s| - i
  {
    hide MatchAt, SubFrom, SameTail, SameContext;
    Later(s, i, t, j, 0);
    if i < |s| {
      MatchSame(u, rule, s, i, t, j);
      SameHead(s, i, t, j);
      Step(u, rule, s, i);
      Step(u, rule, t, j);
      match MatchAt(u, rule, s, i)
      case None =>
        ContextBehind(u, rule, s, i, t, j);
        SubSame(u, rule, s, i + 1, t, j + 1);
      case Some(m) =>
        var n := m.end - i;
        Later(s, i, t, j, n);
        Later(s, i, t, j, n - 1);
        SameHead(s, i + n - 1, t, j + n - 1);
        ContextBehind(u, rule, s, i + n - 1, t, j + n - 1);
        SubSame(u, rule, s, i + n, t, j + n);
    } else {
      NothingLeft(u, rule, s);
      NothingLeft(u, rule, t);
    }
  }

  lemma NothingLeft(u: Unicode, rule: Rule, s: string)
    ensures SubFrom(u, rule, s, |s|) == ""
  {
  }
}
