/**
 Credentials are hidden: two texts that differ only in the value a rule hides come out alike, and for
 the bearer rule exactly when the header is not itself taken for the token of an earlier one.
 */
module RedactionHides {
  import opened Wrappers
  import opened Redaction
  import opened RedactionRules

  predicate SamePrefix(s: string, t: string, n: nat) {
    n <= |s| && n <= |t| && forall k :: 0 <= k < n ==> s[k] == t[k]
  }

  /** The two texts are the same apart from the value, which is `s[b..e]` in the one and `t[b..f]` in the other. */
  predicate AgreeApart(s: string, t: string, b: nat, e: nat, f: nat) {
    b <= e && b <= f && SamePrefix(s, t, b) && SameTail(s, e, t, f)
  }

  // ---- One step ----

  /** Where both texts are matched with the same result and go on alike, they come out alike. */
  lemma Replaced(u: Unicode, rule: Rule, s: string, i: nat, e: nat, t: string, f: nat, text: string)
    requires i < |s| && i < |t| && i < e <= |s| && i < f <= |t|
    requires MatchAt(u, rule, s, i) == Some(Match(e, text)) && MatchAt(u, rule, t, i) == Some(Match(f, text))
    requires SameTail(s, e, t, f) && SameContext(u, rule, s, e, t, f)
    ensures SubFrom(u, rule, s, i) == text + SubFrom(u, rule, s, e)
    ensures SubFrom(u, rule, t, i) == SubFrom(u, rule, s, i)
  {
    hide MatchAt, SubFrom, SameTail, SameContext;
    Step(u, rule, s, i);
    Step(u, rule, t, i);
    SubSame(u, rule, s, e, t, f);
  }

  lemma LikeAtSame(u: Unicode, lit: string, s: string, t: string, n: nat, i: nat)
    requires SamePrefix(s, t, n) && LikeAt(u, lit, s, i) && i + |lit| <= n
    ensures LikeAt(u, lit, t, i)
  {
  }

  lemma BlanksSame(u: Unicode, s: string, t: string, n: nat, i: nat, j: nat)
    requires SamePrefix(s, t, n) && Blanks(u, s, i, j) && j <= n
    ensures Blanks(u, t, i, j)
  {
  }

  lemma SliceSame(s: string, t: string, n: nat, i: nat, j: nat)
    requires SamePrefix(s, t, n) && i <= j <= n
    ensures s[i..j] == t[i..j]
  {
  }

  // ---- Bearer tokens ----

  lemma BearerFormSame(u: Unicode, s: string, t: string, i: nat, a: nat, b: nat, e: nat, f: nat)
    requires BearerForm(u, s, i, a, b, e) && SamePrefix(s, t, b) && TokenRun(u, t, b, f)
    ensures BearerForm(u, t, i, a, b, f)
  {
    hide LikeAt, Blanks, SamePrefix, TokenRun;
    BlanksOrder(u, s, i + 14, a);
    LikeAtSame(u, "authorization:", s, t, b, i);
    BlanksSame(u, s, t, b, i + 14, a);
    LikeAtSame(u, "bearer", s, t, b, a);
    BlanksSame(u, s, t, b, a + 6, b);
  }

  /** From a bearer header on, the result keeps the header and does not depend on the token. */
  lemma BearerHides(u: Unicode, s: string, t: string, i: nat, a: nat, b: nat, e: nat, f: nat)
    requires Sane(u) && BearerForm(u, s, i, a, b, e) && TokenRun(u, t, b, f) && AgreeApart(s, t, b, e, f)
    ensures SubFrom(u, Bearer, s, i) == s[i..b] + "<redacted>" + SubFrom(u, Bearer, s, e)
    ensures SubFrom(u, Bearer, t, i) == SubFrom(u, Bearer, s, i)
  {
    hide Sane, MatchAt, SubFrom, SameTail, LikeAt;
    BearerFormSame(u, s, t, i, a, b, e, f);
    BearerMatches(u, s, i, a, b, e);
    BearerMatches(u, t, i, a, b, f);
    SliceSame(s, t, b, i, b);
    Replaced(u, Bearer, s, i, e, t, f, s[i..b] + "<redacted>");
  }

  // ---- Internal keys, API keys and tenants ----

  lemma KeyHeaderFormSame(u: Unicode, s: string, t: string, i: nat, a: nat, b: nat, e: nat, f: nat)
    requires KeyHeaderForm(u, s, i, a, b, e) && SamePrefix(s, t, b) && TokenRun(u, t, b, f)
    ensures KeyHeaderForm(u, t, i, a, b, f)
  {
    hide LikeAt, Blanks, SamePrefix, TokenRun;
    BlanksOrder(u, s, a, b);
    BlanksSame(u, s, t, b, a, b);
    if LikeAt(u, "x-internal-key:", s, i) && a == i + 15 {
      LikeAtSame(u, "x-internal-key:", s, t, b, i);
    } else if LikeAt(u, "x-api-key:", s, i) && a == i + 10 {
      LikeAtSame(u, "x-api-key:", s, t, b, i);
    } else {
      LikeAtSame(u, "x-tenant-id:", s, t, b, i);
    }
  }

  lemma KeyHeaderHides(u: Unicode, s: string, t: string, i: nat, a: nat, b: nat, e: nat, f: nat)
    requires Sane(u) && KeyHeaderForm(u, s, i, a, b, e) && TokenRun(u, t, b, f) && AgreeApart(s, t, b, e, f)
    ensures SubFrom(u, KeyHeader, s, i) == s[i..b] + "<redacted>" + SubFrom(u, KeyHeader, s, e)
    ensures SubFrom(u, KeyHeader, t, i) == SubFrom(u, KeyHeader, s, i)
  {
    hide Sane, MatchAt, SubFrom, SameTail, LikeAt;
    KeyHeaderFormSame(u, s, t, i, a, b, e, f);
    KeyHeaderMatches(u, s, i, a, b, e);
    KeyHeaderMatches(u, t, i, a, b, f);
    SliceSame(s, t, b, i, b);
    Replaced(u, KeyHeader, s, i, e, t, f, s[i..b] + "<redacted>");
  }

  // ---- Credentials in a repository's address ----

  lemma TailIsSame(s: string, b: nat, t: string, c: nat)
    requires b <= |s| && c <= |t| && s[b..] == t[c..]
    ensures SameTail(s, b, t, c)
  {
  }

  lemma GitUrlHides(u: Unicode, s: string, t: string, i: nat, b: nat, c: nat)
    requires Sane(u) && GitUrlForm(u, s, i, b) && GitUrlForm(u, t, i, c) && s[b..] == t[c..]
    ensures SubFrom(u, GitUrl, s, i) == "https://<redacted>@github.com" + SubFrom(u, GitUrl, s, b + 11)
    ensures SubFrom(u, GitUrl, t, i) == SubFrom(u, GitUrl, s, i)
  {
    hide Sane, MatchAt, SubFrom, SameTail;
    GitUrlMatches(u, s, i, b);
    GitUrlMatches(u, t, i, c);
    TailIsSame(s, b, t, c);
    Later(s, b, t, c, 11);
    Replaced(u, GitUrl, s, i, b + 11, t, c + 11, "https://<redacted>@github.com");
  }

  // ---- Cookies ----

  /** A value on one line: it begins with no blank, and the line or the text ends behind it. */
  predicate LineRun(u: Unicode, s: string, b: nat, e: nat) {
    && b < e <= |s| && !u.space(s[b]) && (forall k :: b <= k < e ==> s[k] != '\r' && s[k] != '\n')
    && (e < |s| ==> s[e] == '\r' || s[e] == '\n')
  }

  lemma CookieFormSame(u: Unicode, s: string, t: string, i: nat, a: nat, b: nat, e: nat, f: nat)
    requires CookieForm(u, s, i, a, b, e) && SamePrefix(s, t, b) && LineRun(u, t, b, f)
    ensures CookieForm(u, t, i, a, b, f)
  {
    hide LikeAt, Blanks, SamePrefix;
    BlanksOrder(u, s, a, b);
    BlanksSame(u, s, t, b, a, b);
    if LikeAt(u, "set-cookie:", s, i) && a == i + 11 {
      LikeAtSame(u, "set-cookie:", s, t, b, i);
    } else {
      LikeAtSame(u, "cookie:", s, t, b, i);
    }
  }

  lemma CookieHides(u: Unicode, s: string, t: string, i: nat, a: nat, b: nat, e: nat, f: nat)
    requires Sane(u) && CookieForm(u, s, i, a, b, e) && LineRun(u, t, b, f) && AgreeApart(s, t, b, e, f)
    ensures SubFrom(u, Cookie, s, i) == "<redacted-cookie>" + SubFrom(u, Cookie, s, e)
    ensures SubFrom(u, Cookie, t, i) == SubFrom(u, Cookie, s, i)
  {
    hide Sane, MatchAt, SubFrom, SameTail, LikeAt;
    CookieFormSame(u, s, t, i, a, b, e, f);
    CookieMatches(u, s, i, a, b, e);
    CookieMatches(u, t, i, a, b, f);
    Replaced(u, Cookie, s, i, e, t, f, "<redacted-cookie>");
  }

  // ---- Configuration lines ----

  lemma ConfigFormSame(u: Unicode, s: string, t: string,
                       i: nat, a: nat, b: nat, c: nat, d: nat, e: nat, f: nat, name: string)
    requires ConfigForm(u, s, i, a, b, c, d, e, name) && SamePrefix(s, t, d) && ValueRun(u, t, d, f)
    ensures ConfigForm(u, t, i, a, b, c, d, f, name)
  {
    hide LikeAt, Blanks, SecretName, ValueRun;
    BlanksOrder(u, s, b, c);
    BlanksOrder(u, s, c + 1, d);
    LikeAtSame(u, name, s, t, d, a);
    BlanksSame(u, s, t, d, b, c);
    BlanksSame(u, s, t, d, c + 1, d);
  }

  lemma ValueEndsTheLine(u: Unicode, s: string, d: nat, e: nat)
    requires Sane(u) && ValueRun(u, s, d, e)
    ensures e > 0 && s[e - 1] != '\n'
  {
    assert u.space('\n');
  }

  lemma ConfigHides(u: Unicode, s: string, t: string,
                    i: nat, a: nat, b: nat, c: nat, d: nat, e: nat, f: nat, name: string)
    requires Sane(u) && Cased(u) && ConfigForm(u, s, i, a, b, c, d, e, name)
    requires ValueRun(u, t, d, f) && AgreeApart(s, t, d, e, f)
    ensures SubFrom(u, ConfigLine, s, i) == s[a..b] + "=<redacted>" + SubFrom(u, ConfigLine, s, e)
    ensures SubFrom(u, ConfigLine, t, i) == SubFrom(u, ConfigLine, s, i)
  {
    hide Sane, Cased, MatchAt, SubFrom, SameTail, LikeAt, SecretName;
    ConfigFormSame(u, s, t, i, a, b, c, d, e, f, name);
    ConfigMatches(u, s, i, a, b, c, d, e, name);
    ConfigMatches(u, t, i, a, b, c, d, f, name);
    SliceSame(s, t, d, a, b);
    ValueEndsTheLine(u, s, d, e);
    ValueEndsTheLine(u, t, d, f);
    Replaced(u, ConfigLine, s, i, e, t, f, s[a..b] + "=<redacted>");
  }

  // ---- Header lines ----

  lemma HeaderFormSame(u: Unicode, s: string, t: string, i: nat, b: nat, c: nat, d: nat, e: nat, f: nat, name: string)
    requires HeaderForm(u, s, i, b, c, d, e, name) && SamePrefix(s, t, d) && ValueRun(u, t, d, f)
    ensures HeaderForm(u, t, i, b, c, d, f, name)
  {
    hide LikeAt, Blanks, HeaderName, ValueRun;
    BlanksOrder(u, s, b, c);
    BlanksOrder(u, s, c + 1, d);
    LikeAtSame(u, name, s, t, d, i);
    BlanksSame(u, s, t, d, b, c);
    BlanksSame(u, s, t, d, c + 1, d);
  }

  /** No header begins with a blank. */
  lemma NoHeaderAtBlank(u: Unicode, s: string, e: nat)
    requires Sane(u) && e < |s| && u.space(s[e])
    ensures MatchAt(u, HeaderLine, s, e) == None
  {
    hide HeaderLineAt, HeaderName, LikeAt, Sane;
    if MatchAt(u, HeaderLine, s, e).Some? {
      HeaderHasForm(u, s, e);
      var b: nat, c: nat, d: nat, name :| HeaderForm(u, s, e, b, c, d, MatchAt(u, HeaderLine, s, e).value.end, name);
      HeaderNamesArePlain(name);
      NameBegins(u, name, s, e);
    }
  }

  /** Behind a value comes a blank or nothing, so what the value ended with makes no difference. */
  lemma BehindValue(u: Unicode, s: string, e: nat, t: string, f: nat)
    requires Sane(u) && e <= |s| && f <= |t| && SameTail(s, e, t, f) && (e < |s| ==> u.space(s[e]))
    ensures SubFrom(u, HeaderLine, s, e) == SubFrom(u, HeaderLine, t, f)
  {
    hide Sane, MatchAt, SameTail;
    Later(s, e, t, f, 0);
    if e < |s| {
      SameHead(s, e, t, f);
      NoHeaderAtBlank(u, s, e);
      NoHeaderAtBlank(u, t, f);
      SubSame(u, HeaderLine, s, e + 1, t, f + 1);
    }
  }

  lemma HeaderHides(u: Unicode, s: string, t: string,
                    i: nat, b: nat, c: nat, d: nat, e: nat, f: nat, name: string)
    requires Sane(u) && Cased(u) && HeaderForm(u, s, i, b, c, d, e, name)
    requires ValueRun(u, t, d, f) && AgreeApart(s, t, d, e, f)
    ensures SubFrom(u, HeaderLine, s, i) == s[i..b] + ": <redacted>" + SubFrom(u, HeaderLine, s, e)
    ensures SubFrom(u, HeaderLine, t, i) == SubFrom(u, HeaderLine, s, i)
  {
    hide Sane, Cased, MatchAt, SubFrom, SameTail, LikeAt, HeaderName;
    HeaderFormSame(u, s, t, i, b, c, d, e, f, name);
    HeaderMatches(u, s, i, b, c, d, e, name);
    HeaderMatches(u, t, i, b, c, d, f, name);
    SliceSame(s, t, d, i, b);
    Step(u, HeaderLine, s, i);
    Step(u, HeaderLine, t, i);
    BehindValue(u, s, e, t, f);
  }

  // ---- A bearer token in the whole text ----

  /** Going from `from` on, the substitution looks for a match at `i`, rather than have one reach over it. */
  predicate Reached(u: Unicode, rule: Rule, s: string, from: nat, i: nat)
    requires from <= |s|
    decreases |s| - from
  {
    if from >= i || from == |s| then from == i
    else match MatchAt(u, rule, s, from)
      case None => Reached(u, rule, s, from + 1, i)
      case Some(m) => Reached(u, rule, s, m.end, i)
  }

  lemma LetterIsNoBlank(u: Unicode, lit: string, s: string, i: nat, k: nat)
    requires Sane(u) && LikeAt(u, lit, s, i) && k < |lit| && 'a' <= lit[k] <= 'z'
    ensures !u.space(s[i + k]) && s[i + k] != ':' && u.word(s[i + k])
  {
    LetterThere(u, lit, s, i, k);
  }

  lemma LikeAtFits(u: Unicode, lit: string, s: string, i: nat)
    requires LikeAt(u, lit, s, i)
    ensures i + |lit| <= |s|
  {
  }

  /** In the name of the header there is neither a blank nor a colon, and a colon comes behind it. */
  lemma NameIsOneWord(u: Unicode, s: string, i: nat)
    requires Sane(u) && LikeAt(u, "authorization:", s, i)
    ensures i + 14 <= |s| && s[i + 13] == ':' && !Token(u, s[i + 13])
    ensures forall k :: i <= k < i + 13 ==> !u.space(s[k]) && s[k] != ':' && u.word(s[k])
  {
    hide LikeAt;
    assert |"authorization:"| == 14 && "authorization:"[13] == ':';
    MarkThere(u, "authorization:", s, i, 13);
    assert !Token(u, ':');
    LikeAtFits(u, "authorization:", s, i);
    forall k | i <= k < i + 13 ensures !u.space(s[k]) && s[k] != ':' && u.word(s[k]) {
      assert 'a' <= "authorization:"[k - i] <= 'z';
      LetterIsNoBlank(u, "authorization:", s, i, k - i);
    }
  }

  /** The parts of a bearer header that no header can begin in. */
  lemma NoneInside(u: Unicode, s: string, p: nat, a: nat, b: nat, e: nat, i: nat)
    requires Sane(u) && BearerForm(u, s, p, a, b, e) && LikeAt(u, "authorization:", s, i) && p < i
    ensures i >= b
  {
    hide Sane, LikeAt;
    NameIsOneWord(u, s, p);
    NameIsOneWord(u, s, i);
    assert s[p + 13] == ':' && u.space(s[a + 6]) && !u.space(s[i]);
    assert !(p < i < p + 14);
    assert !(p + 14 <= i < a);
    assert !(a <= i <= a + 6);
    assert !(a + 6 < i < b);
  }

  /** A match that reaches over a header takes its name for the token. */
  lemma TakenForTheToken(u: Unicode, s: string, p: nat, a: nat, b: nat, e: nat, i: nat)
    requires Sane(u) && BearerForm(u, s, p, a, b, e) && LikeAt(u, "authorization:", s, i) && p < i < e
    ensures b <= i && e == i + 13
  {
    hide Sane, LikeAt, Blanks;
    NoneInside(u, s, p, a, b, e, i);
    NameIsOneWord(u, s, i);
    assert forall k :: b <= k < e ==> Token(u, s[k]);
  }

  /** A match in front of a header depends on the text up to the header's colon only. */
  lemma BearerInFront(u: Unicode, s: string, t: string, i: nat, n: nat, p: nat)
    requires Sane(u) && LikeAt(u, "authorization:", s, i) && SamePrefix(s, t, n) && i + 14 <= n && p < i
    requires MatchAt(u, Bearer, s, p).Some?
    ensures MatchAt(u, Bearer, t, p) == MatchAt(u, Bearer, s, p)
  {
    hide Sane, LikeAt, MatchAt, SamePrefix, Blanks;
    BearerHasForm(u, s, p);
    var e := MatchAt(u, Bearer, s, p).value.end;
    var a: nat, b: nat :| BearerForm(u, s, p, a, b, e);
    if i < e {
      TakenForTheToken(u, s, p, a, b, e, i);
    }
    TokenRunSame(u, s, t, n, b, e);
    Shorter(s, t, n, b);
    BearerFormSame(u, s, t, p, a, b, e, e);
    BearerMatches(u, s, p, a, b, e);
    BearerMatches(u, t, p, a, b, e);
    BearerOrder(u, s, p, a, b, e);
    SliceSame(s, t, n, p, b);
  }

  lemma BearerOrder(u: Unicode, s: string, i: nat, a: nat, b: nat, e: nat)
    requires BearerForm(u, s, i, a, b, e)
    ensures i + 14 <= a && a + 6 < b < e <= |s|
  {
  }

  lemma BearerBegins(u: Unicode, s: string, i: nat, a: nat, b: nat, e: nat)
    requires BearerForm(u, s, i, a, b, e)
    ensures LikeAt(u, "authorization:", s, i)
  {
  }

  lemma SameChar(s: string, t: string, n: nat, k: nat)
    requires SamePrefix(s, t, n) && k < n
    ensures k < |s| && k < |t| && s[k] == t[k]
  {
  }

  lemma Shorter(s: string, t: string, n: nat, m: nat)
    requires SamePrefix(s, t, n) && m <= n
    ensures SamePrefix(s, t, m)
  {
  }

  lemma TokenRunSame(u: Unicode, s: string, t: string, n: nat, b: nat, e: nat)
    requires SamePrefix(s, t, n) && TokenRun(u, s, b, e) && e < n
    ensures TokenRun(u, t, b, e)
  {
  }

  /** In front of a header two texts that differ behind it are matched alike. */
  lemma AlikeInFront(u: Unicode, s: string, t: string, i: nat, n: nat, p: nat)
    requires Sane(u) && LikeAt(u, "authorization:", s, i) && SamePrefix(s, t, n) && i + 14 <= n && p < i
    ensures p < |s| && p < |t| && MatchAt(u, Bearer, t, p) == MatchAt(u, Bearer, s, p)
  {
    hide Sane, LikeAt, MatchAt;
    LikeAtSame(u, "authorization:", s, t, n, i);
    if MatchAt(u, Bearer, s, p).Some? {
      BearerInFront(u, s, t, i, n, p);
    } else if MatchAt(u, Bearer, t, p).Some? {
      BearerInFront(u, t, s, i, n, p);
    }
  }

  lemma {:induction false} HiddenFrom(u: Unicode, s: string, t: string, from: nat, i: nat, a: nat, b: nat, e: nat, f: nat)
    requires Sane(u) && BearerForm(u, s, i, a, b, e) && TokenRun(u, t, b, f) && AgreeApart(s, t, b, e, f)
    requires from <= i && Reached(u, Bearer, s, from, i)
    ensures SubFrom(u, Bearer, t, from) == SubFrom(u, Bearer, s, from)
    decreases |s| - from
  {
    hide Sane, MatchAt, SubFrom, BearerForm, TokenRun, SamePrefix, SameTail;
    BearerOrder(u, s, i, a, b, e);
    if from == i {
      BearerHides(u, s, t, i, a, b, e, f);
    } else {
      BearerBegins(u, s, i, a, b, e);
      SameChar(s, t, b, from);
      AlikeInFront(u, s, t, i, b, from);
      Step(u, Bearer, s, from);
      Step(u, Bearer, t, from);
      match MatchAt(u, Bearer, s, from)
      case None => HiddenFrom(u, s, t, from + 1, i, a, b, e, f);
      case Some(m) =>
        ReachedBound(u, s, m.end, i);
        HiddenFrom(u, s, t, m.end, i, a, b, e, f);
    }
  }

  lemma ReachedBound(u: Unicode, s: string, from: nat, i: nat)
    requires from <= |s| && Reached(u, Bearer, s, from, i)
    ensures from <= i
  {
  }

  /** The first header of a text is always come to. */
  lemma {:induction false} FirstIsReached(u: Unicode, s: string, from: nat, i: nat)
    requires from <= i <= |s| && forall p :: from <= p < i ==> !LikeAt(u, "authorization:", s, p)
    ensures Reached(u, Bearer, s, from, i)
    decreases i - from
  {
    hide MatchAt, LikeAt;
    if from < i {
      if MatchAt(u, Bearer, s, from).Some? {
        BearerHasForm(u, s, from);
        assert false;
      }
      FirstIsReached(u, s, from + 1, i);
    }
  }

  /** The nine rules are applied in this order, each to what the one before has made. */
  lemma NineRules(u: Unicode, s: string)
    ensures
      var a := SubFrom(u, Bearer, s, 0);
      var b := SubFrom(u, KeyHeader, a, 0);
      var c := SubFrom(u, GitUrl, b, 0);
      var d := SubFrom(u, GithubToken, c, 0);
      var e := SubFrom(u, ApiKey, d, 0);
      var f := SubFrom(u, Cookie, e, 0);
      var g := SubFrom(u, Jwt, f, 0);
      var h := SubFrom(u, ConfigLine, g, 0);
      After(u, s, |RULES|) == SubFrom(u, HeaderLine, h, 0)
  {
    hide SubFrom;
    assert |RULES| == 9 && After(u, s, 0) == s;
    assert After(u, s, 2) == SubFrom(u, KeyHeader, SubFrom(u, Bearer, s, 0), 0);
    assert After(u, s, 4) == SubFrom(u, GithubToken, SubFrom(u, GitUrl, After(u, s, 2), 0), 0);
    assert After(u, s, 6) == SubFrom(u, Cookie, SubFrom(u, ApiKey, After(u, s, 4), 0), 0);
    assert After(u, s, 8) == SubFrom(u, ConfigLine, SubFrom(u, Jwt, After(u, s, 6), 0), 0);
  }

  lemma {:induction false} AfterSame(u: Unicode, s: string, t: string, k: nat)
    requires 1 <= k <= |RULES| && SubFrom(u, Bearer, s, 0) == SubFrom(u, Bearer, t, 0)
    ensures After(u, s, k) == After(u, t, k)
  {
    hide SubFrom;
    if k > 1 {
      AfterSame(u, s, t, k - 1);
    } else {
      assert After(u, s, 0) == s && After(u, t, 0) == t;
    }
  }

  /** A bearer token the scan comes to makes no difference to the result of the first rule, nor to any later one. */
  lemma BearerIsHidden(u: Unicode, s: string, t: string, i: nat, a: nat, b: nat, e: nat, f: nat, k: nat)
    requires Sane(u) && BearerForm(u, s, i, a, b, e) && TokenRun(u, t, b, f) && AgreeApart(s, t, b, e, f)
    requires Reached(u, Bearer, s, 0, i) && 1 <= k <= 9
    ensures After(u, s, k) == After(u, t, k)
  {
    hide Sane, SubFrom, BearerForm, TokenRun, AgreeApart, Reached, After;
    HiddenFrom(u, s, t, 0, i, a, b, e, f);
    AfterSame(u, s, t, k);
  }

  // ---- A bearer token the scan passes by ----

  lemma NoMatchInside(u: Unicode, s: string, i: nat, a: nat, b: nat, e: nat, p: nat)
    requires Sane(u) && BearerForm(u, s, i, a, b, e) && i < p < b
    ensures p < |s| && MatchAt(u, Bearer, s, p) == None
  {
    hide Sane, MatchAt;
    if MatchAt(u, Bearer, s, p).Some? {
      BearerHasForm(u, s, p);
      var c: nat, d: nat :| BearerForm(u, s, p, c, d, MatchAt(u, Bearer, s, p).value.end);
      NoneInside(u, s, i, a, b, e, p);
    }
  }

  /** Behind the name of a header that is passed by, everything up to the token is copied. */
  lemma {:induction false} CopiedToTheToken(u: Unicode, s: string, i: nat, a: nat, b: nat, e: nat, p: nat)
    requires Sane(u) && BearerForm(u, s, i, a, b, e) && i < p <= b
    ensures p <= |s| && SubFrom(u, Bearer, s, p) == s[p..b] + SubFrom(u, Bearer, s, b)
    decreases b - p
  {
    hide Sane, MatchAt, SubFrom, BearerForm;
    BearerOrder(u, s, i, a, b, e);
    if p < b {
      NoMatchInside(u, s, i, a, b, e, p);
      Step(u, Bearer, s, p);
      CopiedToTheToken(u, s, i, a, b, e, p + 1);
      assert s[p..b] == [s[p]] + s[p + 1..b];
    } else {
      assert s[p..b] == "";
    }
  }

  /** A header that begins in a token begins with what is left of it, and that is kept. */
  lemma HeaderInToken(u: Unicode, s: string, b: nat, e: nat, q: nat)
    requires Sane(u) && TokenRun(u, s, b, e) && b <= q < e && MatchAt(u, Bearer, s, q).Some?
    ensures s[q..e] <= MatchAt(u, Bearer, s, q).value.text
  {
    hide Sane, MatchAt, LikeAt, Blanks;
    BearerHasForm(u, s, q);
    var end := MatchAt(u, Bearer, s, q).value.end;
    var c: nat, d: nat :| BearerForm(u, s, q, c, d, end);
    BearerMatches(u, s, q, c, d, end);
    BearerOrder(u, s, q, c, d, end);
    NameIsOneWord(u, s, q);
    assert forall k :: b <= k < e ==> Token(u, s[k]);
    assert e <= q + 13;
    assert s[q..d] == s[q..e] + s[e..d];
  }

  lemma {:induction false} TokenStands(u: Unicode, s: string, b: nat, e: nat, q: nat)
    requires Sane(u) && TokenRun(u, s, b, e) && b <= q <= e
    ensures s[q..e] <= SubFrom(u, Bearer, s, q)
    decreases e - q
  {
    hide Sane, MatchAt, SubFrom;
    if q < e {
      Step(u, Bearer, s, q);
      if MatchAt(u, Bearer, s, q).Some? {
        HeaderInToken(u, s, b, e, q);
      } else {
        TokenStands(u, s, b, e, q + 1);
        assert s[q..e] == [s[q]] + s[q + 1..e];
      }
    }
  }

  /** Some text, then `w`, then some text. */
  ghost predicate Holds(out: string, w: string) {
    exists x, y :: out == x + w + y
  }

  lemma HoldsBehind(x: string, out: string, w: string)
    requires Holds(out, w)
    ensures Holds(x + out, w)
  {
    var y, z :| out == y + w + z;
    assert x + out == (x + y) + w + z;
  }

  lemma HoldsFirst(x: string, out: string, w: string)
    requires w <= out
    ensures Holds(x + out, w)
  {
    assert x + out == x + w + out[|w|..];
  }

  /** A header the scan does not come to is the token of an earlier one, and its own token stays. */
  lemma {:induction false} BearerIsMissed(u: Unicode, s: string, from: nat, i: nat, a: nat, b: nat, e: nat)
    requires Sane(u) && BearerForm(u, s, i, a, b, e) && from <= i && !Reached(u, Bearer, s, from, i)
    ensures Holds(SubFrom(u, Bearer, s, from), s[b..e])
    decreases |s| - from
  {
    hide Sane, MatchAt, SubFrom, Holds, BearerForm;
    BearerOrder(u, s, i, a, b, e);
    Step(u, Bearer, s, from);
    match MatchAt(u, Bearer, s, from)
    case None =>
      BearerIsMissed(u, s, from + 1, i, a, b, e);
      HoldsBehind([s[from]], SubFrom(u, Bearer, s, from + 1), s[b..e]);
    case Some(m) =>
      if m.end <= i {
        BearerIsMissed(u, s, m.end, i, a, b, e);
      } else {
        MissedHere(u, s, from, i, a, b, e);
      }
      HoldsBehind(m.text, SubFrom(u, Bearer, s, m.end), s[b..e]);
  }

  lemma MissedHere(u: Unicode, s: string, from: nat, i: nat, a: nat, b: nat, e: nat)
    requires Sane(u) && BearerForm(u, s, i, a, b, e) && from < i && MatchAt(u, Bearer, s, from).Some?
    requires MatchAt(u, Bearer, s, from).value.end > i
    ensures Holds(SubFrom(u, Bearer, s, MatchAt(u, Bearer, s, from).value.end), s[b..e])
  {
    hide Sane, MatchAt, SubFrom, Holds, LikeAt, Blanks, TokenRun;
    var end := MatchAt(u, Bearer, s, from).value.end;
    BearerHasForm(u, s, from);
    var c: nat, d: nat :| BearerForm(u, s, from, c, d, end);
    TakenForTheToken(u, s, from, c, d, end, i);
    BearerOrder(u, s, i, a, b, e);
    CopiedToTheToken(u, s, i, a, b, e, end);
    TokenStands(u, s, b, e, b);
    HoldsFirst(s[end..b], SubFrom(u, Bearer, s, b), s[b..e]);
  }

  const LINE: string := "authorization: bearer "

  /**
   A header that is itself taken for a token is such a header: the first rule ends its match at the
   inner name, and whatever token the inner header presents stays.
   */
  lemma NestedHeaderIsMissed(u: Unicode, w: string)
    requires Sane(u) && (forall c :: u.alike(c, c)) && w != "" && AllToken(u, w)
    ensures
      var s := LINE + LINE + w;
      && BearerForm(u, s, 22, 37, 44, 44 + |w|) && !Reached(u, Bearer, s, 0, 22)
      && SubFrom(u, Bearer, s, 0) == LINE + "<redacted>" + (": bearer " + w)
  {
    hide Sane, MatchAt, SubFrom, Reached, BearerForm, AllToken, LINE;
    var s := LINE + LINE + w;
    LineParts(w);
    WrittenOut(u, LINE, w, "");
    assert s == LINE + LINE + w + "";
    NestedName(u, w);
    BearerMatches(u, s, 0, 15, 22, 35);
    ReachedStep(u, s, 0, 22);
    Step(u, Bearer, s, 0);
    CopiedToTheToken(u, s, 22, 37, 44, 44 + |w|, 35);
    TokensStay(u, s, 44);
  }

  lemma LineParts(w: string)
    ensures |LINE| == 22 && LINE == "authorization" + ": bearer "
    ensures
      var s := LINE + LINE + w;
      s[0..22] == LINE && s[35..44] == ": bearer " && s[44..] == w
  {
    var s := LINE + LINE + w;
    assert LINE == "authorization" + ": bearer ";
    assert s[35..44] == LINE[13..22];
  }

  lemma NestedName(u: Unicode, w: string)
    requires Sane(u) && forall c :: u.alike(c, c)
    ensures BearerForm(u, LINE + LINE + w, 0, 15, 22, 35)
  {
    hide Sane, BearerForm, AllToken, LINE;
    LineParts(w);
    PlainTokens(u);
    WrittenOut(u, "", "authorization", ": bearer " + w);
    assert LINE + LINE + w == "" + LINE + "authorization" + (": bearer " + w);
  }

  lemma PlainTokens(u: Unicode)
    requires Sane(u)
    ensures AllToken(u, "authorization") && !Token(u, ':')
  {
    assert forall c :: c in "authorization" ==> 'a' <= c <= 'z';
  }

  /** A header written out with its token is of the form. */
  lemma WrittenOut(u: Unicode, x: string, w: string, y: string)
    requires Sane(u) && (forall c :: u.alike(c, c)) && w != "" && AllToken(u, w) && (y != "" ==> !Token(u, y[0]))
    ensures BearerForm(u, x + LINE + w + y, |x|, |x| + 15, |x| + 22, |x| + 22 + |w|)
  {
    hide Sane, LikeAt, LINE;
    var s, i := x + LINE + w + y, |x|;
    assert |LINE| == 22 && LINE[14] == ' ' && LINE[21] == ' ' by { LineBlanks(); }
    assert s[i + 14] == ' ' && s[i + 21] == ' ';
    SpaceIsBlank(u);
    HeaderIsThere(u, x, w + y);
    assert s == x + LINE + (w + y);
    assert forall k :: i + 22 <= k < i + 22 + |w| ==> s[k] == w[k - (i + 22)] && Token(u, s[k]);
  }

  lemma LineBlanks()
    ensures |LINE| == 22 && LINE[14] == ' ' && LINE[21] == ' '
  {
  }

  lemma HeaderIsThere(u: Unicode, x: string, y: string)
    requires forall c :: u.alike(c, c)
    ensures LikeAt(u, "authorization:", x + LINE + y, |x|) && LikeAt(u, "bearer", x + LINE + y, |x| + 15)
  {
    hide LikeAt;
    assert LINE == "authorization:" + " bearer " && LINE == "authorization: " + "bearer" + " ";
    assert x + LINE + y == x + "authorization:" + (" bearer " + y);
    LiterallyThere(u, "authorization:", x, " bearer " + y);
    assert x + LINE + y == (x + "authorization: ") + "bearer" + (" " + y);
    LiterallyThere(u, "bearer", x + "authorization: ", " " + y);
  }

  lemma SpaceIsBlank(u: Unicode)
    requires Sane(u)
    ensures u.space(' ')
  {
  }

  lemma LiterallyThere(u: Unicode, lit: string, x: string, y: string)
    requires forall c :: u.alike(c, c)
    ensures LikeAt(u, lit, x + lit + y, |x|)
  {
  }

  lemma ReachedStep(u: Unicode, s: string, from: nat, i: nat)
    requires from < i <= |s| && MatchAt(u, Bearer, s, from).Some? && MatchAt(u, Bearer, s, from).value.end > i
    ensures !Reached(u, Bearer, s, from, i)
  {
    hide MatchAt;
  }

  /** Token characters alone hold no header. */
  lemma {:induction false} TokensStay(u: Unicode, s: string, p: nat)
    requires Sane(u) && p <= |s| && AllToken(u, s[p..])
    ensures SubFrom(u, Bearer, s, p) == s[p..]
    decreases |s| - p
  {
    hide MatchAt, SubFrom, Sane;
    if p < |s| {
      NoColonNoMatch(u, s, p);
      Step(u, Bearer, s, p);
      assert s[p..] == [s[p]] + s[p + 1..];
      TokensStay(u, s, p + 1);
    } else {
      NothingLeft(u, Bearer, s);
    }
  }

  lemma NoColonNoMatch(u: Unicode, s: string, p: nat)
    requires Sane(u) && p < |s| && AllToken(u, s[p..])
    ensures MatchAt(u, Bearer, s, p) == None
  {
    hide Sane, MatchAt, LikeAt, Token;
    assert forall k :: p <= k < |s| ==> s[k] == s[p..][k - p];
    if MatchAt(u, Bearer, s, p).Some? {
      BearerHasForm(u, s, p);
      NameIsOneWord(u, s, p);
    }
  }
}
