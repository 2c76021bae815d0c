/**
 The text redactor: nine pattern substitutions applied in order. A pattern is modelled by the one
 match it can have at a position; all of them are greedy, and the classes that follow one another
 are disjoint, so apart from the cookie rule no choice is ever revised.
 */
module Redaction {
  import opened Wrappers

  /** The character classes of the pattern language: `\w`, `\s`, and equality up to case. */
  datatype Unicode = Unicode(word: char -> bool, space: char -> bool, alike: (char, char) -> bool)

  /** What the character tables say about the punctuation the rules use. */
  ghost predicate Sane(u: Unicode) {
    && (forall c :: c in "<>=:@./- \t\r\n" ==> !u.word(c))
    && (forall c :: 'a' <= c <= 'z' || 'A' <= c <= 'Z' || '0' <= c <= '9' || c == '_' ==> u.word(c))
    && (forall c :: c in " \t\r\n" ==> u.space(c))
    && (forall c :: u.space(c) ==> !u.word(c) && c !in "<>=:@./-")
    && (forall p, c :: u.alike(p, c) ==> p == c || (u.word(p) && u.word(c)))
  }

  predicate Dashed(u: Unicode, c: char) { u.word(c) || c == '-' }

  predicate Token(u: Unicode, c: char) { u.word(c) || c == '-' || c == '.' }

  function Dashes(u: Unicode): char -> bool { c => Dashed(u, c) }

  function Tokens(u: Unicode): char -> bool { c => Token(u, c) }

  /** How many characters from `i` on satisfy `p`. */
  function Span(p: char -> bool, s: string, i: nat): (n: nat)
    requires i <= |s|
    ensures i + n <= |s| && forall k :: i <= k < i + n ==> p(s[k])
    ensures i + n < |s| ==> !p(s[i + n])
    decreases |s| - i
  {
    if i == |s| || !p(s[i]) then 0 else 1 + Span(p, s, i + 1)
  }

  /** The length of the first alternative found at `i`, ignoring case. */
  function Literal(u: Unicode, lits: seq<string>, s: string, i: nat): (r: Option<nat>)
    requires i <= |s|
    ensures r.Some? ==> i + r.value <= |s| && exists lit :: lit in lits && |lit| == r.value
  {
    if lits == [] then None
    else if i + |lits[0]| <= |s| && forall k :: 0 <= k < |lits[0]| ==> u.alike(lits[0][k], s[i + k]) then Some(|lits[0]|)
    else Literal(u, lits[1..], s, i)
  }

  predicate Here(lit: string, s: string, i: nat) {
    i <= |s| && lit <= s[i..]
  }

  // ---- The rules ----

  datatype Rule =
    | Bearer | KeyHeader | GitUrl | GithubToken | ApiKey | Cookie | Jwt | ConfigLine | HeaderLine

  const RULES: seq<Rule> := [Bearer, KeyHeader, GitUrl, GithubToken, ApiKey, Cookie, Jwt, ConfigLine, HeaderLine]

  const SECRET_NAMES: seq<string> := [
    "api_key", "api-key", "apikey", "password", "secret",
    "access_token", "access-token", "accesstoken", "refresh_token", "refresh-token", "refreshtoken",
    "client_secret", "client-secret", "clientsecret"]

  const HEADER_NAMES: seq<string> := ["authorization", "x-api-key", "x-internal-key", "x-tenant-id"]

  /** A match: where it ends and what replaces it. */
  datatype Match = Match(end: nat, text: string)

  function MatchAt(u: Unicode, rule: Rule, s: string, i: nat): (m: Option<Match>)
    requires i < |s|
    ensures m.Some? ==> i < m.value.end <= |s|
  {
    match rule
    case Bearer => BearerAt(u, s, i)
    case KeyHeader => KeyHeaderAt(u, s, i)
    case GitUrl => GitUrlAt(u, s, i)
    case GithubToken => ShapeMatch(u, Pat, s, i, "<redacted-github-token>")
    case ApiKey => ShapeMatch(u, Sk, s, i, "<redacted-api-key>")
    case Cookie => CookieAt(u, s, i)
    case Jwt => ShapeMatch(u, WebToken, s, i, "<redacted-jwt>")
    case ConfigLine => ConfigLineAt(u, s, i)
    case HeaderLine => HeaderLineAt(u, s, i)
  }

  /** A kept prefix up to `from`, then one or more token characters. */
  function TokenAfter(u: Unicode, s: string, i: nat, from: nat): (m: Option<Match>)
    requires i < from <= |s|
    ensures m.Some? ==> i < m.value.end <= |s|
  {
    var n := Span(Tokens(u), s, from);
    if n == 0 then None else Some(Match(from + n, s[i..from] + "<redacted>"))
  }

  function BearerAt(u: Unicode, s: string, i: nat): (m: Option<Match>)
    requires i < |s|
    ensures m.Some? ==> i < m.value.end <= |s|
  {
    match Literal(u, ["authorization:"], s, i)
    case None => None
    case Some(n) =>
      var j := i + n + Span(u.space, s, i + n);
      match Literal(u, ["bearer"], s, j)
      case None => None
      case Some(k) =>
        var gap := Span(u.space, s, j + k);
        if gap == 0 then None else TokenAfter(u, s, i, j + k + gap)
  }

  function KeyHeaderAt(u: Unicode, s: string, i: nat): (m: Option<Match>)
    requires i < |s|
    ensures m.Some? ==> i < m.value.end <= |s|
  {
    match Literal(u, ["x-internal-key:", "x-api-key:", "x-tenant-id:"], s, i)
    case None => None
    case Some(n) =>
      if n == 0 then None else TokenAfter(u, s, i, i + n + Span(u.space, s, i + n))
  }

  function GitUrlAt(u: Unicode, s: string, i: nat): (m: Option<Match>)
    requires i < |s|
    ensures m.Some? ==> i < m.value.end <= |s|
  {
    if !Here("https://", s, i) then None
    else
      var n := Span(Dashes(u), s, i + 8);
      if n < 20 || !Here("@github.com", s, i + 8 + n) then None
      else Some(Match(i + 8 + n + 11, "https://<redacted>@github.com"))
  }

  /** The last position below `j`, but not below `i`, holding something other than a line break. */
  function LastBlank(s: string, i: nat, j: nat): (r: Option<nat>)
    requires i <= j <= |s|
    ensures r.Some? ==> i <= r.value < j
  {
    if i == j then None
    else if s[j - 1] != '\r' && s[j - 1] != '\n' then Some(j - 1)
    else LastBlank(s, i, j - 1)
  }

  /** Blanks may run over line breaks; at the end of the text the rule settles for a blank as the value. */
  function CookieAt(u: Unicode, s: string, i: nat): (m: Option<Match>)
    requires i < |s|
    ensures m.Some? ==> i < m.value.end <= |s|
  {
    match Literal(u, ["set-cookie:", "cookie:"], s, i)
    case None => None
    case Some(n) =>
      var j := i + n;
      var value := j + Span(u.space, s, j);
      if value < |s| then
        Some(Match(value + 1 + Span(c => c != '\r' && c != '\n', s, value + 1), "<redacted-cookie>"))
      else match LastBlank(s, j, value)
        case None => None
        case Some(b) => Some(Match(b + 1, "<redacted-cookie>"))
  }

  /** Blanks, one of the separators, blanks, and a value: where the value ends. */
  function ValueEnd(u: Unicode, separators: string, s: string, i: nat): (r: Option<nat>)
    requires i <= |s|
    ensures r.Some? ==> i < r.value <= |s|
  {
    var j := i + Span(u.space, s, i);
    if j == |s| || s[j] !in separators then None
    else
      var v := j + 1 + Span(u.space, s, j + 1);
      if v == |s| then None else Some(v + Span(c => !u.space(c), s, v))
  }

  function ConfigLineAt(u: Unicode, s: string, i: nat): (m: Option<Match>)
    requires i < |s|
    ensures m.Some? ==> i < m.value.end <= |s|
  {
    if i > 0 && s[i - 1] != '\n' then None
    else
      var j := i + Span(c => u.space(c) || c == '>', s, i);
      match Literal(u, SECRET_NAMES, s, j)
      case None => None
      case Some(n) =>
        match ValueEnd(u, ":=", s, j + n)
        case None => None
        case Some(end) => Some(Match(end, s[j..j + n] + "=<redacted>"))
  }

  function HeaderLineAt(u: Unicode, s: string, i: nat): (m: Option<Match>)
    requires i < |s|
    ensures m.Some? ==> i < m.value.end <= |s|
  {
    if i > 0 && u.word(s[i - 1]) then None
    else
      match Literal(u, HEADER_NAMES, s, i)
      case None => None
      case Some(n) =>
        match ValueEnd(u, ":", s, i + n)
        case None => None
        case Some(end) => Some(Match(end, s[i..i + n] + ": <redacted>"))
  }

  // ---- The three secret shapes ----

  datatype Shape = Pat | Sk | WebToken

  const PAT_PREFIXES: set<string> := {"ghp_", "gho_", "ghs_", "ghr_"}

  /** The whole text is a secret of the given shape. */
  ghost predicate IsSecret(u: Unicode, shape: Shape, w: string) {
    match shape
    case Pat =>
      |w| >= 24 && w[..4] in PAT_PREFIXES && forall k :: 4 <= k < |w| ==> u.word(w[k])
    case Sk =>
      |w| >= 23 && w[..3] == "sk-" && forall k :: 3 <= k < |w| ==> Dashed(u, w[k])
    case WebToken =>
      exists a: nat, b: nat :: IsWebToken(u, w, a, b)
  }

  /** A JSON web token whose first two segments are `a + 3` and `b + 3` characters long. */
  ghost predicate IsWebToken(u: Unicode, w: string, a: nat, b: nat) {
    && a >= 10 && b >= 10 && |w| >= a + b + 18
    && w[..3] == "eyJ" && w[a + 3..a + 7] == ".eyJ" && w[a + b + 7] == '.'
    && (forall k :: 3 <= k < a + 3 ==> Dashed(u, w[k]))
    && (forall k :: a + 7 <= k < a + b + 7 ==> Dashed(u, w[k]))
    && (forall k :: a + b + 8 <= k < |w| ==> Dashed(u, w[k]))
  }

  /** The length of the longest secret of a shape at the start of a text, 0 when there is none. */
  function Longest(u: Unicode, shape: Shape, t: string): (n: nat)
    ensures n <= |t|
  {
    match shape
    case Pat =>
      if |t| < 4 || t[..4] !in PAT_PREFIXES then 0
      else var n := Span(u.word, t, 4); if n < 20 then 0 else 4 + n
    case Sk =>
      if !("sk-" <= t) then 0
      else var n := Span(Dashes(u), t, 3); if n < 20 then 0 else 3 + n
    case WebToken =>
      if !("eyJ" <= t) then 0
      else
        var a := Span(Dashes(u), t, 3);
        if a < 10 || !Here(".eyJ", t, a + 3) then 0
        else
          var b := Span(Dashes(u), t, a + 7);
          if b < 10 || !Here(".", t, a + b + 7) then 0
          else var n := Span(Dashes(u), t, a + b + 8); if n < 10 then 0 else a + b + 8 + n
  }

  function ShapeMatch(u: Unicode, shape: Shape, s: string, i: nat, text: string): (m: Option<Match>)
    requires i < |s|
    ensures m.Some? ==> i < m.value.end <= |s|
  {
    var n := Longest(u, shape, s[i..]);
    if n == 0 then None else Some(Match(i + n, text))
  }

  lemma SpanIs(p: char -> bool, s: string, i: nat, n: nat)
    requires i + n <= |s| && forall k :: i <= k < i + n ==> p(s[k])
    ensures Span(p, s, i) >= n
    ensures i + n < |s| && !p(s[i + n]) ==> Span(p, s, i) == n
  {
  }

  /** `Longest` finds a secret wherever one begins. */
  lemma SecretIsFound(u: Unicode, shape: Shape, t: string, n: nat)
    requires Sane(u) && n <= |t| && IsSecret(u, shape, t[..n])
    ensures Longest(u, shape, t) >= n > 0
  {
    var w := t[..n];
    match shape
    case Pat =>
      SpanIs(u.word, t, 4, n - 4);
      assert t[..4] == w[..4];
    case Sk =>
      SpanIs(Dashes(u), t, 3, n - 3);
      assert t[..3] == w[..3];
    case WebToken =>
      var a: nat, b: nat :| IsWebToken(u, w, a, b);
      WebTokenIsFound(u, t, n, a, b);
  }

  /** A marked segment in the prefix of length `n` is a segment of the text. */
  lemma Segment(u: Unicode, t: string, n: nat, i: nat, l: nat, stop: string)
    requires Sane(u) && i + l + |stop| <= n <= |t| && stop != "" && stop[0] == '.'
    requires (forall k :: i <= k < i + l ==> Dashed(u, t[..n][k])) && t[..n][i + l..i + l + |stop|] == stop
    ensures Span(Dashes(u), t, i) == l && Here(stop, t, i + l)
  {
    assert !Dashed(u, '.');
    assert t[i + l..][..|stop|] == t[..n][i + l..i + l + |stop|];
    assert t[i + l] == stop[0];
    forall k | i <= k < i + l ensures Dashes(u)(t[k]) {
      assert t[k] == t[..n][k];
    }
    SpanIs(Dashes(u), t, i, l);
  }

  lemma WebTokenIsFound(u: Unicode, t: string, n: nat, a: nat, b: nat)
    requires Sane(u) && n <= |t| && IsWebToken(u, t[..n], a, b)
    ensures Longest(u, WebToken, t) >= n > 0
  {
    hide Sane, Here, Dashed, Span;
    var w := t[..n];
    assert t[..3] == w[..3];
    Segment(u, t, n, 3, a, ".eyJ");
    assert w[a + b + 7..a + b + 8] == ".";
    Segment(u, t, n, a + 7, b, ".");
    forall k | a + b + 8 <= k < n ensures Dashes(u)(t[k]) {
      assert t[k] == w[k];
    }
    SpanIs(Dashes(u), t, a + b + 8, n - (a + b + 8));
  }

  // ---- Substitution ----

  /** Leftmost, non-overlapping substitution; a match still sees the original text around it. */
  function SubFrom(u: Unicode, rule: Rule, s: string, i: nat): string
    requires i <= |s|
    decreases |s| - i
  {
    if i == |s| then ""
    else match MatchAt(u, rule, s, i)
      case None => [s[i]] + SubFrom(u, rule, s, i + 1)
      case Some(m) => m.text + SubFrom(u, rule, s, m.end)
  }

  function After(u: Unicode, s: string, k: nat): string
    requires k <= |RULES|
  {
    if k == 0 then s else SubFrom(u, RULES[k - 1], After(u, s, k - 1), 0)
  }

  predicate AllToken(u: Unicode, t: string) {
    forall c :: c in t ==> Token(u, c)
  }

  ghost predicate Fresh(u: Unicode, s: string, i: nat)
    requires i <= |s|
  {
    i == 0 || !Token(u, s[i - 1])
  }

  /** 22 token characters in a row, from `k` on. */
  predicate LongRun(u: Unicode, t: string, k: nat) {
    k + 22 <= |t| && AllToken(u, t[k..k + 22])
  }

  /**
   What a replacement must be like not to help a secret into existence: it ends outside every token,
   it holds no long run of token characters, and such a run at its beginning either stands in the
   original text or has nothing to attach to.
   */
  ghost predicate Calm(u: Unicode, s: string, i: nat, t: string)
    requires i < |s|
  {
    && |t| > 0 && !Token(u, t[|t| - 1])
    && (forall k: nat :: !LongRun(u, t, k))
    && (Fresh(u, s, i) || forall n :: 0 <= n <= |t| && AllToken(u, t[..n]) ==> t[..n] <= s[i..])
  }

  /** The rules that run once a shape has been cleared. */
  predicate Guarded(rule: Rule) {
    rule !in {Bearer, KeyHeader, GitUrl}
  }

  lemma Breaks(u: Unicode, t: string, from: nat, to: nat, k: nat)
    requires from <= k < to <= |t| && !Token(u, t[k])
    ensures !AllToken(u, t[from..to])
  {
    assert t[from..to][k - from] == t[k];
  }

  lemma MarkerIsCalm(u: Unicode, s: string, i: nat, t: string)
    requires Sane(u) && i < |s| && 2 <= |t| <= 23 && t[0] == '<' && t[|t| - 1] == '>'
    ensures Calm(u, s, i, t)
  {
    hide AllToken;
    assert !Token(u, '<') && !Token(u, '>');
    forall k: nat ensures !LongRun(u, t, k) {
      if k + 22 <= |t| {
        Breaks(u, t, k, k + 22, if k == 0 then 0 else |t| - 1);
      }
    }
    forall n | 0 <= n <= |t| ensures AllToken(u, t[..n]) ==> t[..n] <= s[i..] {
      if n > 0 {
        Breaks(u, t, 0, n, 0);
        assert t[0..n] == t[..n];
      }
    }
  }

  lemma KeptNameStands(s: string, i: nat, n: nat, tail: string, l: nat)
    requires i + n <= |s| && l <= n
    ensures (s[i..i + n] + tail)[..l] <= s[i..]
  {
    var t := s[i..i + n] + tail;
    forall x | 0 <= x < l ensures t[..l][x] == s[i..][x] {
      assert t[x] == s[i..i + n][x] == s[i + x];
    }
  }

  /** A kept name, a separator and a marker. */
  lemma NamedIsCalm(u: Unicode, s: string, i: nat, j: nat, n: nat, tail: string)
    requires Sane(u) && i <= j && i < |s| && j + n <= |s| && n <= 14
    requires tail == "=<redacted>" || tail == ": <redacted>"
    requires Fresh(u, s, i) || i == j
    ensures Calm(u, s, i, s[j..j + n] + tail)
  {
    hide AllToken;
    var t := s[j..j + n] + tail;
    assert t[n] == tail[0] && !Token(u, t[n]);
    assert t[|t| - 1] == tail[|tail| - 1] == '>';
    forall k: nat ensures !LongRun(u, t, k) {
      if k + 22 <= |t| {
        Breaks(u, t, k, k + 22, n);
      }
    }
    forall l | 0 <= l <= |t| ensures i == j && AllToken(u, t[..l]) ==> t[..l] <= s[i..] {
      if l > n {
        Breaks(u, t, 0, l, n);
        assert t[0..l] == t[..l];
      } else if i == j {
        KeptNameStands(s, i, n, tail, l);
      }
    }
  }

  predicate Short(lits: seq<string>) {
    forall k :: 0 <= k < |lits| ==> |lits[k]| <= 14
  }

  lemma {:induction false} LiteralIsShort(u: Unicode, lits: seq<string>, s: string, i: nat)
    requires i <= |s| && Short(lits)
    ensures Literal(u, lits, s, i).Some? ==> Literal(u, lits, s, i).value <= 14
  {
    if lits != [] {
      LiteralIsShort(u, lits[1..], s, i);
    }
  }

  lemma NamesAreShort()
    ensures Short(SECRET_NAMES) && Short(HEADER_NAMES)
  {
  }

  lemma LineStartIsFresh(u: Unicode, s: string, i: nat)
    requires Sane(u) && i < |s| && (i == 0 || s[i - 1] == '\n')
    ensures Fresh(u, s, i)
  {
    assert !Token(u, '\n');
  }

  lemma ConfigIsCalm(u: Unicode, s: string, i: nat)
    requires Sane(u) && i < |s| && ConfigLineAt(u, s, i).Some?
    ensures Calm(u, s, i, ConfigLineAt(u, s, i).value.text)
  {
    hide Calm, Literal, ValueEnd, Short, Span;
    NamesAreShort();
    var j := i + Span(c => u.space(c) || c == '>', s, i);
    LiteralIsShort(u, SECRET_NAMES, s, j);
    assert Fresh(u, s, i) by { LineStartIsFresh(u, s, i); }
    NamedIsCalm(u, s, i, j, Literal(u, SECRET_NAMES, s, j).value, "=<redacted>");
  }

  lemma HeaderIsCalm(u: Unicode, s: string, i: nat)
    requires Sane(u) && i < |s| && HeaderLineAt(u, s, i).Some?
    ensures Calm(u, s, i, HeaderLineAt(u, s, i).value.text)
  {
    hide Calm, Literal, ValueEnd, Short;
    NamesAreShort();
    LiteralIsShort(u, HEADER_NAMES, s, i);
    NamedIsCalm(u, s, i, i, Literal(u, HEADER_NAMES, s, i).value, ": <redacted>");
  }

  lemma GuardedIsCalm(u: Unicode, rule: Rule, s: string, i: nat)
    requires Sane(u) && Guarded(rule) && i < |s| && MatchAt(u, rule, s, i).Some?
    ensures Calm(u, s, i, MatchAt(u, rule, s, i).value.text)
  {
    hide Calm, Sane, ConfigLineAt, HeaderLineAt, Longest, Literal, LastBlank;
    if rule == ConfigLine {
      ConfigIsCalm(u, s, i);
    } else if rule == HeaderLine {
      HeaderIsCalm(u, s, i);
    } else {
      MarkerIsCalm(u, s, i, MatchAt(u, rule, s, i).value.text);
    }
  }

  // ---- No secret is left, and none comes back ----

  lemma RunStopsInside(u: Unicode, t: string, rest: string, n: nat)
    requires |t| > 0 && !Token(u, t[|t| - 1]) && n <= |t + rest|
    ensures AllToken(u, (t + rest)[..n]) ==> n < |t| && (t + rest)[..n] == t[..n]
  {
    if n >= |t| {
      Breaks(u, t + rest, 0, n, |t| - 1);
      assert (t + rest)[0..n] == (t + rest)[..n];
    }
  }

  /** A run of token characters in the result is copied from the text, unless a replaced line begins it. */
  lemma {:induction false} RunIsCopied(u: Unicode, rule: Rule, s: string, i: nat, n: nat)
    requires Sane(u) && Guarded(rule) && i <= |s|
    requires n <= |SubFrom(u, rule, s, i)| && AllToken(u, SubFrom(u, rule, s, i)[..n])
    ensures SubFrom(u, rule, s, i)[..n] <= s[i..] || (i < |s| && MatchAt(u, rule, s, i).Some? && Fresh(u, s, i))
    decreases |s| - i
  {
    hide MatchAt, Sane;
    var out := SubFrom(u, rule, s, i);
    if n > 0 {
      match MatchAt(u, rule, s, i)
      case None =>
        var rest := SubFrom(u, rule, s, i + 1);
        assert out[..n] == [s[i]] + rest[..n - 1];
        assert s[i] in out[..n];
        assert forall c :: c in rest[..n - 1] ==> c in out[..n];
        RunIsCopied(u, rule, s, i + 1, n - 1);
        assert s[i..] == [s[i]] + s[i + 1..];
      case Some(m) =>
        GuardedIsCalm(u, rule, s, i);
        RunStopsInside(u, m.text, SubFrom(u, rule, s, m.end), n);
    }
  }

  /** A secret starts with a window of 23 or more token characters that decides it. */
  function Window(u: Unicode, shape: Shape, t: string): (n: nat)
  {
    match shape
    case Pat => 24
    case Sk => 23
    case WebToken =>
      if |t| < 3 then 38
      else
        var a := Span(Dashes(u), t, 3);
        if a + 7 > |t| then 38 else a + Span(Dashes(u), t, a + 7) + 18
  }

  lemma WindowDecides(u: Unicode, shape: Shape, t: string, v: string)
    requires Sane(u) && Longest(u, shape, t) > 0
    ensures 23 <= Window(u, shape, t) <= |t| && AllToken(u, t[..Window(u, shape, t)])
    ensures t[..Window(u, shape, t)] <= v ==> Longest(u, shape, v) > 0
  {
    var n := Window(u, shape, t);
    if shape == WebToken {
      WebTokenWindow(u, t);
    } else {
      PlainWindow(u, shape, t);
    }
    if t[..n] <= v {
      assert v[..n] == t[..n];
      SecretIsFound(u, shape, v, n);
    }
  }

  lemma PlainWindow(u: Unicode, shape: Shape, t: string)
    requires Sane(u) && shape != WebToken && Longest(u, shape, t) > 0
    ensures var n := Window(u, shape, t); 23 <= n <= |t| && AllToken(u, t[..n]) && IsSecret(u, shape, t[..n])
  {
    var n := Window(u, shape, t);
    var w := t[..n];
    assert forall k :: 0 <= k < |w| ==> w[k] == t[k];
    if shape == Pat {
      assert w[..4] == t[..4];
      assert forall k :: 0 <= k < 4 ==> w[k] == w[..4][k];
    } else {
      assert w[..3] == t[..3];
      assert forall k :: 0 <= k < 3 ==> w[k] == "sk-"[k];
    }
    forall c | c in w ensures Token(u, c) {
      var k :| 0 <= k < n && w[k] == c;
    }
  }

  lemma WebTokenParts(u: Unicode, t: string)
    requires Longest(u, WebToken, t) > 0
    ensures "eyJ" <= t
    ensures
      var a := Span(Dashes(u), t, 3);
      && a >= 10 && Here(".eyJ", t, a + 3)
      && var b := Span(Dashes(u), t, a + 7);
         b >= 10 && Here(".", t, a + b + 7) && Span(Dashes(u), t, a + b + 8) >= 10
  {
  }

  lemma HereInPrefix(t: string, n: nat, i: nat, lit: string)
    requires Here(lit, t, i) && i + |lit| <= n <= |t|
    ensures t[..n][i..i + |lit|] == lit
  {
    assert t[i..][..|lit|] == t[..n][i..i + |lit|];
  }

  lemma DashesInPrefix(u: Unicode, t: string, n: nat, i: nat, l: nat)
    requires i <= |t| && l <= Span(Dashes(u), t, i) && i + l <= n <= |t|
    ensures forall k :: i <= k < i + l ==> Dashed(u, t[..n][k])
  {
    forall k | i <= k < i + l ensures Dashed(u, t[..n][k]) {
      assert t[..n][k] == t[k] && Dashes(u)(t[k]);
    }
  }

  lemma Assemble(u: Unicode, t: string, a: nat, b: nat)
    requires a >= 10 && b >= 10 && a + b + 18 <= |t| && "eyJ" <= t
    requires Here(".eyJ", t, a + 3) && Here(".", t, a + b + 7)
    requires Span(Dashes(u), t, 3) == a && Span(Dashes(u), t, a + 7) == b && Span(Dashes(u), t, a + b + 8) >= 10
    ensures IsWebToken(u, t[..a + b + 18], a, b)
  {
    hide Dashed, Here, Dashes, Span;
    var n := a + b + 18;
    HereInPrefix(t, n, a + 3, ".eyJ");
    HereInPrefix(t, n, a + b + 7, ".");
    DashesInPrefix(u, t, n, 3, a);
    DashesInPrefix(u, t, n, a + 7, b);
    DashesInPrefix(u, t, n, a + b + 8, 10);
    assert t[..n][..3] == t[..3];
  }

  lemma WebTokenWindow(u: Unicode, t: string)
    requires Sane(u) && Longest(u, WebToken, t) > 0
    ensures
      var n := Window(u, WebToken, t);
      23 <= n <= |t| && AllToken(u, t[..n]) && IsSecret(u, WebToken, t[..n])
  {
    hide Longest, Sane, Dashed, AllToken, Here, Dashes, Span, IsWebToken;
    WebTokenParts(u, t);
    var a := Span(Dashes(u), t, 3);
    var b := Span(Dashes(u), t, a + 7);
    Assemble(u, t, a, b);
    WebTokenIsToken(u, t[..a + b + 18], a, b);
  }

  lemma WebTokenIsToken(u: Unicode, w: string, a: nat, b: nat)
    requires Sane(u) && IsWebToken(u, w, a, b)
    ensures AllToken(u, w)
  {
    forall c | c in w ensures Token(u, c) {
      var k :| 0 <= k < |w| && w[k] == c;
      if k < 3 {
        assert w[k] == w[..3][k];
      } else if a + 3 <= k < a + 7 {
        assert w[k] == w[a + 3..a + 7][k - a - 3];
      }
    }
  }

  /** The text holds no secret of the shape from position `i` on. */
  ghost predicate Free(u: Unicode, shape: Shape, s: string, i: nat) {
    forall k :: i <= k < |s| ==> Longest(u, shape, s[k..]) == 0
  }

  /**
   A guarded rule that matches wherever a secret of the shape begins removes all of them; so does
   one that meets none. Neither creates one.
   */
  lemma {:induction false} SubClears(u: Unicode, rule: Rule, shape: Shape, s: string, i: nat)
    requires Sane(u) && Guarded(rule) && i <= |s|
    requires forall k :: i <= k < |s| && MatchAt(u, rule, s, k) == None ==> Longest(u, shape, s[k..]) == 0
    ensures Free(u, shape, SubFrom(u, rule, s, i), 0)
    decreases |s| - i
  {
    hide MatchAt, Longest, Sane;
    var out := SubFrom(u, rule, s, i);
    if i < |s| {
      match MatchAt(u, rule, s, i)
      case None =>
        SubClears(u, rule, shape, s, i + 1);
        HeadIsFree(u, rule, shape, s, i);
        var rest := SubFrom(u, rule, s, i + 1);
        forall k | 0 <= k < |out| ensures Longest(u, shape, out[k..]) == 0 {
          if k == 0 { assert out[0..] == out; } else { assert out[k..] == rest[k - 1..]; }
        }
      case Some(m) =>
        SubClears(u, rule, shape, s, m.end);
        GuardedIsCalm(u, rule, s, i);
        var rest := SubFrom(u, rule, s, m.end);
        forall k | 0 <= k < |out| ensures Longest(u, shape, out[k..]) == 0 {
          if k < |m.text| {
            CalmIsFree(u, shape, s, i, m.text, rest, k);
          } else {
            assert out[k..] == rest[k - |m.text|..];
          }
        }
    }
  }

  /** A copied character begins a secret only if it did so before. */
  lemma HeadIsFree(u: Unicode, rule: Rule, shape: Shape, s: string, i: nat)
    requires Sane(u) && Guarded(rule) && i < |s| && MatchAt(u, rule, s, i) == None && Longest(u, shape, s[i..]) == 0
    ensures Longest(u, shape, SubFrom(u, rule, s, i)) == 0
  {
    hide MatchAt, Longest, Window, Sane;
    var out := SubFrom(u, rule, s, i);
    if Longest(u, shape, out) > 0 {
      WindowDecides(u, shape, out, s[i..]);
      RunIsCopied(u, rule, s, i, Window(u, shape, out));
      assert false;
    }
  }

  lemma ManyTokens(u: Unicode, t: string, rest: string, k: nat, n: nat)
    requires k < |t| && !Token(u, t[|t| - 1]) && 22 <= n <= |(t + rest)[k..]|
    ensures AllToken(u, (t + rest)[k..][..n]) ==> LongRun(u, t, k)
  {
    hide Token;
    var v := (t + rest)[k..];
    assert v == t[k..] + rest;
    RunStopsInside(u, t[k..], rest, n);
    if AllToken(u, v[..n]) {
      assert forall c :: c in v[..22] ==> c in v[..n];
      assert v[..22] == t[k..k + 22];
    }
  }

  /** A secret cannot begin inside a calm replacement. */
  lemma CalmIsFree(u: Unicode, shape: Shape, s: string, i: nat, t: string, rest: string, k: nat)
    requires Sane(u) && i < |s| && Calm(u, s, i, t) && k < |t|
    ensures Longest(u, shape, (t + rest)[k..]) == 0
  {
    hide Longest, Window, Sane, Token, AllToken, LongRun;
    var v := (t + rest)[k..];
    if Longest(u, shape, v) > 0 {
      WindowDecides(u, shape, v, v);
      ManyTokens(u, t, rest, k, Window(u, shape, v));
    }
  }

  function Clearer(shape: Shape): Rule {
    match shape case Pat => GithubToken case Sk => ApiKey case WebToken => Jwt
  }

  lemma ClearerMatches(u: Unicode, shape: Shape, s: string, k: nat)
    requires k < |s| && MatchAt(u, Clearer(shape), s, k) == None
    ensures Longest(u, shape, s[k..]) == 0
  {
    hide Longest;
  }

  /** Each shape's own rule removes it, and the later rules keep it out. */
  lemma {:induction false} ClearedAfter(u: Unicode, shape: Shape, s: string, k: nat)
    requires Sane(u) && k <= |RULES| && k > (match shape case Pat => 3 case Sk => 4 case WebToken => 6)
    ensures Free(u, shape, After(u, s, k), 0)
  {
    hide Longest, Sane, MatchAt, SubFrom;
    var t, rule := After(u, s, k - 1), RULES[k - 1];
    if rule == Clearer(shape) {
      forall i | 0 <= i < |t| && MatchAt(u, rule, t, i) == None ensures Longest(u, shape, t[i..]) == 0 {
        ClearerMatches(u, shape, t, i);
      }
    } else {
      ClearedAfter(u, shape, s, k - 1);
    }
    SubClears(u, rule, shape, t, 0);
  }

  /** No part of the result is a GitHub token, an `sk-` key or a JSON web token. */
  ghost predicate NoSecrets(u: Unicode, s: string) {
    forall shape, i, j :: 0 <= i <= j <= |s| ==> !IsSecret(u, shape, s[i..j])
  }

  lemma FreeMeansNoSecret(u: Unicode, shape: Shape, s: string, i: nat, j: nat)
    requires Sane(u) && Free(u, shape, s, 0) && i <= j <= |s|
    ensures !IsSecret(u, shape, s[i..j])
  {
    hide Longest, IsSecret;
    assert s[i..][..j - i] == s[i..j];
    if IsSecret(u, shape, s[i..j]) {
      SecretIsFound(u, shape, s[i..], j - i);
    }
  }

  lemma RedactedHasNoSecrets(u: Unicode, s: string)
    requires Sane(u)
    ensures NoSecrets(u, After(u, s, |RULES|))
  {
    hide Longest, IsSecret, Sane, Free;
    var out := After(u, s, |RULES|);
    forall shape, i, j | 0 <= i <= j <= |out| ensures !IsSecret(u, shape, out[i..j]) {
      ClearedAfter(u, shape, s, |RULES|);
      FreeMeansNoSecret(u, shape, out, i, j);
    }
  }

  /** Text none of the rules matches comes out as it went in. */
  lemma {:induction false} UntouchedText(u: Unicode, s: string, i: nat, rule: Rule)
    requires i <= |s| && forall k :: i <= k < |s| ==> MatchAt(u, rule, s, k) == None
    ensures SubFrom(u, rule, s, i) == s[i..]
    decreases |s| - i
  {
    hide MatchAt;
    if i < |s| {
      UntouchedText(u, s, i + 1, rule);
      assert s[i..] == [s[i]] + s[i + 1..];
    }
  }

  predicate Unmatched(u: Unicode, rule: Rule, s: string) {
    forall k :: 0 <= k < |s| ==> MatchAt(u, rule, s, k) == None
  }

  /** A text that no rule matches survives all of them verbatim. */
  lemma {:induction false} ProseSurvives(u: Unicode, s: string, k: nat)
    requires k <= |RULES| && forall rule :: Unmatched(u, rule, s)
    ensures After(u, s, k) == s
  {
    hide MatchAt;
    if k > 0 {
      ProseSurvives(u, s, k - 1);
      assert Unmatched(u, RULES[k - 1], s);
      UntouchedText(u, s, 0, RULES[k - 1]);
    }
  }

  /** A missing text counts as empty; otherwise the rules are applied one after the other. */
  method Redact(u: Unicode, text: Option<string>) returns (out: string)
    requires Sane(u)
    ensures text == None ==> out == ""
    ensures text.Some? ==> out == After(u, text.value, |RULES|)
    ensures NoSecrets(u, out)
  {
    hide Sane, NoSecrets, SubFrom;
    RedactedHasNoSecrets(u, if text.Some? then text.value else "");
    if text == None {
      NothingToHide(u);
      return "";
    }
    out := text.value;
    for k := 0 to |RULES|
      invariant out == After(u, text.value, k)
    {
      out := SubFrom(u, RULES[k], out, 0);
    }
  }

  lemma NothingToHide(u: Unicode)
    ensures NoSecrets(u, "")
  {
  }
}
