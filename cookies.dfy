/**
 * The `accessToken` cookie read at load time (application-client/src/App.tsx:42):
 * `document.cookie.replace(/(?:(?:^|.*;\s*)accessToken\s*\=\s*([^;]*).*$)|^.*$/, "$1")`.
 * The pattern always matches the whole string, so the result is the captured value, or ""
 * when only the second alternative matches. The first alternative prefers an `accessToken`
 * entry at the very start; failing that, its greedy `.*;` picks the LAST entry that follows
 * a semicolon.
 */
module Cookies {
  import opened Wrappers

  const Key := "accessToken"

  /** JavaScript's `\s`: the WhiteSpace and LineTerminator code points. */
  predicate IsSpace(c: char) {
    || c == '\t' || c == '\n' || c == '\U{B}' || c == '\U{C}' || c == '\r' || c == ' '
    || c == '\U{A0}' || c == '\U{1680}' || ('\U{2000}' <= c <= '\U{200A}')
    || c == '\U{2028}' || c == '\U{2029}' || c == '\U{202F}' || c == '\U{205F}'
    || c == '\U{3000}' || c == '\U{FEFF}'
  }

  /** Where a greedy `\s*` starting at `i` stops. */
  function SkipSpaces(s: string, i: nat): (j: nat)
    requires i <= |s|
    ensures i <= j <= |s|
    ensures forall k :: i <= k < j ==> IsSpace(s[k])
    ensures j < |s| ==> !IsSpace(s[j])
    decreases |s| - i
  {
    if i < |s| && IsSpace(s[i]) then SkipSpaces(s, i + 1) else i
  }

  /** The literal `accessToken` occurs at index `i`. */
  predicate KeyAt(s: string, i: nat) {
    i + |Key| <= |s| && s[i..i + |Key|] == Key
  }

  /** Where `accessToken\s*=\s*` ends when it matches at `i`: the start of the captured value. */
  function ValueStart(s: string, i: nat): (r: Option<nat>)
    requires i <= |s|
    ensures r.Some? ==> i + |Key| < r.value <= |s| && KeyAt(s, i)
  {
    if KeyAt(s, i) then
      var j := SkipSpaces(s, i + |Key|);
      if j < |s| && s[j] == '=' then Some(SkipSpaces(s, j + 1)) else None
    else None
  }

  /** Where `[^;]*` starting at `j` stops. */
  function ValueEnd(s: string, j: nat): (k: nat)
    requires j <= |s|
    ensures j <= k <= |s|
    ensures forall m :: j <= m < k ==> s[m] != ';'
    ensures k < |s| ==> s[k] == ';'
    decreases |s| - j
  {
    if j < |s| && s[j] != ';' then ValueEnd(s, j + 1) else j
  }

  /** The captured group `([^;]*)` when the value starts at `j`. */
  function ValueAt(s: string, j: nat): (v: string)
    requires j <= |s|
    ensures ';' !in v
  {
    s[j..ValueEnd(s, j)]
  }

  /** An entry `;\s*accessToken\s*=` begins with the semicolon at `p`. */
  predicate EntryAfterSemicolon(s: string, p: nat)
    requires p < |s|
  {
    s[p] == ';' && ValueStart(s, SkipSpaces(s, p + 1)).Some?
  }

  /** The last semicolon before `n` that begins an entry: where the greedy `.*;` stops. */
  function LastEntry(s: string, n: nat): (r: Option<nat>)
    requires n <= |s|
    ensures r.Some? ==> r.value < n && EntryAfterSemicolon(s, r.value)
    ensures r.Some? ==> forall q :: r.value < q < n ==> !EntryAfterSemicolon(s, q)
    ensures r.None? ==> forall q :: 0 <= q < n ==> !EntryAfterSemicolon(s, q)
  {
    if n == 0 then None
    else if EntryAfterSemicolon(s, n - 1) then Some(n - 1)
    else LastEntry(s, n - 1)
  }

  /** The cookie string holds an entry the first alternative of the pattern can match. */
  predicate HasEntry(cookie: string) {
    ValueStart(cookie, 0).Some? || exists p :: 0 <= p < |cookie| && EntryAfterSemicolon(cookie, p)
  }

  /** The value of `accessTokenFromCookies`. */
  function AccessTokenFromCookies(cookie: string): (token: string)
    ensures ';' !in token
    ensures !HasEntry(cookie) ==> token == ""
  {
    match ValueStart(cookie, 0)
    case Some(j) => ValueAt(cookie, j)
    case None =>
      match LastEntry(cookie, |cookie|)
      case Some(p) =>
        assert 0 <= p < |cookie| && EntryAfterSemicolon(cookie, p);
        ValueAt(cookie, ValueStart(cookie, SkipSpaces(cookie, p + 1)).value)
      case None => ""
  }

  /** `accessToken` does not occur in `s` at all. */
  predicate KeyFree(s: string) {
    forall i :: 0 <= i <= |s| ==> !KeyAt(s, i)
  }

  /** A cookie string that never mentions `accessToken` yields "". */
  lemma NoKeyYieldsEmpty(cookie: string)
    requires KeyFree(cookie)
    ensures AccessTokenFromCookies(cookie) == ""
  {
  }

  /** The value `v` followed by the end or by the next entry's semicolon. */
  predicate Delimited(v: string, rest: string) {
    && ';' !in v
    && (v != [] ==> !IsSpace(v[0]))
    && (rest != [] ==> rest[0] == ';')
  }

  lemma ValueOfDelimited(s: string, j: nat, v: string, rest: string)
    requires Delimited(v, rest) && j <= |s| && s[j..] == v + rest
    ensures SkipSpaces(s, j) == j
    ensures ValueAt(s, j) == v
  {
    assert forall m :: j <= m < j + |v| ==> s[m] == v[m - j];
    if rest != [] {
      assert s[j + |v|] == rest[0];
    }
    assert s[j..j + |v|] == v;
  }

  /** An entry at the very start wins, whatever follows it. */
  lemma LeadingEntryWins(v: string, rest: string)
    requires Delimited(v, rest)
    ensures AccessTokenFromCookies("accessToken=" + v + rest) == v
  {
    var s := "accessToken=" + v + rest;
    assert s[0..|Key|] == Key;
    assert s[|Key|] == '=';
    assert SkipSpaces(s, |Key|) == |Key|;
    assert s[|Key| + 1..] == v + rest;
    ValueOfDelimited(s, |Key| + 1, v, rest);
  }

  /** A semicolon at `p` with no `accessToken` before it rules out an entry at the very start. */
  lemma NoLeadingEntry(s: string, p: nat)
    requires p < |s| && s[p] == ';' && KeyFree(s[..p])
    ensures ValueStart(s, 0).None?
  {
    if KeyAt(s, 0) {
      if p >= |Key| {
        assert s[..p][0..|Key|] == s[0..|Key|];
        assert KeyAt(s[..p], 0);
      }
      assert false;
    }
  }

  /** `\s*` at a character that is not a space matches nothing. */
  lemma SkipNone(s: string, i: nat)
    requires i < |s| && !IsSpace(s[i])
    ensures SkipSpaces(s, i) == i
  {
  }

  /** `\s*` at a single space before a non-space matches that space. */
  lemma SkipOne(s: string, i: nat)
    requires i + 1 < |s| && IsSpace(s[i]) && !IsSpace(s[i + 1])
    ensures SkipSpaces(s, i) == i + 1
  {
    SkipNone(s, i + 1);
  }

  /** `accessToken` directly followed by `=` at `i`. */
  lemma ValueStartAt(s: string, i: nat)
    requires KeyAt(s, i) && i + |Key| < |s| && s[i + |Key|] == '='
    ensures ValueStart(s, i) == Some(SkipSpaces(s, i + |Key| + 1))
  {
    SkipNone(s, i + |Key|);
  }

  /** The characters of the prefix `; accessToken=` at `p`. */
  lemma EntryPrefixAt(s: string, p: nat, rest: string)
    requires p <= |s| && s[p..] == "; accessToken=" + rest
    ensures p + 3 + |Key| <= |s|
    ensures s[p] == ';' && s[p + 1] == ' ' && s[p + 2] == 'a' && s[p + 2 + |Key|] == '='
    ensures KeyAt(s, p + 2)
    ensures s[p + 3 + |Key|..] == rest
  {
    var t := s[p..];
    assert t[..3 + |Key|] == "; accessToken=";
    assert s[p..p + 3 + |Key|] == t[..3 + |Key|];
    assert s[p + 2..p + 2 + |Key|] == s[p..p + 3 + |Key|][2..2 + |Key|];
    assert s[p + 3 + |Key|..] == t[3 + |Key|..];
  }

  /** The entry `; accessToken=v` written at `p` is recognised, with `v` as its value. */
  lemma EntryAt(s: string, p: nat, v: string, after: string)
    requires p <= |s| && s[p..] == "; accessToken=" + v + after && Delimited(v, after)
    ensures EntryAfterSemicolon(s, p)
    ensures ValueStart(s, SkipSpaces(s, p + 1)) == Some(p + 2 + |Key| + 1)
    ensures ValueAt(s, p + 2 + |Key| + 1) == v
  {
    var start := p + 3 + |Key|;
    assert "; accessToken=" + v + after == "; accessToken=" + (v + after);
    EntryPrefixAt(s, p, v + after);
    SkipOne(s, p + 1);
    ValueStartAt(s, p + 2);
    ValueOfDelimited(s, start, v, after);
  }

  /** No semicolon between `p` and `off`, and no `accessToken` from `off` on: no entry after `p`. */
  lemma NoLaterEntry(s: string, p: nat, off: nat)
    requires p < off <= |s| && KeyFree(s[off..])
    requires forall m :: p < m < off ==> s[m] != ';'
    ensures forall q :: p < q < |s| ==> !EntryAfterSemicolon(s, q)
  {
    forall q | p < q < |s|
      ensures !EntryAfterSemicolon(s, q)
    {
      if EntryAfterSemicolon(s, q) {
        var m := SkipSpaces(s, q + 1);
        assert KeyAt(s, m);
        assert s[off..][m - off..m - off + |Key|] == s[m..m + |Key|];
        assert KeyAt(s[off..], m - off);
        assert false;
      }
    }
  }

  /** The entry written at `p` is the value when nothing else in `s` mentions `accessToken`. */
  lemma EntryFound(s: string, p: nat, v: string, after: string)
    requires p <= |s| && KeyFree(s[..p]) && KeyFree(after) && Delimited(v, after)
    requires s[p..] == "; accessToken=" + v + after
    ensures AccessTokenFromCookies(s) == v
  {
    NoLeadingEntry(s, p);
    LastEntryFound(s, p, v, after);
  }

  /** With no entry at the start, an entry followed by no other is the one extracted. */
  lemma LastEntryFound(s: string, p: nat, v: string, after: string)
    requires p <= |s| && ValueStart(s, 0).None? && KeyFree(after) && Delimited(v, after)
    requires s[p..] == "; accessToken=" + v + after
    ensures AccessTokenFromCookies(s) == v
  {
    NoEntryAfter(s, p, v, after);
    EntryAt(s, p, v, after);
    LastEntryIs(s, p);
  }

  /** Nothing after the entry at `p` mentions `accessToken`, so no later entry exists. */
  lemma NoEntryAfter(s: string, p: nat, v: string, after: string)
    requires p <= |s| && KeyFree(after) && ';' !in v
    requires s[p..] == "; accessToken=" + v + after
    ensures forall q :: p < q < |s| ==> !EntryAfterSemicolon(s, q)
  {
    var off := p + 2 + |Key| + 1 + |v|;
    SemicolonOnlyAt(s, p, v, after);
    NoLaterEntry(s, p, off);
  }

  /** Within `; accessToken=v`, the only semicolon is the first character; `after` follows it. */
  lemma SemicolonOnlyAt(s: string, p: nat, v: string, after: string)
    requires p <= |s| && s[p..] == "; accessToken=" + v + after && ';' !in v
    ensures forall m :: p < m < p + 2 + |Key| + 1 + |v| ==> s[m] != ';'
    ensures s[p + 2 + |Key| + 1 + |v|..] == after
  {
    var t := s[p..];
    forall m | p < m < p + 2 + |Key| + 1 + |v| ensures s[m] != ';' {
      assert s[m] == t[m - p];
      if m - p >= 2 + |Key| + 1 { assert t[m - p] == v[m - p - (2 + |Key| + 1)]; }
    }
    assert t[2 + |Key| + 1 + |v|..] == after;
  }

  lemma LastEntryIs(s: string, p: nat)
    requires p < |s| && EntryAfterSemicolon(s, p)
    requires forall q :: p < q < |s| ==> !EntryAfterSemicolon(s, q)
    ensures LastEntry(s, |s|) == Some(p)
  {
  }

  /**
   * An entry after a semicolon is found when no other part of the cookie string mentions
   * `accessToken`.
   */
  lemma EntryAfterOtherCookies(before: string, v: string, after: string)
    requires KeyFree(before) && KeyFree(after) && Delimited(v, after)
    ensures AccessTokenFromCookies(before + "; accessToken=" + v + after) == v
  {
    var s := before + ("; accessToken=" + v + after);
    assert s == before + "; accessToken=" + v + after;
    assert s[..|before|] == before;
    assert s[|before|..] == "; accessToken=" + v + after;
    EntryFound(s, |before|, v, after);
  }

  /**
   * The greedy `.*;` makes the last entry win: whatever comes before it, including other
   * `accessToken` entries, only an entry at the very start of the string could take over.
   */
  lemma LastEntryWinsAnyBefore(before: string, v: string, after: string)
    requires KeyFree(after) && Delimited(v, after)
    requires ValueStart(before + "; accessToken=" + v + after, 0).None?
    ensures AccessTokenFromCookies(before + "; accessToken=" + v + after) == v
  {
    var s := before + ("; accessToken=" + v + after);
    assert s == before + "; accessToken=" + v + after;
    assert s[|before|..] == "; accessToken=" + v + after;
    LastEntryFound(s, |before|, v, after);
  }

  /** Of two `accessToken` entries after another cookie, the second one's value is extracted. */
  lemma SecondEntryWins(first: string, second: string)
    requires ';' !in first && Delimited(second, "")
    ensures AccessTokenFromCookies("x=1; accessToken=" + first + "; accessToken=" + second) == second
  {
    var before := "x=1; accessToken=" + first;
    var s := before + "; accessToken=" + second + "";
    assert s == "x=1; accessToken=" + first + "; accessToken=" + second;
    assert !KeyAt(s, 0) by { assert s[0] == 'x'; }
    assert KeyFree("") by { assert forall i :: 0 <= i <= 0 ==> !KeyAt("", i); }
    LastEntryWinsAnyBefore(before, second, "");
  }

  /** A typical cookie string: the token between two unrelated cookies. */
  lemma TypicalCookieString(token: string)
    requires Delimited(token, "; lang=en")
    ensures AccessTokenFromCookies("theme=dark; accessToken=" + token + "; lang=en") == token
  {
    TypicalCookieParts(token);
    ShortIsKeyFree("theme=dark");
    ShortIsKeyFree("; lang=en");
    EntryAfterOtherCookies("theme=dark", token, "; lang=en");
  }

  lemma TypicalCookieParts(token: string)
    ensures "theme=dark; accessToken=" + token + "; lang=en" == "theme=dark" + "; accessToken=" + token + "; lang=en"
  {
    assert "theme=dark; accessToken=" == "theme=dark" + "; accessToken=";
  }

  /** A string shorter than `accessToken` cannot contain it. */
  lemma ShortIsKeyFree(s: string)
    requires |s| < |Key|
    ensures KeyFree(s)
  {
  }
}
