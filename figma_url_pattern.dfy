/**
 * The regular expression `figma\.com\/file\/([a-zA-Z0-9]+)` that both the page
 * and the API route apply to a Figma URL with `String.prototype.match`.
 *
 * A match starts at an index `i` where the literal text `figma.com/file/`
 * occurs and is followed by at least one ASCII letter or digit; `match`
 * returns the LEFTMOST such match, and the greedy `+` makes capture group 1
 * the MAXIMAL run of letters and digits after the literal text.
 */
module FigmaUrlPattern {
  import opened Wrappers

  /** The literal part of the pattern, `figma\.com\/file\/` unescaped. */
  const Marker: string := "figma.com/file/"

  /** The character class `[a-zA-Z0-9]`. Matching is case-sensitive and ASCII only. */
  predicate IsAsciiAlnum(c: char) {
    ('a' <= c <= 'z') || ('A' <= c <= 'Z') || ('0' <= c <= '9')
  }

  /** A string that capture group 1 can hold: one or more characters of `[a-zA-Z0-9]`. */
  predicate IsFileKey(s: string) {
    |s| > 0 && forall i :: 0 <= i < |s| ==> IsAsciiAlnum(s[i])
  }

  /** The pattern matches at index `i`: the marker is there and a letter or digit follows it. */
  predicate MatchStartsAt(url: string, i: nat) {
    i + |Marker| < |url| && url[i..i + |Marker|] == Marker && IsAsciiAlnum(url[i + |Marker|])
  }

  ghost predicate HasMatch(url: string) {
    exists i: nat :: MatchStartsAt(url, i)
  }

  /** What `url.match(...)` yields on success: the match index and capture group 1. */
  datatype RegexMatch = RegexMatch(index: nat, group: string)

  /**
   * Declarative meaning of a successful match: it starts at the leftmost index
   * where the pattern can match, and its group is the maximal alphanumeric run
   * that follows the marker there.
   */
  ghost predicate IsLeftmostMatch(url: string, m: RegexMatch) {
    var start := m.index + |Marker|;
    var end := start + |m.group|;
    && MatchStartsAt(url, m.index)
    && (forall j: nat :: j < m.index ==> !MatchStartsAt(url, j))
    && IsFileKey(m.group)
    && end <= |url|
    && url[start..end] == m.group
    && (end == |url| || !IsAsciiAlnum(url[end]))
  }

  /** The regex engine's scan for the first index, from `from` on, where a match starts. */
  function FirstMatchFrom(url: string, from: nat): (r: Option<nat>)
    decreases |url| - from
    ensures r.Some? ==> from <= r.value && MatchStartsAt(url, r.value)
    ensures r.Some? ==> forall j: nat :: from <= j < r.value ==> !MatchStartsAt(url, j)
    ensures r.None? ==> forall j: nat :: from <= j ==> !MatchStartsAt(url, j)
  {
    if from + |Marker| >= |url| then None
    else if MatchStartsAt(url, from) then Some(from)
    else FirstMatchFrom(url, from + 1)
  }

  /** Greedy `[a-zA-Z0-9]+`: the end of the alphanumeric run that starts at `from`. */
  function AlnumRunEnd(url: string, from: nat): (e: nat)
    requires from <= |url|
    decreases |url| - from
    ensures from <= e <= |url|
    ensures forall j :: from <= j < e ==> IsAsciiAlnum(url[j])
    ensures e == |url| || !IsAsciiAlnum(url[e])
  {
    if from == |url| || !IsAsciiAlnum(url[from]) then from else AlnumRunEnd(url, from + 1)
  }

  /** `url.match(/figma\.com\/file\/([a-zA-Z0-9]+)/)`: `None` stands for JavaScript's `null`. */
  function Match(url: string): (m: Option<RegexMatch>)
    ensures m.Some? ==> IsLeftmostMatch(url, m.value)
    ensures m.None? <==> !HasMatch(url)
  {
    match FirstMatchFrom(url, 0)
    case None => None
    case Some(i) =>
      var e := AlnumRunEnd(url, i + |Marker|);
      Some(RegexMatch(i, url[i + |Marker|..e]))
  }

  /** At most one match satisfies the declarative meaning. */
  lemma LeftmostMatchUnique(url: string, m1: RegexMatch, m2: RegexMatch)
    requires IsLeftmostMatch(url, m1) && IsLeftmostMatch(url, m2)
    ensures m1 == m2
  {
  }

  /** `Match` returns exactly the leftmost, maximal match, and only it. */
  lemma MatchIsLeftmostMatch(url: string, m: RegexMatch)
    ensures Match(url) == Some(m) <==> IsLeftmostMatch(url, m)
  {
    if IsLeftmostMatch(url, m) {
      assert HasMatch(url);
      LeftmostMatchUnique(url, Match(url).value, m);
    }
  }

  /** A URL lacking any one character of the marker has no match. */
  lemma NoMatchWithoutMarkerChar(url: string, c: char)
    requires c in Marker && c !in url
    ensures !HasMatch(url)
  {
  }

  /** No match can start inside a prefix that has no `f`, the marker's first character. */
  lemma NoMatchStartsIn(prefix: string, rest: string)
    requires 'f' !in prefix
    ensures forall j: nat :: j < |prefix| ==> !MatchStartsAt(prefix + rest, j)
  {
    var url := prefix + rest;
    forall j: nat | j < |prefix|
      ensures !MatchStartsAt(url, j)
    {
      assert url[j] == prefix[j] != Marker[0];
      if j + |Marker| <= |url| {
        assert url[j..j + |Marker|][0] == url[j];
      }
    }
  }

  /**
   * When no match starts before the marker at `|prefix|`, the match is the key
   * that follows that marker, ended by the end of input or by any character
   * outside `[a-zA-Z0-9]` (so `_`, `-`, `/` and `?` all end a key).
   */
  lemma MatchAfterPrefix(prefix: string, key: string, rest: string)
    requires forall j: nat :: j < |prefix| ==> !MatchStartsAt(prefix + Marker + key + rest, j)
    requires IsFileKey(key)
    requires rest == [] || !IsAsciiAlnum(rest[0])
    ensures Match(prefix + Marker + key + rest) == Some(RegexMatch(|prefix|, key))
  {
    var url := prefix + Marker + key + rest;
    var m := RegexMatch(|prefix|, key);
    var start := |prefix| + |Marker|;
    assert url[|prefix|..start] == Marker;
    assert url[start..start + |key|] == key;
    assert url[start] == key[0];
    assert start + |key| < |url| ==> url[start + |key|] == rest[0];
    assert IsLeftmostMatch(url, m);
    MatchIsLeftmostMatch(url, m);
  }

  /**
   * A key followed by a character outside `[a-zA-Z0-9]` can be read back:
   * two such strings that are equal carry the same key.
   */
  lemma {:induction false} KeyBeforeDelimiterUnique(k1: string, s1: string, k2: string, s2: string)
    requires IsFileKey(k1) && IsFileKey(k2)
    requires |s1| > 0 && !IsAsciiAlnum(s1[0])
    requires |s2| > 0 && !IsAsciiAlnum(s2[0])
    requires k1 + s1 == k2 + s2
    ensures k1 == k2 && s1 == s2
  {
    assert k1 == (k1 + s1)[..|k1|];
    assert k2 == (k2 + s2)[..|k2|];
    assert s1 == (k1 + s1)[|k1|..];
    assert s2 == (k2 + s2)[|k2|..];
  }

  /**
   * No match starts inside `a + "f" + b` when neither `a` nor `b` has an `f`
   * and `b` is long enough: at the one `f` the marker's second `f` would
   * have to fall inside `b`.
   */
  lemma NoMatchStartsAroundOneF(a: string, b: string, rest: string)
    requires 'f' !in a && 'f' !in b && |b| >= 10
    ensures forall j: nat :: j < |a| + 1 + |b| ==> !MatchStartsAt(a + "f" + b + rest, j)
  {
    var url := a + "f" + b + rest;
    forall j: nat | j < |a| + 1 + |b|
      ensures !MatchStartsAt(url, j)
    {
      if j + |Marker| <= |url| {
        assert url[j..j + |Marker|][0] == url[j];
        assert url[j..j + |Marker|][10] == url[j + 10];
        if j < |a| {
          assert url[j] == a[j];
        } else if j == |a| {
          assert url[j + 10] == b[9];
        } else {
          assert url[j] == b[j - |a| - 1];
        }
      }
    }
  }
}
