/** Facts about concatenated strings that the generated pages are built from. */
module Text {

  ghost predicate OccursAt(s: string, t: string, i: nat) {
    i + |t| <= |s| && s[i..i + |t|] == t
  }

  ghost predicate Occurs(s: string, t: string) {
    exists i: nat :: OccursAt(s, t, i)
  }

  /** Lines of a multi-line template literal, joined by line breaks. */
  function JoinLines(lines: seq<string>): string
  {
    if |lines| == 0 then ""
    else if |lines| == 1 then lines[0]
    else lines[0] + "\n" + JoinLines(lines[1..])
  }

  /** The middle of a concatenation occurs right after its prefix. */
  lemma OccursAtMiddle(a: string, t: string, b: string)
    ensures OccursAt(a + t + b, t, |a|)
  {
    assert (a + t + b)[|a|..|a| + |t|] == t;
  }

  lemma OccursExtendRight(s: string, t: string, u: string)
    requires Occurs(s, t)
    ensures Occurs(s + u, t)
  {
    var i: nat :| OccursAt(s, t, i);
    assert (s + u)[i..i + |t|] == s[i..i + |t|];
    assert OccursAt(s + u, t, i);
  }

  lemma OccursExtendLeft(u: string, s: string, t: string)
    requires Occurs(s, t)
    ensures Occurs(u + s, t)
  {
    var i: nat :| OccursAt(s, t, i);
    assert (u + s)[|u| + i..|u| + i + |t|] == s[i..i + |t|];
    assert OccursAt(u + s, t, |u| + i);
  }

  /** Splitting `v` after its first character and regrouping the concatenation. */
  lemma SplitAfterFirst(a: string, v: string, w: string, m: string, k: string)
    requires v != []
    ensures a + v + (w + m) + k == (a + [v[0]] + (v[1..] + w)) + m + k + []
    ensures a + v + (w + m) + k == a + [v[0]] + (v[1..] + w) + (m + k + [])
  {
    assert v == [v[0]] + v[1..];
  }

  /** Regrouping a concatenation around the piece `k` in its middle. */
  lemma RegroupAround(a: string, s: string, v: string, k: string, q: string, d: string, rest: string)
    ensures a + (s + (v + k) + q) + d + rest == (a + s + v) + (k + (q + d + rest))
  {
  }

  lemma CancelPrefix(p: string, x: string, y: string)
    requires p + x == p + y
    ensures x == y
  {
    assert x == (p + x)[|p|..];
    assert y == (p + y)[|p|..];
  }

  lemma CancelSuffix(x: string, y: string, t: string)
    requires x + t == y + t
    ensures x == y
  {
    assert x == (x + t)[..|x|];
    assert y == (y + t)[..|y|];
  }
}
