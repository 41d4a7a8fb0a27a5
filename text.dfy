/** The few Kotlin string operations the panel's logic is built from:
    `isBlank`, `contains(..., ignoreCase = true)` and `removePrefix`.
    Characters are modelled with ASCII case mapping and ASCII whitespace. */
module Text {

  /** `Char.isWhitespace()` on the ASCII range: tab, line feed, vertical tab,
      form feed, carriage return, the four separator controls 0x1C-0x1F, and space. */
  predicate IsWhitespace(c: char) {
    9 <= c as int <= 13 || 28 <= c as int <= 32
  }

  /** `CharSequence.isBlank()`: empty, or whitespace only. */
  predicate IsBlank(s: string) {
    forall i :: 0 <= i < |s| ==> IsWhitespace(s[i])
  }

  function UpperChar(c: char): char {
    if 'a' <= c <= 'z' then (c as int - 32) as char else c
  }

  function LowerChar(c: char): char {
    if 'A' <= c <= 'Z' then (c as int + 32) as char else c
  }

  /** `Char.equals(other, ignoreCase = true)`: equal, or equal once upper-cased,
      or equal once upper-cased and then lower-cased. */
  predicate CharEqualsIgnoreCase(a: char, b: char) {
    a == b || UpperChar(a) == UpperChar(b) || LowerChar(UpperChar(a)) == LowerChar(UpperChar(b))
  }

  /** With ASCII case mapping the three-step comparison is plain equality of lower-cased characters. */
  lemma CharEqualsIgnoreCaseIsLowerEquality(a: char, b: char)
    ensures CharEqualsIgnoreCase(a, b) <==> LowerChar(a) == LowerChar(b)
  {
  }

  /** `q.regionMatches(0, s, i, q.length, ignoreCase = true)`; false when the region
      does not fit inside `s`. */
  predicate RegionMatchesIgnoreCase(s: string, i: int, q: string) {
    0 <= i && i + |q| <= |s| && forall k :: 0 <= k < |q| ==> CharEqualsIgnoreCase(s[i + k], q[k])
  }

  /** `s.contains(q, ignoreCase = true)`, that is `indexOf(q, 0, ignoreCase = true) >= 0`:
      some start index in `0..s.length` has a matching region. */
  predicate ContainsIgnoreCase(s: string, q: string) {
    exists i :: 0 <= i <= |s| && RegionMatchesIgnoreCase(s, i, q)
  }

  /** The string with every character lower-cased. */
  function Lowered(s: string): (r: string)
    ensures |r| == |s|
    ensures forall i :: 0 <= i < |s| ==> r[i] == LowerChar(s[i])
  {
    seq(|s|, i requires 0 <= i < |s| => LowerChar(s[i]))
  }

  predicate OccursAt(p: string, t: string, i: int) {
    0 <= i && i + |p| <= |t| && t[i..i + |p|] == p
  }

  /** Plain, case-sensitive substring: the reference for the case-insensitive search. */
  predicate IsSubstring(p: string, t: string) {
    exists i :: 0 <= i <= |t| && OccursAt(p, t, i)
  }

  lemma RegionMatchesIsLoweredOccurrence(s: string, i: int, q: string)
    ensures RegionMatchesIgnoreCase(s, i, q) <==> OccursAt(Lowered(q), Lowered(s), i)
  {
    if 0 <= i && i + |q| <= |s| {
      var ls, lq := Lowered(s), Lowered(q);
      forall k | 0 <= k < |q|
        ensures CharEqualsIgnoreCase(s[i + k], q[k]) <==> ls[i..i + |q|][k] == lq[k]
      {
        CharEqualsIgnoreCaseIsLowerEquality(s[i + k], q[k]);
      }
      if OccursAt(lq, ls, i) {
        forall k | 0 <= k < |q| ensures CharEqualsIgnoreCase(s[i + k], q[k]) {
          assert ls[i..i + |q|][k] == lq[k];
        }
      }
    }
  }

  /** A case-insensitive search finds `q` in `s` exactly when lower-cased `q`
      is a substring of lower-cased `s`. */
  lemma ContainsIgnoreCaseIsLoweredSubstring(s: string, q: string)
    ensures ContainsIgnoreCase(s, q) <==> IsSubstring(Lowered(q), Lowered(s))
  {
    forall i | 0 <= i <= |s|
      ensures RegionMatchesIgnoreCase(s, i, q) <==> OccursAt(Lowered(q), Lowered(s), i)
    {
      RegionMatchesIsLoweredOccurrence(s, i, q);
    }
    if IsSubstring(Lowered(q), Lowered(s)) {
      var i :| 0 <= i <= |Lowered(s)| && OccursAt(Lowered(q), Lowered(s), i);
      assert RegionMatchesIgnoreCase(s, i, q);
    }
  }

  /** The letter case of the query makes no difference to the search. */
  lemma ContainsIgnoreCaseOfLoweredQuery(s: string, q: string)
    ensures ContainsIgnoreCase(s, Lowered(q)) <==> ContainsIgnoreCase(s, q)
  {
    ContainsIgnoreCaseIsLoweredSubstring(s, q);
    ContainsIgnoreCaseIsLoweredSubstring(s, Lowered(q));
    assert Lowered(Lowered(q)) == Lowered(q);
  }

  /** `removePrefix(p)`: drops `p` from the front when `s` starts with it,
      otherwise returns `s` unchanged. */
  function RemovePrefix(s: string, p: string): (r: string)
    ensures if p <= s then s == p + r else r == s
  {
    if p <= s then s[|p|..] else s
  }

  predicate IsSuffix(r: string, s: string) {
    |r| <= |s| && s[|s| - |r|..] == r
  }
}
