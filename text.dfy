/**
 * Text operations the assistant's rules are built from: Python's substring test
 * `sub in s`, `str.lower()` restricted to the letters Spanish text uses, and
 * "the first entry of a list that satisfies a test", which every keyword
 * cascade and the catalogue scan are instances of.
 */
module Text {
  import opened Wrappers

  /** `sub` occurs in `s` starting at position `i`. */
  predicate OccursAt(s: string, sub: string, i: nat) {
    i + |sub| <= |s| && s[i..i + |sub|] == sub
  }

  /** Python's `sub in s` on strings. */
  predicate Contains(s: string, sub: string) {
    exists i: nat :: i <= |s| && OccursAt(s, sub, i)
  }

  lemma ContainsWitness(s: string, sub: string, i: nat)
    requires OccursAt(s, sub, i)
    ensures Contains(s, sub)
  {
  }

  /** An occurrence survives putting text on either side. */
  lemma OccursInContext(a: string, t: string, b: string, sub: string, i: nat)
    requires OccursAt(t, sub, i)
    ensures OccursAt(a + t + b, sub, |a| + i)
  {
    assert (a + t + b)[|a| + i..|a| + i + |sub|] == t[i..i + |sub|];
  }

  /** No occurrence is possible when the k-th character of `sub` is missing
      from every position of `s` that an occurrence could put it at. */
  lemma NotContainsWindow(s: string, sub: string, k: nat)
    requires k < |sub| <= |s| && sub[k] !in s[k..|s| - |sub| + k + 1]
    ensures !Contains(s, sub)
  {
    forall i: nat | i <= |s| && i + |sub| <= |s|
      ensures !OccursAt(s, sub, i)
    {
      assert s[i..i + |sub|][k] == s[i + k] == s[k..|s| - |sub| + k + 1][i];
    }
  }

  /** No occurrence is possible when some character of `sub` is not in `s` at all. */
  lemma NotContainsChar(s: string, sub: string, m: nat)
    requires m < |sub| && sub[m] !in s
    ensures !Contains(s, sub)
  {
    forall i: nat | i <= |s| && i + |sub| <= |s|
      ensures !OccursAt(s, sub, i)
    {
      assert s[i..i + |sub|][m] == s[i + m];
    }
  }

  /** A string longer than `s` does not occur in it. */
  lemma NotContainsLonger(s: string, sub: string)
    requires |s| < |sub|
    ensures !Contains(s, sub)
  {
  }

  /** None of `words` occurs in `s` when each word is either known to be
      absent or has, at position `pick[i]`, a character of `absent`, none of
      whose characters is in `s`. */
  lemma NoneContained(s: string, words: seq<string>, pick: seq<nat>, absent: string)
    requires |pick| == |words|
    requires forall c :: c in absent ==> c !in s
    requires forall i :: 0 <= i < |words| ==>
      !Contains(s, words[i]) || (pick[i] < |words[i]| && words[i][pick[i]] in absent)
    ensures !ContainsAny(s, words)
  {
    forall i | 0 <= i < |words|
      ensures !Contains(s, words[i])
    {
      if Contains(s, words[i]) {
        NotContainsChar(s, words[i], pick[i]);
      }
    }
  }

  /** The empty string is a substring of every string, as in Python. */
  lemma EmptyIsContained(s: string)
    ensures Contains(s, "")
  {
    assert OccursAt(s, "", 0);
  }

  /** Every string contains itself. */
  lemma ContainsSelf(s: string)
    ensures Contains(s, s)
  {
    assert OccursAt(s, s, 0);
  }

  /** `str.lower()` on one character: ASCII capitals and the accented
      capitals of Spanish; every other character is left as it is. */
  function LowerChar(c: char): char {
    if 'A' <= c <= 'Z' then (c as int + 32) as char
    else if c == 'Á' then 'á'
    else if c == 'É' then 'é'
    else if c == 'Í' then 'í'
    else if c == 'Ó' then 'ó'
    else if c == 'Ú' then 'ú'
    else if c == 'Ü' then 'ü'
    else if c == 'Ñ' then 'ñ'
    else c
  }

  /** The capital that `LowerChar` sends to `c`, or `c` itself when there is none. */
  function UpperChar(c: char): char {
    if 'a' <= c <= 'z' then (c as int - 32) as char
    else if c == 'á' then 'Á'
    else if c == 'é' then 'É'
    else if c == 'í' then 'Í'
    else if c == 'ó' then 'Ó'
    else if c == 'ú' then 'Ú'
    else if c == 'ü' then 'Ü'
    else if c == 'ñ' then 'Ñ'
    else c
  }

  /** Only `c` and its capital lower-case to `c`. */
  lemma LowerCharPreimage(x: char, c: char)
    requires LowerChar(x) == c
    ensures x == c || x == UpperChar(c)
  {
  }

  /** `str.lower()`, character by character. */
  function Lower(s: string): (r: string)
    ensures |r| == |s|
    ensures forall i :: 0 <= i < |s| ==> r[i] == LowerChar(s[i])
  {
    seq(|s|, i requires 0 <= i < |s| => LowerChar(s[i]))
  }

  lemma LowerCharIdempotent(c: char)
    ensures LowerChar(LowerChar(c)) == LowerChar(c)
  {
  }

  /** Lower-casing twice is lower-casing once. */
  lemma LowerIdempotent(s: string)
    ensures Lower(Lower(s)) == Lower(s)
  {
    forall i | 0 <= i < |s|
      ensures Lower(Lower(s))[i] == Lower(s)[i]
    {
      LowerCharIdempotent(s[i]);
    }
  }

  /** Lower-casing keeps every occurrence in place. */
  lemma LowerOccurs(s: string, sub: string, i: nat)
    requires OccursAt(s, sub, i)
    ensures OccursAt(Lower(s), Lower(sub), i)
  {
    assert Lower(s)[i..i + |sub|] == Lower(sub) by {
      forall k | 0 <= k < |sub|
        ensures Lower(s)[i..i + |sub|][k] == Lower(sub)[k]
      {
        assert s[i + k] == s[i..i + |sub|][k] == sub[k];
      }
    }
  }

  /** A lower-case character is absent from a lower-cased suffix when neither
      it nor its capital is in the original suffix. */
  lemma NotInLower(s: string, c: char, k: nat)
    requires k <= |s| && c !in s[k..] && UpperChar(c) !in s[k..]
    ensures c !in Lower(s)[k..]
  {
    forall j | 0 <= j < |s| - k
      ensures Lower(s)[k..][j] != c
    {
      assert s[k..][j] == s[k + j];
      if LowerChar(s[k + j]) == c {
        LowerCharPreimage(s[k + j], c);
      }
    }
  }

  /** Python's `any(w in s for w in words)`. */
  predicate ContainsAny(s: string, words: seq<string>) {
    exists i :: 0 <= i < |words| && Contains(s, words[i])
  }

  /** The position of the first element of `xs` that passes `p`, scanning in
      order, as a `for ... break` loop or an `if/elif` chain finds it. */
  function FirstWhere<T>(xs: seq<T>, p: T -> bool): (r: Option<nat>)
    ensures r.Some? ==> r.value < |xs| && p(xs[r.value])
    ensures r.Some? ==> forall j :: 0 <= j < r.value ==> !p(xs[j])
    ensures r.None? <==> forall j :: 0 <= j < |xs| ==> !p(xs[j])
  {
    if xs == [] then None
    else if p(xs[0]) then Some(0)
    else match FirstWhere(xs[1..], p)
      case None => None
      case Some(i) => Some(i + 1)
  }

  /** The first bucket of keywords that `s` hits. */
  function FirstBucket(s: string, buckets: seq<seq<string>>): (r: Option<nat>)
    ensures r.Some? ==> r.value < |buckets| && ContainsAny(s, buckets[r.value])
    ensures r.Some? ==> forall j :: 0 <= j < r.value ==> !ContainsAny(s, buckets[j])
    ensures r.None? <==> forall j :: 0 <= j < |buckets| ==> !ContainsAny(s, buckets[j])
  {
    FirstWhere(buckets, (b: seq<string>) => ContainsAny(s, b))
  }
}
