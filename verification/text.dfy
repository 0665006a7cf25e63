/** Strings as the voters see them: ASCII lower-casing (Python's `str.lower()` restricted
    to ASCII) and the substring test behind Python's `pattern in text`. */
module Text {
  import opened Wrappers

  predicate IsUpper(c: char) {
    'A' <= c <= 'Z'
  }

  function LowerChar(c: char): char {
    if IsUpper(c) then (c as int + 32) as char else c
  }

  /** `s.lower()` for ASCII text. */
  function Lower(s: string): (r: string)
    ensures |r| == |s|
    ensures forall i :: 0 <= i < |s| ==> r[i] == LowerChar(s[i])
  {
    if s == [] then [] else [LowerChar(s[0])] + Lower(s[1..])
  }

  /** A pattern with no upper-case letter is left unchanged by lower-casing. */
  predicate HasNoUpper(p: string) {
    forall i :: 0 <= i < |p| ==> !IsUpper(p[i])
  }

  /** `pat` occurs in `s` starting at index `i`. */
  predicate OccursAt(s: string, pat: string, i: int) {
    0 <= i && i + |pat| <= |s| && s[i..i + |pat|] == pat
  }

  /** The leftmost index at or after `i` where `pat` occurs (Python's `s.find(pat, i)`). */
  function IndexOfFrom(s: string, pat: string, i: nat): (r: Option<nat>)
    requires i <= |s|
    ensures r.Some? ==> i <= r.value && OccursAt(s, pat, r.value)
    ensures r.Some? ==> forall k :: i <= k < r.value ==> !OccursAt(s, pat, k)
    ensures r.None? ==> forall k :: i <= k ==> !OccursAt(s, pat, k)
    decreases |s| - i
  {
    if i + |pat| > |s| then None
    else if s[i..i + |pat|] == pat then Some(i)
    else IndexOfFrom(s, pat, i + 1)
  }

  function IndexOf(s: string, pat: string): (r: Option<nat>)
    ensures r.Some? ==> OccursAt(s, pat, r.value)
    ensures r.Some? ==> forall k :: 0 <= k < r.value ==> !OccursAt(s, pat, k)
    ensures r.None? <==> forall k :: !OccursAt(s, pat, k)
  {
    IndexOfFrom(s, pat, 0)
  }

  /** Python's `pat in s`. */
  predicate Contains(s: string, pat: string) {
    IndexOf(s, pat).Some?
  }

  lemma ContainsIff(s: string, pat: string)
    ensures Contains(s, pat) <==> exists k :: OccursAt(s, pat, k)
  {
    if !Contains(s, pat) {
      assert forall k :: !OccursAt(s, pat, k);
    }
  }

  /** Lower-casing distributes over concatenation. */
  lemma {:induction false} LowerAppend(s: string, t: string)
    ensures Lower(s + t) == Lower(s) + Lower(t)
  {
    var l := Lower(s + t);
    assert |l| == |Lower(s) + Lower(t)|;
    forall i | 0 <= i < |l|
      ensures l[i] == (Lower(s) + Lower(t))[i]
    {
      if i < |s| {
        assert (s + t)[i] == s[i];
      } else {
        assert (s + t)[i] == t[i - |s|];
      }
    }
  }

  /** Text without upper-case letters is its own lower-case form. */
  lemma LowerOfLower(s: string)
    requires HasNoUpper(s)
    ensures Lower(s) == s
  {
  }

  lemma LowerIdempotent(s: string)
    ensures Lower(Lower(s)) == Lower(s)
  {
  }

  /** An occurrence survives any text being added on either side. */
  lemma {:induction false} ContainsWithin(pre: string, s: string, post: string, pat: string)
    requires Contains(s, pat)
    ensures Contains(pre + s + post, pat)
  {
    var k := IndexOf(s, pat).value;
    var t := pre + s + post;
    assert t[|pre| + k..|pre| + k + |pat|] == s[k..k + |pat|];
    assert OccursAt(t, pat, |pre| + k);
    ContainsIff(t, pat);
  }

  /** An occurrence of a pattern without upper-case letters survives lower-casing. */
  lemma {:induction false} ContainsLower(s: string, pat: string)
    requires HasNoUpper(pat)
    requires Contains(s, pat)
    ensures Contains(Lower(s), pat)
  {
    var k := IndexOf(s, pat).value;
    var l := Lower(s);
    assert l[k..k + |pat|] == pat by {
      forall j | 0 <= j < |pat|
        ensures l[k + j] == pat[j]
      {
        assert s[k + j] == s[k..k + |pat|][j];
      }
    }
    assert OccursAt(l, pat, k);
    ContainsIff(l, pat);
  }
}
