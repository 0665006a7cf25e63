/** The two kinds of regular expression the transcript voters hand to Python's
    `re.findall`, reduced to the number of matches they return:
    - `Word(w)` is `\bw\b`, a whole-word match;
    - `Alternation(alts)` is `(a1|a2|...)` with no anchors, where at each position the
      FIRST listed alternative that matches wins (Python's alternation is ordered, not
      longest-match), and scanning resumes after the match. */
module Regex {
  import opened Wrappers
  import opened Text

  /** Python's `\w`, restricted to ASCII. */
  predicate IsWordChar(c: char) {
    'a' <= c <= 'z' || 'A' <= c <= 'Z' || '0' <= c <= '9' || c == '_'
  }

  /** `\b` at index `i`: exactly one of the two neighbouring characters is a word character. */
  predicate IsBoundary(s: string, i: int)
    requires 0 <= i <= |s|
  {
    (i > 0 && IsWordChar(s[i - 1])) != (i < |s| && IsWordChar(s[i]))
  }

  datatype Pattern = Word(w: string) | Alternation(alts: seq<string>)

  /** The patterns of the source: a whole word is a non-empty run of word characters,
      and every alternative is non-empty, so every match consumes input. */
  predicate Valid(p: Pattern) {
    match p
    case Word(w) => |w| > 0 && forall i :: 0 <= i < |w| ==> IsWordChar(w[i])
    case Alternation(alts) => forall j :: 0 <= j < |alts| ==> |alts[j]| > 0
  }

  /** `\bw\b` matches at index `i`. */
  predicate WordAt(s: string, w: string, i: int) {
    OccursAt(s, w, i) && IsBoundary(s, i) && IsBoundary(s, i + |w|)
  }

  /** Index of the first alternative that matches at `i`. */
  function FirstAlternative(alts: seq<string>, s: string, i: int, from: nat): (r: Option<nat>)
    requires from <= |alts|
    ensures r.Some? ==> from <= r.value < |alts| && OccursAt(s, alts[r.value], i)
    ensures r.Some? ==> forall j :: from <= j < r.value ==> !OccursAt(s, alts[j], i)
    ensures r.None? <==> forall j :: from <= j < |alts| ==> !OccursAt(s, alts[j], i)
    decreases |alts| - from
  {
    if from == |alts| then None
    else if OccursAt(s, alts[from], i) then Some(from)
    else FirstAlternative(alts, s, i, from + 1)
  }

  /** Length of the match of `p` starting at `i`, if any. */
  function MatchLength(p: Pattern, s: string, i: nat): (r: Option<nat>)
    requires Valid(p) && i <= |s|
    ensures r.Some? ==> 1 <= r.value && i + r.value <= |s|
  {
    match p
    case Word(w) => if WordAt(s, w, i) then Some(|w|) else None
    case Alternation(alts) =>
      match FirstAlternative(alts, s, i, 0)
      case Some(j) => Some(|alts[j]|)
      case None => None
  }

  /** Number of matches `re.findall` returns when scanning from index `i`. */
  function CountFrom(p: Pattern, s: string, i: nat): nat
    requires Valid(p) && i <= |s|
    decreases |s| - i
  {
    match MatchLength(p, s, i)
    case Some(n) => 1 + CountFrom(p, s, i + n)
    case None => if i == |s| then 0 else CountFrom(p, s, i + 1)
  }

  /** `len(re.findall(p, s))`. */
  function FindAllCount(p: Pattern, s: string): nat
    requires Valid(p)
  {
    CountFrom(p, s, 0)
  }

  /** Every index at or after `i` where the whole word `w` stands. */
  function WordPositions(s: string, w: string, i: int): set<int> {
    set q | i <= q <= |s| && WordAt(s, w, q)
  }

  /** A whole-word match leaves no room for another one to start inside it or right
      after it: the character before each such index is a word character. */
  lemma {:induction false} NoWordOverlap(s: string, w: string, i: int, q: int)
    requires Valid(Word(w))
    requires WordAt(s, w, i)
    requires i < q <= i + |w|
    ensures !WordAt(s, w, q)
  {
    assert s[q - 1] == s[i..i + |w|][q - 1 - i];
    assert IsWordChar(s[q - 1]);
    if OccursAt(s, w, q) {
      assert s[q] == s[q..q + |w|][0];
      assert IsWordChar(s[q]);
    }
  }

  /** The positions from a match on are that match and those past its end. */
  lemma {:induction false} WordPositionsAtMatch(s: string, w: string, i: nat)
    requires Valid(Word(w)) && WordAt(s, w, i)
    ensures WordPositions(s, w, i) == {i} + WordPositions(s, w, i + |w|)
    ensures i !in WordPositions(s, w, i + |w|)
  {
    forall q | q in WordPositions(s, w, i)
      ensures q in {i} + WordPositions(s, w, i + |w|)
    {
      if i < q <= i + |w| {
        NoWordOverlap(s, w, i, q);
      }
    }
  }

  lemma WordPositionsNoMatch(s: string, w: string, i: nat)
    requires !WordAt(s, w, i)
    ensures WordPositions(s, w, i) == WordPositions(s, w, i + 1)
  {
  }

  /** Because whole-word matches never overlap, the left-to-right scan of `findall`
      counts every index where the word stands. */
  lemma {:induction false} WordCountFrom(s: string, w: string, i: nat)
    requires Valid(Word(w)) && i <= |s|
    ensures CountFrom(Word(w), s, i) == |WordPositions(s, w, i)|
    decreases |s| - i
  {
    var p := Word(w);
    if WordAt(s, w, i) {
      assert MatchLength(p, s, i) == Some(|w|);
      assert CountFrom(p, s, i) == 1 + CountFrom(p, s, i + |w|);
      WordPositionsAtMatch(s, w, i);
      WordCountFrom(s, w, i + |w|);
    } else {
      assert MatchLength(p, s, i) == None;
      if i == |s| {
        assert WordPositions(s, w, i) == {};
      } else {
        assert CountFrom(p, s, i) == CountFrom(p, s, i + 1);
        WordPositionsNoMatch(s, w, i);
        WordCountFrom(s, w, i + 1);
      }
    }
  }

  lemma WordCount(s: string, w: string)
    requires Valid(Word(w))
    ensures FindAllCount(Word(w), s) == |WordPositions(s, w, 0)|
  {
    WordCountFrom(s, w, 0);
  }

  /** No alternative occurs anywhere at or after index `i`. */
  predicate NoAlternativeFrom(alts: seq<string>, s: string, i: int) {
    forall k, j :: i <= k <= |s| && 0 <= j < |alts| ==> !OccursAt(s, alts[j], k)
  }

  /** An alternation finds nothing from `i` on exactly when no alternative occurs at
      or after `i` — in particular an alternative inside a longer word still counts. */
  lemma {:induction false} AlternationZeroFrom(alts: seq<string>, s: string, i: nat)
    requires Valid(Alternation(alts)) && i <= |s|
    ensures CountFrom(Alternation(alts), s, i) == 0 <==> NoAlternativeFrom(alts, s, i)
    decreases |s| - i
  {
    var p := Alternation(alts);
    match FirstAlternative(alts, s, i, 0)
    case Some(j) =>
      assert OccursAt(s, alts[j], i);
    case None =>
      if i == |s| {
        forall k, j | i <= k <= |s| && 0 <= j < |alts|
          ensures !OccursAt(s, alts[j], k)
        {
        }
      } else {
        AlternationZeroFrom(alts, s, i + 1);
        if CountFrom(p, s, i) == 0 {
          forall k, j | i <= k <= |s| && 0 <= j < |alts|
            ensures !OccursAt(s, alts[j], k)
          {
            if k == i {
              assert !OccursAt(s, alts[j], i);
            }
          }
        }
      }
  }

  lemma AlternationZero(alts: seq<string>, s: string)
    requires Valid(Alternation(alts))
    ensures FindAllCount(Alternation(alts), s) == 0 <==> NoAlternativeFrom(alts, s, 0)
  {
    AlternationZeroFrom(alts, s, 0);
  }
}
