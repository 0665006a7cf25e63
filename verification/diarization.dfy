/** `format_diarization`: a Rev.ai transcript (a list of monologues, each a list
    of timed or untimed elements) flattened into diarized segments. */
module Diarization {
  import opened Wrappers
  import opened Records

  /** One Rev.ai element: a word or a punctuation mark, with optional times. */
  datatype Element = Element(value: string, ts: Option<real>, endTs: Option<real>)

  datatype Monologue = Monologue(speaker: Speaker, elements: seq<Element>)

  /** The time of the first element that has one. */
  function FirstTs(es: seq<Element>): (r: Option<real>)
    ensures r.None? <==> forall k :: 0 <= k < |es| ==> es[k].ts.None?
    ensures r.Some? ==> exists k :: 0 <= k < |es| && es[k].ts == r && forall j :: 0 <= j < k ==> es[j].ts.None?
  {
    if es == [] then None
    else if es[0].ts.Some? then es[0].ts
    else
      var r := FirstTs(es[1..]);
      assert forall k :: 1 <= k < |es| ==> es[k] == es[1..][k - 1];
      r
  }

  /** The end time of the last element that has one. */
  function LastEndTs(es: seq<Element>): (r: Option<real>)
    ensures r.None? <==> forall k :: 0 <= k < |es| ==> es[k].endTs.None?
    ensures r.Some? ==> exists k :: 0 <= k < |es| && es[k].endTs == r && forall j :: k < j < |es| ==> es[j].endTs.None?
  {
    if es == [] then None
    else if es[|es| - 1].endTs.Some? then es[|es| - 1].endTs
    else LastEndTs(es[..|es| - 1])
  }

  /** The values of the elements, concatenated with no separator. */
  function Join(es: seq<Element>): string {
    if es == [] then "" else Join(es[..|es| - 1]) + es[|es| - 1].value
  }

  lemma {:induction false} JoinAppend(a: seq<Element>, b: seq<Element>)
    ensures Join(a + b) == Join(a) + Join(b)
    decreases |b|
  {
    if b == [] {
      assert a + b == a;
    } else {
      var b' := b[..|b| - 1];
      assert (a + b)[..|a + b| - 1] == a + b';
      JoinAppend(a, b');
    }
  }

  /** The text is exactly as long as all values together: nothing is added
      between elements. */
  lemma {:induction false} JoinLength(es: seq<Element>)
    ensures |Join(es)| == SumLengths(es)
    decreases |es|
  {
    if es != [] {
      JoinLength(es[..|es| - 1]);
    }
  }

  function SumLengths(es: seq<Element>): nat {
    if es == [] then 0 else SumLengths(es[..|es| - 1]) + |es[|es| - 1].value|
  }

  lemma {:induction false} FirstTsSnoc(es: seq<Element>, e: Element)
    ensures FirstTs(es + [e]) == if FirstTs(es).Some? then FirstTs(es) else e.ts
    decreases |es|
  {
    if es != [] {
      assert (es + [e])[1..] == es[1..] + [e];
      FirstTsSnoc(es[1..], e);
    }
  }

  /** The segment a monologue becomes. */
  function SegmentOf(m: Monologue): Segment {
    Segment(m.speaker, FirstTs(m.elements), LastEndTs(m.elements), Join(m.elements))
  }

  /** The inner loop of the source: the first `ts` and the last `end_ts`. */
  method ScanTimes(es: seq<Element>) returns (start: Option<real>, end: Option<real>)
    ensures start == FirstTs(es) && end == LastEndTs(es)
  {
    start, end := None, None;
    var i := 0;
    while i < |es|
      invariant 0 <= i <= |es|
      invariant start == FirstTs(es[..i])
      invariant end == LastEndTs(es[..i])
    {
      var prefix := es[..i + 1];
      assert prefix == es[..i] + [es[i]];
      assert prefix[..|prefix| - 1] == es[..i];
      FirstTsSnoc(es[..i], es[i]);
      if start.None? && es[i].ts.Some? {
        start := es[i].ts;
      }
      if es[i].endTs.Some? {
        end := es[i].endTs;
      }
      i := i + 1;
    }
    assert es[..i] == es;
  }

  /** `''.join(element['value'] for element in elements)`. */
  method JoinValues(es: seq<Element>) returns (text: string)
    ensures text == Join(es)
  {
    text := "";
    var k := 0;
    while k < |es|
      invariant 0 <= k <= |es|
      invariant text == Join(es[..k])
    {
      assert es[..k + 1][..k] == es[..k];
      text := text + es[k].value;
      k := k + 1;
    }
    assert es[..k] == es;
  }

  /** One monologue, scanned element by element as the source does. */
  method FormatMonologue(m: Monologue) returns (seg: Segment)
    ensures seg == SegmentOf(m)
    ensures seg.speaker == m.speaker
    ensures m.elements == [] ==> seg.start.None? && seg.end.None? && seg.text == ""
  {
    var start, end := ScanTimes(m.elements);
    var text := JoinValues(m.elements);
    seg := Segment(m.speaker, start, end, text);
  }

  /** `format_diarization`: one segment per monologue, in order. */
  method FormatDiarization(ms: seq<Monologue>) returns (segs: seq<Segment>)
    ensures |segs| == |ms|
    ensures forall i :: 0 <= i < |ms| ==> segs[i] == SegmentOf(ms[i])
  {
    segs := [];
    var i := 0;
    while i < |ms|
      invariant 0 <= i <= |ms|
      invariant |segs| == i
      invariant forall k :: 0 <= k < i ==> segs[k] == SegmentOf(ms[k])
    {
      var seg := FormatMonologue(ms[i]);
      segs := segs + [seg];
      i := i + 1;
    }
  }

  /** The text of the segments, concatenated, is the text of all elements in
      order: formatting loses no word and reorders nothing. */
  lemma {:induction false} TextPreserved(ms: seq<Monologue>)
    ensures Texts(Map(ms)) == Join(AllElements(ms))
    decreases |ms|
  {
    if ms != [] {
      TextPreserved(ms[1..]);
      JoinAppend(ms[0].elements, AllElements(ms[1..]));
    }
  }

  /** The segments `FormatDiarization` returns, as a function. */
  function Map(ms: seq<Monologue>): (r: seq<Segment>)
    ensures |r| == |ms|
    ensures forall i :: 0 <= i < |ms| ==> r[i] == SegmentOf(ms[i])
  {
    if ms == [] then [] else
      var rest := Map(ms[1..]);
      assert forall i :: 1 <= i < |ms| ==> ms[i] == ms[1..][i - 1];
      [SegmentOf(ms[0])] + rest
  }

  function Texts(segs: seq<Segment>): string {
    if segs == [] then "" else segs[0].text + Texts(segs[1..])
  }

  function AllElements(ms: seq<Monologue>): seq<Element> {
    if ms == [] then [] else ms[0].elements + AllElements(ms[1..])
  }
}
