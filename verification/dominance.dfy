/** The speaker-dominance heuristic of `only_two_people_speaking`, as the source
    computes it.

    Segments are folded in order. A segment whose start lies after
    `len(flags) * 30 + 30` seconds first closes the open block. Closing a block scores
    it with two nested loops over its speakers in first-appearance order:
    - the inner loop `break`s on the first partner that alone exceeds 70% of the block
      (flag 0) or, being a different speaker, exceeds 70% together with the outer
      speaker (flag 1);
    - the `break` leaves the inner loop only, so every speaker of the block can add a
      flag;
    - the `for ... else` of the outer loop always runs and adds a final 0.
    The segment's duration is then added to the (possibly fresh) open block. The
    block still open after the last segment is never scored. */
module Dominance {
  import opened Wrappers
  import opened Records

  /** A speaker, or a pair of speakers, dominates a block above this share of its time. */
  const Majority: real := 0.70

  /** Width of a block in seconds. */
  const BlockSeconds: int := 30

  /** One speaker's accumulated time in the open block. */
  datatype Entry = Entry(speaker: Speaker, secs: real)

  /** The open block: the per-speaker times in first-appearance order, and the total. */
  datatype Block = Block(entries: seq<Entry>, total: real)

  const EmptyBlock: Block := Block([], 0.0)

  function Speakers(es: seq<Entry>): (r: seq<Speaker>)
    ensures |r| == |es|
    ensures forall i :: 0 <= i < |es| ==> r[i] == es[i].speaker
  {
    if es == [] then [] else [es[0].speaker] + Speakers(es[1..])
  }

  function SumSecs(es: seq<Entry>): real {
    if es == [] then 0.0 else es[0].secs + SumSecs(es[1..])
  }

  /** The time `es` holds for speaker `t`: its entry's time when it has one, 0 otherwise
      (the `get(t, 0)` of the source). */
  function SecsOf(es: seq<Entry>, t: Speaker): real {
    if es == [] then 0.0 else (if es[0].speaker == t then es[0].secs else 0.0) + SecsOf(es[1..], t)
  }

  predicate DistinctSpeakers(es: seq<Entry>) {
    forall i, j :: 0 <= i < j < |es| ==> es[i].speaker != es[j].speaker
  }

  /** A block as the source keeps it: one dictionary entry per speaker, and a total
      equal to the sum of the entries. */
  predicate WellFormed(b: Block) {
    DistinctSpeakers(b.entries) && b.total == SumSecs(b.entries)
  }

  /** `d[s] = d.get(s, 0) + secs`: a known speaker keeps its place, a new one goes last. */
  function AddTime(es: seq<Entry>, s: Speaker, secs: real): (r: seq<Entry>)
    ensures Speakers(r) == if s in Speakers(es) then Speakers(es) else Speakers(es) + [s]
    ensures SumSecs(r) == SumSecs(es) + secs
    ensures DistinctSpeakers(es) ==> DistinctSpeakers(r)
    ensures forall t :: SecsOf(r, t) == SecsOf(es, t) + (if t == s then secs else 0.0)
  {
    if es == [] then [Entry(s, secs)]
    else if es[0].speaker == s then [Entry(s, es[0].secs + secs)] + es[1..]
    else
      var rest := AddTime(es[1..], s, secs);
      assert Speakers(es) == [es[0].speaker] + Speakers(es[1..]);
      assert Speakers([es[0]] + rest) == [es[0].speaker] + Speakers(rest);
      [es[0]] + rest
  }

  /** Two different speakers who together exceed the majority share. */
  predicate Partners(e: Entry, f: Entry, total: real)
    requires total != 0.0
  {
    e.speaker != f.speaker && (e.secs + f.secs) / total > Majority
  }

  /** The inner loop for the outer speaker `e`, over `rest`; `None` when it runs to its
      end without a `break`. */
  function InnerScan(e: Entry, rest: seq<Entry>, total: real): Option<bool>
    requires total != 0.0
  {
    if rest == [] then None
    else if rest[0].secs / total > Majority then Some(false)
    else if Partners(e, rest[0], total) then Some(true)
    else InnerScan(e, rest[1..], total)
  }

  /** The flags the outer loop appends for the speakers `outer`, before its `else`. */
  function OuterScan(outer: seq<Entry>, all: seq<Entry>, total: real): (flags: seq<bool>)
    requires total != 0.0
    ensures |flags| <= |outer|
  {
    if outer == [] then []
    else
      var head := match InnerScan(outer[0], all, total) case Some(f) => [f] case None => [];
      head + OuterScan(outer[1..], all, total)
  }

  /** The flags closing a block appends; dividing by a zero total raises. */
  function ScoreBlock(b: Block): (r: Result<seq<bool>, Fault>)
    ensures r.Err? <==> b.entries != [] && b.total == 0.0
    ensures r.Err? ==> r.error == ZeroDivision
    ensures r.Ok? ==> 1 <= |r.value| <= |b.entries| + 1
    ensures r.Ok? ==> !r.value[|r.value| - 1]
  {
    if b.entries == [] then Ok([false])
    else if b.total == 0.0 then Err(ZeroDivision)
    else Ok(OuterScan(b.entries, b.entries, b.total) + [false])
  }

  /** `mainly_two_speakers` together with the open block. */
  datatype State = State(flags: seq<bool>, block: Block)

  const Initial: State := State([], EmptyBlock)

  /** A segment starting after this many seconds closes the open block. */
  function Threshold(flags: seq<bool>): int {
    |flags| * BlockSeconds + BlockSeconds
  }

  /** The block a segment starting at `start` is added to: a fresh one when it
      closes the open block, the open block otherwise. */
  function Reopened(st: State, start: real): Block {
    if start > Threshold(st.flags) as real then EmptyBlock else st.block
  }

  /** `end_time - start_time` of a segment with both times. */
  function SegmentSecs(seg: Segment): real
    requires seg.start.Some? && seg.end.Some?
  {
    seg.end.value - seg.start.value
  }

  /** The speakers after `t` speaks, in first-appearance order. */
  function AddSpeaker(seen: seq<Speaker>, t: Speaker): seq<Speaker> {
    if t in seen then seen else seen + [t]
  }

  /** One iteration of the loop over the segments. Comparing or subtracting a `None`
      time raises a `TypeError`. */
  function Step(st: State, seg: Segment): (r: Result<State, Fault>)
    ensures seg.start.None? ==> r == Err(TypeError)
    ensures r.Ok? && seg.start.value <= Threshold(st.flags) as real ==> r.value.flags == st.flags
    ensures r.Ok? && seg.start.value > Threshold(st.flags) as real
            ==> ScoreBlock(st.block).Ok? && r.value.flags == st.flags + ScoreBlock(st.block).value
    ensures r.Ok? ==> seg.speaker in Speakers(r.value.block.entries)
    ensures seg.start.Some? && seg.end.None? ==> r.Err?
    ensures seg.start.Some? && seg.end.None? && !(seg.start.value > Threshold(st.flags) as real && ScoreBlock(st.block).Err?)
            ==> r == Err(TypeError)
    ensures r.Ok? ==> seg.start.Some? && seg.end.Some?
    ensures seg.start.Some? && seg.end.Some? && (seg.start.value <= Threshold(st.flags) as real || ScoreBlock(st.block).Ok?)
            ==> r.Ok?
    ensures seg.start.Some? && seg.start.value > Threshold(st.flags) as real && ScoreBlock(st.block).Err?
            ==> r == Err(ZeroDivision)
    ensures r.Ok? && seg.start.Some? ==>
            Speakers(r.value.block.entries) == AddSpeaker(Speakers(Reopened(st, seg.start.value).entries), seg.speaker)
    ensures r.Ok? && seg.start.Some? && seg.end.Some? ==>
            (forall t :: SecsOf(r.value.block.entries, t)
                         == SecsOf(Reopened(st, seg.start.value).entries, t) + (if t == seg.speaker then SegmentSecs(seg) else 0.0))
            && r.value.block.total == Reopened(st, seg.start.value).total + SegmentSecs(seg)
  {
    match seg.start
    case None => Err(TypeError)
    case Some(start) =>
      var open :-
        if start > Threshold(st.flags) as real then
          var f :- ScoreBlock(st.block);
          Ok(State(st.flags + f, EmptyBlock))
        else Ok(st);
      match seg.end
      case None => Err(TypeError)
      case Some(end) =>
        var d := end - start;
        Ok(State(open.flags, Block(AddTime(open.block.entries, seg.speaker, d), open.block.total + d)))
  }

  /** The loop over the segments, from state `st`. */
  function Fold(segs: seq<Segment>, st: State): Result<State, Fault> {
    if segs == [] then Ok(st)
    else
      var next :- Step(st, segs[0]);
      Fold(segs[1..], next)
  }

  /** Number of dominated flags, `sum_of_blocks`. */
  function CountTrue(flags: seq<bool>): (n: nat)
    ensures n == multiset(flags)[true]
  {
    if flags == [] then 0
    else
      assert flags == [flags[0]] + flags[1..];
      (if flags[0] then 1 else 0) + CountTrue(flags[1..])
  }

  /** CALL when strictly more than half of the flags are dominated, else ABSTAIN. */
  function Decide(flags: seq<bool>): (v: Vote)
    ensures v != NotCall
    ensures v == Call <==> 2 * multiset(flags)[true] > |flags|
  {
    if |flags| > 0 && 2 * CountTrue(flags) > |flags| then Call else Abstain
  }

  /** The heuristic on the segments of a present transcription. */
  function Dominance(segs: seq<Segment>): Result<Vote, Fault> {
    var st :- Fold(segs, Initial);
    Ok(Decide(st.flags))
  }

  // ---- properties ----

  /** Folding a concatenation folds the second part from where the first ended. */
  lemma {:induction false} FoldAppend(a: seq<Segment>, b: seq<Segment>, st: State)
    ensures Fold(a + b, st) == match Fold(a, st) case Ok(m) => Fold(b, m) case Err(e) => Err(e)
  {
    if a == [] {
      assert a + b == b;
    } else {
      assert (a + b)[0] == a[0];
      assert (a + b)[1..] == a[1..] + b;
      match Step(st, a[0])
      case Ok(next) => FoldAppend(a[1..], b, next);
      case Err(_) =>
    }
  }

  /** Flags are only ever appended, and every block the fold holds is well formed. */
  lemma {:induction false} FoldInvariant(segs: seq<Segment>, st: State)
    requires WellFormed(st.block)
    ensures Fold(segs, st).Ok? ==> WellFormed(Fold(segs, st).value.block)
    ensures Fold(segs, st).Ok? ==> st.flags <= Fold(segs, st).value.flags
  {
    if segs != [] {
      match Step(st, segs[0])
      case Ok(next) =>
        FoldInvariant(segs[1..], next);
      case Err(_) =>
    }
  }

  /** Segments that start no later than the current threshold never close the open
      block, so the flags stay as they are. */
  lemma {:induction false} NoCloseKeepsFlags(tail: seq<Segment>, st: State)
    requires forall i :: 0 <= i < |tail| ==> tail[i].start.Some? && tail[i].end.Some?
    requires forall i :: 0 <= i < |tail| ==> tail[i].start.value <= Threshold(st.flags) as real
    ensures Fold(tail, st).Ok? && Fold(tail, st).value.flags == st.flags
  {
    if tail != [] {
      var next := Step(st, tail[0]).value;
      NoCloseKeepsFlags(tail[1..], next);
    }
  }

  /** Every segment has both times. */
  predicate Timed(segs: seq<Segment>) {
    forall i :: 0 <= i < |segs| ==> segs[i].start.Some? && segs[i].end.Some?
  }

  /** `seen` followed by the speakers of `segs` not seen before, in order of first
      appearance. */
  function Appearances(seen: seq<Speaker>, segs: seq<Segment>): seq<Speaker>
    decreases |segs|
  {
    if segs == [] then seen else Appearances(AddSpeaker(seen, segs[0].speaker), segs[1..])
  }

  /** The time the segments give speaker `t`. */
  function SpeakerTime(segs: seq<Segment>, t: Speaker): real
    requires Timed(segs)
  {
    if segs == [] then 0.0
    else (if segs[0].speaker == t then SegmentSecs(segs[0]) else 0.0) + SpeakerTime(segs[1..], t)
  }

  /** The time of all the segments. */
  function TotalTime(segs: seq<Segment>): real
    requires Timed(segs)
  {
    if segs == [] then 0.0 else SegmentSecs(segs[0]) + TotalTime(segs[1..])
  }

  /** While no segment closes it, the open block gains each segment's time under
      that segment's speaker, and its total gains the same. */
  lemma {:induction false} OpenBlockAccumulates(tail: seq<Segment>, st: State)
    requires Timed(tail)
    requires forall i :: 0 <= i < |tail| ==> tail[i].start.value <= Threshold(st.flags) as real
    ensures Fold(tail, st).Ok? && Fold(tail, st).value.flags == st.flags
    ensures forall t :: SecsOf(Fold(tail, st).value.block.entries, t) == SecsOf(st.block.entries, t) + SpeakerTime(tail, t)
    ensures Fold(tail, st).value.block.total == st.block.total + TotalTime(tail)
    ensures Speakers(Fold(tail, st).value.block.entries) == Appearances(Speakers(st.block.entries), tail)
  {
    if tail != [] {
      var next := Step(st, tail[0]).value;
      assert Reopened(st, tail[0].start.value) == st.block;
      OpenBlockAccumulates(tail[1..], next);
    }
  }

  /** The block a closing segment scores holds exactly the time of the segments
      since the block was opened, per speaker and in total. */
  lemma ScoredBlockAccumulates(tail: seq<Segment>, st: State, closer: Segment)
    requires Timed(tail)
    requires forall i :: 0 <= i < |tail| ==> tail[i].start.value <= Threshold(st.flags) as real
    requires closer.start.Some? && closer.start.value > Threshold(st.flags) as real
    requires Fold(tail + [closer], st).Ok?
    ensures Fold(tail, st).Ok?
    ensures var b := Fold(tail, st).value.block;
            && ScoreBlock(b).Ok?
            && Fold(tail + [closer], st).value.flags == st.flags + ScoreBlock(b).value
            && (forall t :: SecsOf(b.entries, t) == SecsOf(st.block.entries, t) + SpeakerTime(tail, t))
            && b.total == st.block.total + TotalTime(tail)
            && Speakers(b.entries) == Appearances(Speakers(st.block.entries), tail)
  {
    OpenBlockAccumulates(tail, st);
    FoldAppend(tail, [closer], st);
    assert [closer][1..] == [];
  }

  /** Every segment has both times and lasts a positive time. */
  predicate PositiveLengths(segs: seq<Segment>) {
    forall i :: 0 <= i < |segs| ==> segs[i].start.Some? && segs[i].end.Some? && segs[i].end.value > segs[i].start.value
  }

  /** A block with speakers has a positive total. */
  predicate Closable(b: Block) {
    b.total >= 0.0 && (b.entries != [] ==> b.total > 0.0)
  }

  /** Segments that all last a positive time are folded without an exception: no
      block they build has a zero total when it is closed. */
  lemma {:induction false} FoldSucceeds(segs: seq<Segment>, st: State)
    requires PositiveLengths(segs)
    requires Closable(st.block)
    ensures Fold(segs, st).Ok?
  {
    if segs != [] {
      var seg := segs[0];
      assert ScoreBlock(st.block).Ok?;
      var next := Step(st, seg).value;
      assert next.block.entries != [] by {
        assert seg.speaker in Speakers(next.block.entries);
      }
      assert Closable(next.block);
      assert PositiveLengths(segs[1..]) by {
        forall i | 0 <= i < |segs[1..]|
          ensures segs[1..][i].start.Some? && segs[1..][i].end.Some? && segs[1..][i].end.value > segs[1..][i].start.value
        {
          assert segs[1..][i] == segs[i + 1];
        }
      }
      FoldSucceeds(segs[1..], next);
    }
  }

  /** Two speakers holding 15 seconds each of a 30-second block are each other's
      partners: each adds a 1, and the `for ... else` adds the 0. */
  lemma EvenPairScores()
    ensures ScoreBlock(Block([Entry(1, 15.0), Entry(2, 15.0)], 30.0)) == Ok([true, true, false])
  {
    var es := [Entry(1, 15.0), Entry(2, 15.0)];
    assert InnerScan(es[0], es, 30.0) == Some(true) by {
      assert InnerScan(es[0], es[1..], 30.0) == Some(true);
    }
    assert InnerScan(es[1], es, 30.0) == Some(true);
    assert OuterScan(es, es, 30.0) == [true, true] by {
      assert OuterScan(es[1..], es, 30.0) == [true] + OuterScan(es[2..], es, 30.0);
    }
    assert OuterScan(es, es, 30.0) + [false] == [true, true, false];
    var b := Block(es, 30.0);
    assert b.entries != [] && b.total != 0.0;
    assert ScoreBlock(b) == Ok(OuterScan(b.entries, b.entries, b.total) + [false]);
  }

  /** The three steps of the example below, one at a time. */
  lemma ExampleFirst()
    ensures Step(Initial, Segment(1, Some(0.0), Some(15.0), "")) == Ok(State([], Block([Entry(1, 15.0)], 15.0)))
  {
    var seg := Segment(1, Some(0.0), Some(15.0), "");
    assert !(0.0 > Threshold(Initial.flags) as real);
    assert AddTime([], 1, 15.0 - 0.0) == [Entry(1, 15.0)];
  }

  lemma ExampleSecond()
    ensures Step(State([], Block([Entry(1, 15.0)], 15.0)), Segment(2, Some(15.0), Some(30.0), ""))
            == Ok(State([], Block([Entry(1, 15.0), Entry(2, 15.0)], 30.0)))
  {
    var es := [Entry(1, 15.0)];
    assert !(15.0 > Threshold([]) as real);
    assert AddTime(es[1..], 2, 30.0 - 15.0) == [Entry(2, 15.0)];
    assert AddTime(es, 2, 30.0 - 15.0) == [Entry(1, 15.0), Entry(2, 15.0)];
  }

  lemma ExampleClose()
    ensures Step(State([], Block([Entry(1, 15.0), Entry(2, 15.0)], 30.0)), Segment(3, Some(31.0), Some(32.0), ""))
            == Ok(State([true, true, false], Block([Entry(3, 1.0)], 1.0)))
  {
    var st := State([], Block([Entry(1, 15.0), Entry(2, 15.0)], 30.0));
    EvenPairScores();
    assert ScoreBlock(st.block) == Ok([true, true, false]);
    assert 31.0 > Threshold(st.flags) as real;
    assert st.flags + [true, true, false] == [true, true, false];
    assert AddTime(EmptyBlock.entries, 3, 32.0 - 31.0) == [Entry(3, 1.0)];
    assert EmptyBlock.total + (32.0 - 31.0) == 1.0;
  }

  /** Speakers 1 and 2 share the first 30 seconds and speaker 3 opens the next
      block: the flags are 1, 1 and the trailing 0, and the vote is CALL. */
  lemma TwoSpeakerBlockCalls()
    ensures Dominance([Segment(1, Some(0.0), Some(15.0), ""), Segment(2, Some(15.0), Some(30.0), ""),
                       Segment(3, Some(31.0), Some(32.0), "")]) == Ok(Call)
  {
    var a, b, c := Segment(1, Some(0.0), Some(15.0), ""), Segment(2, Some(15.0), Some(30.0), ""),
                   Segment(3, Some(31.0), Some(32.0), "");
    var s1 := State([], Block([Entry(1, 15.0)], 15.0));
    var s2 := State([], Block([Entry(1, 15.0), Entry(2, 15.0)], 30.0));
    var s3 := State([true, true, false], Block([Entry(3, 1.0)], 1.0));
    ExampleFirst();
    ExampleSecond();
    ExampleClose();
    assert [a, b, c][1..] == [b, c] && [b, c][1..] == [c];
    assert Fold([c], s2) == Ok(s3);
    assert Fold([b, c], s1) == Ok(s3);
    assert Fold([a, b, c], Initial) == Ok(s3);
    assert CountTrue(s3.flags) == 2;
  }

  /** The block still open after the last segment is never scored: segments that do not
      close a block do not change the vote. */
  lemma OpenBlockNeverScored(segs: seq<Segment>, tail: seq<Segment>, st: State)
    requires Fold(segs, Initial) == Ok(st)
    requires forall i :: 0 <= i < |tail| ==> tail[i].start.Some? && tail[i].end.Some?
    requires forall i :: 0 <= i < |tail| ==> tail[i].start.value <= Threshold(st.flags) as real
    ensures Dominance(segs + tail) == Dominance(segs)
  {
    FoldAppend(segs, tail, Initial);
    NoCloseKeepsFlags(tail, st);
  }

  /** A transcript that never leaves its first 30 seconds is never scored at all, so
      the heuristic abstains however the speakers share the time. */
  lemma SingleWindowAbstains(segs: seq<Segment>)
    requires forall i :: 0 <= i < |segs| ==> segs[i].start.Some? && segs[i].end.Some?
    requires forall i :: 0 <= i < |segs| ==> segs[i].start.value <= 30.0
    ensures Dominance(segs) == Ok(Abstain)
  {
    NoCloseKeepsFlags(segs, Initial);
  }

  /** When the speaker who appears first in a block alone exceeds the majority share,
      every inner loop breaks on it at once: the block adds only NOTCALL flags, one per
      speaker plus the final one. */
  lemma {:induction false} FirstSoloScan(outer: seq<Entry>, all: seq<Entry>, total: real)
    requires total != 0.0 && all != [] && all[0].secs / total > Majority
    ensures OuterScan(outer, all, total) == seq(|outer|, i => false)
  {
    if outer != [] {
      FirstSoloScan(outer[1..], all, total);
    }
  }

  lemma FirstSpeakerSoloNotDominated(b: Block)
    requires b.entries != [] && b.total != 0.0
    requires b.entries[0].secs / b.total > Majority
    ensures ScoreBlock(b) == Ok(seq(|b.entries| + 1, i => false))
  {
    FirstSoloScan(b.entries, b.entries, b.total);
    assert seq(|b.entries|, i => false) + [false] == seq(|b.entries| + 1, i => false);
  }

  /** Number of speakers in `outer` that have a partner in `all`. */
  function PartnerCount(outer: seq<Entry>, all: seq<Entry>, total: real): nat
    requires total != 0.0
  {
    if outer == [] then 0
    else
      (if exists j :: 0 <= j < |all| && Partners(outer[0], all[j], total) then 1 else 0)
      + PartnerCount(outer[1..], all, total)
  }

  /** With no speaker alone above the majority share, the inner loop breaks exactly
      when the outer speaker has a partner. */
  lemma {:induction false} InnerScanNoSolo(e: Entry, rest: seq<Entry>, total: real)
    requires total != 0.0
    requires forall j :: 0 <= j < |rest| ==> rest[j].secs / total <= Majority
    ensures InnerScan(e, rest, total)
         == if exists j :: 0 <= j < |rest| && Partners(e, rest[j], total) then Some(true) else None
  {
    if rest != [] && !Partners(e, rest[0], total) {
      InnerScanNoSolo(e, rest[1..], total);
      if exists j :: 0 <= j < |rest| && Partners(e, rest[j], total) {
        var j :| 0 <= j < |rest| && Partners(e, rest[j], total);
        assert Partners(e, rest[1..][j - 1], total);
      }
    }
  }

  lemma {:induction false} OuterScanNoSolo(outer: seq<Entry>, all: seq<Entry>, total: real)
    requires total != 0.0
    requires forall j :: 0 <= j < |all| ==> all[j].secs / total <= Majority
    ensures OuterScan(outer, all, total) == seq(PartnerCount(outer, all, total), i => true)
  {
    if outer != [] {
      InnerScanNoSolo(outer[0], all, total);
      OuterScanNoSolo(outer[1..], all, total);
    }
  }

  /** With no speaker alone above the majority share, a block adds one dominated flag
      per speaker that has a partner, then the final NOTCALL. */
  lemma NoSoloBlockFlags(b: Block)
    requires b.entries != [] && b.total != 0.0
    requires forall j :: 0 <= j < |b.entries| ==> b.entries[j].secs / b.total <= Majority
    ensures ScoreBlock(b) == Ok(seq(PartnerCount(b.entries, b.entries, b.total), i => true) + [false])
  {
    OuterScanNoSolo(b.entries, b.entries, b.total);
  }

  /** Speakers A (22 s), B (6 s) and C (2 s) share a 30-second block. When A speaks
      first the block is not dominated; when B speaks first, B's inner loop pairs B
      with A before reaching A alone, and the block adds a dominated flag. */
  lemma DominanceDependsOnOrder()
    ensures ScoreBlock(Block([Entry(1, 22.0), Entry(2, 6.0), Entry(3, 2.0)], 30.0))
         == Ok([false, false, false, false])
    ensures ScoreBlock(Block([Entry(2, 6.0), Entry(1, 22.0), Entry(3, 2.0)], 30.0))
         == Ok([false, true, false, false])
  {
    FirstSpeakerSoloNotDominated(Block([Entry(1, 22.0), Entry(2, 6.0), Entry(3, 2.0)], 30.0));
    assert seq(4, i => false) == [false, false, false, false];
    var es := [Entry(2, 6.0), Entry(1, 22.0), Entry(3, 2.0)];
    assert InnerScan(es[0], es, 30.0) == Some(false) by {
      assert InnerScan(es[0], es[1..], 30.0) == Some(false);
    }
    assert InnerScan(es[1], es, 30.0) == Some(true);
    assert InnerScan(es[2], es, 30.0) == Some(false) by {
      assert InnerScan(es[2], es[1..], 30.0) == Some(false);
    }
    assert OuterScan(es[3..], es, 30.0) == [];
    assert OuterScan(es[2..], es, 30.0) == [false];
    assert OuterScan(es[1..], es, 30.0) == [true, false];
    assert OuterScan(es, es, 30.0) == [false, true, false];
    assert ScoreBlock(Block(es, 30.0)) == Ok(OuterScan(es, es, 30.0) + [false]);
    assert [false, true, false] + [false] == [false, true, false, false];
  }

  /** Closing a block that holds speakers but no time raises a division error. */
  lemma ZeroLengthBlockRaises()
    ensures Dominance([Segment(1, Some(5.0), Some(5.0), "hi"), Segment(2, Some(40.0), Some(45.0), "hello")])
         == Err(ZeroDivision)
  {
  }
}
