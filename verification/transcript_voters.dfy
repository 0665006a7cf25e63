/** The labelling functions that read the transcript. Each abstains when the
    transcription is the missing marker. */
module TranscriptVoters {
  import opened Wrappers
  import opened Text
  import opened Regex
  import opened Records
  import Dominance

  /** Number of whole-word greetings ("hello", "hi", "yo", "hey") in one segment. */
  function SegmentGreetings(text: string): (n: nat)
    ensures var t := Lower(text);
      n == |WordPositions(t, "hello", 0)| + |WordPositions(t, "hi", 0)|
         + |WordPositions(t, "yo", 0)| + |WordPositions(t, "hey", 0)|
  {
    var t := Lower(text);
    WordCount(t, "hello");
    WordCount(t, "hi");
    WordCount(t, "yo");
    WordCount(t, "hey");
    FindAllCount(Word("hello"), t) + FindAllCount(Word("hi"), t)
      + FindAllCount(Word("yo"), t) + FindAllCount(Word("hey"), t)
  }

  /** `greetings_count` summed over the segments. */
  function GreetingCount(segs: seq<Segment>): nat {
    if segs == [] then 0 else SegmentGreetings(segs[0].text) + GreetingCount(segs[1..])
  }

  function TwoHellos(x: Record): (v: Vote)
    ensures v != NotCall
    ensures x.transcription.Missing? ==> v == Abstain
    ensures v == Call <==> x.transcription.Present? && GreetingCount(x.transcription.segments) > 1
  {
    var count := if x.transcription.Present? then GreetingCount(x.transcription.segments) else 0;
    if count > 1 then Call else Abstain
  }

  /** A whole-word greeting at the start of a segment counts at least once. */
  lemma {:induction false} LeadingGreeting(text: string, w: string)
    requires w in ["hello", "hi", "yo", "hey"]
    requires |text| >= |w| && Lower(text)[..|w|] == w
    requires |text| == |w| || !IsWordChar(Lower(text)[|w|])
    ensures SegmentGreetings(text) >= 1
  {
    var t := Lower(text);
    assert t[0..|w|] == w;
    assert WordAt(t, w, 0);
    assert {0} <= WordPositions(t, w, 0);
    assert |{0}| <= |WordPositions(t, w, 0)| by {
      SubsetSize({0}, WordPositions(t, w, 0));
    }
  }

  lemma SubsetSize(a: set<int>, b: set<int>)
    requires a <= b
    ensures |a| <= |b|
  {
    assert b == a + (b - a);
  }

  /** A segment text that starts with a greeting followed by a space. */
  lemma {:induction false} GreetingThenSpace(text: string, w: string)
    requires w in ["hello", "hi", "yo", "hey"]
    requires HasNoUpper(text)
    requires |text| > |w| && text[..|w|] == w && text[|w|] == ' '
    ensures SegmentGreetings(text) >= 1
  {
    LowerOfLower(text);
    LeadingGreeting(text, w);
  }

  /** Transcript texts "hello there", "hi friend", "ok bye" hold two greetings: CALL. */
  lemma TwoGreetingsCall(x: Record)
    requires x.transcription.Present? && |x.transcription.segments| == 3
    requires x.transcription.segments[0].text == "hello there"
    requires x.transcription.segments[1].text == "hi friend"
    requires x.transcription.segments[2].text == "ok bye"
    ensures TwoHellos(x) == Call
  {
    var segs := x.transcription.segments;
    var a, b := segs[0].text, segs[1].text;
    assert HasNoUpper(a) && a[..5] == "hello" && a[5] == ' ';
    assert HasNoUpper(b) && b[..2] == "hi" && b[2] == ' ';
    GreetingThenSpace(a, "hello");
    GreetingThenSpace(b, "hi");
    assert GreetingCount(segs) >= SegmentGreetings(segs[0].text) + SegmentGreetings(segs[1].text) by {
      assert GreetingCount(segs) == SegmentGreetings(segs[0].text) + GreetingCount(segs[1..]);
      assert GreetingCount(segs[1..]) == SegmentGreetings(segs[1].text) + GreetingCount(segs[2..]);
    }
  }

  function ThanksForCalling(x: Record): (v: Vote)
    ensures v != NotCall
    ensures x.transcription.Missing? ==> v == Abstain
    ensures v == Call <==> x.transcription.Present? && Contains(Lower(x.transcription.block), "thank you for calling")
  {
    match x.transcription
    case Missing => Abstain
    case Present(_, block) => if Contains(Lower(block), "thank you for calling") then Call else Abstain
  }

  function OnlyTwoPeopleSpeaking(x: Record): (r: Result<Vote, Fault>)
    ensures x.transcription.Missing? ==> r == Ok(Abstain)
    ensures x.transcription.Present? ==> r == Dominance.Dominance(x.transcription.segments)
    ensures r.Ok? ==> r.value != NotCall
  {
    match x.transcription
    case Missing => Ok(Abstain)
    case Present(segs, _) => Dominance.Dominance(segs)
  }

  /** The distinct speakers of the segments. */
  function SpeakerSet(segs: seq<Segment>): (r: set<Speaker>)
    ensures forall s :: s in r <==> exists i :: 0 <= i < |segs| && segs[i].speaker == s
  {
    if segs == [] then {}
    else
      var rest := SpeakerSet(segs[1..]);
      assert forall s :: s in rest <==> exists i :: 1 <= i < |segs| && segs[i].speaker == s by {
        forall s | s in rest
          ensures exists i :: 1 <= i < |segs| && segs[i].speaker == s
        {
          var i :| 0 <= i < |segs[1..]| && segs[1..][i].speaker == s;
          assert segs[i + 1].speaker == s;
        }
        forall s | exists i :: 1 <= i < |segs| && segs[i].speaker == s
          ensures s in rest
        {
          var i :| 1 <= i < |segs| && segs[i].speaker == s;
          assert segs[1..][i - 1].speaker == s;
        }
      }
      {segs[0].speaker} + rest
  }

  function NumberOfSpeakers(x: Record): (v: Vote)
    ensures v != NotCall
    ensures x.transcription.Missing? ==> v == Abstain
    ensures v == Call <==> x.transcription.Present? && 2 <= |SpeakerSet(x.transcription.segments)| <= 3
  {
    match x.transcription
    case Missing => Abstain
    case Present(segs, _) =>
      var n := |SpeakerSet(segs)|;
      if n > 1 && n <= 3 then Call else Abstain
  }

  /** The positive and negative scores of a sentiment analyser. */
  datatype Polarity = Polarity(pos: real, neg: real)

  /** The analyser itself is not modelled: it is any function from text to scores. */
  function TranscriptSentiment(x: Record, scorer: string -> Polarity): (v: Vote)
    ensures v != NotCall
    ensures x.transcription.Missing? ==> v == Abstain
    ensures v == Call <==> x.transcription.Present? && scorer(x.transcription.block).pos > scorer(x.transcription.block).neg
  {
    match x.transcription
    case Missing => Abstain
    case Present(_, block) =>
      var p := scorer(block);
      if p.pos > p.neg then Call else Abstain
  }

  /** "anydesk" is searched in the lower-cased block, "any desk" in the block as is. */
  function AnydeskInTranscript(x: Record): (v: Vote)
    ensures v != NotCall
    ensures x.transcription.Missing? ==> v == Abstain
    ensures v == Call <==> (x.transcription.Present? &&
      (Contains(Lower(x.transcription.block), "anydesk") || Contains(x.transcription.block, "any desk")))
  {
    match x.transcription
    case Missing => Abstain
    case Present(_, block) =>
      if Contains(Lower(block), "anydesk") || Contains(block, "any desk") then Call else Abstain
  }

  /** A lower-cased phrase found in the block stays found when text is written
      around the block. */
  lemma {:induction false} LoweredHitPersists(block: string, pre: string, post: string, kw: string)
    requires Contains(Lower(block), kw)
    ensures Contains(Lower(pre + block + post), kw)
  {
    LowerAppend(pre + block, post);
    LowerAppend(pre, block);
    ContainsWithin(Lower(pre), Lower(block), Lower(post), kw);
  }

  /** The record with text written before and after its `transcription_block`. */
  function Surround(x: Record, pre: string, post: string): Record
    requires x.transcription.Present?
  {
    x.(transcription := Present(x.transcription.segments, pre + x.transcription.block + post))
  }

  /** The phrase voters that read `transcription_block` never withdraw a CALL when
      text is written before or after the block. */
  lemma ThanksHitPersists(x: Record, pre: string, post: string)
    requires x.transcription.Present? && ThanksForCalling(x) == Call
    ensures ThanksForCalling(Surround(x, pre, post)) == Call
  {
    LoweredHitPersists(x.transcription.block, pre, post, "thank you for calling");
  }

  lemma AnydeskHitPersists(x: Record, pre: string, post: string)
    requires x.transcription.Present? && AnydeskInTranscript(x) == Call
    ensures AnydeskInTranscript(Surround(x, pre, post)) == Call
  {
    var block := x.transcription.block;
    if Contains(Lower(block), "anydesk") {
      LoweredHitPersists(block, pre, post, "anydesk");
    } else {
      ContainsWithin(pre, block, post, "any desk");
    }
  }

  lemma SecureServerHitPersists(x: Record, pre: string, post: string)
    requires x.transcription.Present? && SecureServerInTranscript(x) == Call
    ensures SecureServerInTranscript(Surround(x, pre, post)) == Call
  {
    var block := x.transcription.block;
    SecureServerIsCaseInsensitive(x);
    LoweredHitPersists(block, pre, post, "secure server");
    SecureServerIsCaseInsensitive(Surround(x, pre, post));
  }

  /** "anydesk" written in any case votes CALL through the lower-cased test. */
  lemma RawAnydeskCalls(x: Record)
    requires x.transcription.Present? && Contains(x.transcription.block, "anydesk")
    ensures AnydeskInTranscript(x) == Call
  {
    ContainsLower(x.transcription.block, "anydesk");
  }

  function SecureServerInTranscript(x: Record): (v: Vote)
    ensures v != NotCall
    ensures x.transcription.Missing? ==> v == Abstain
  {
    match x.transcription
    case Missing => Abstain
    case Present(_, block) =>
      if Contains(Lower(block), "secure server") || Contains(block, "secure server") then Call else Abstain
  }

  /** The second test of `secure_server_in_transcript` (on the block as is) adds
      nothing: any occurrence in the block is also one in the lower-cased block. */
  lemma SecureServerIsCaseInsensitive(x: Record)
    requires x.transcription.Present?
    ensures SecureServerInTranscript(x) == Call <==> Contains(Lower(x.transcription.block), "secure server")
  {
    var block := x.transcription.block;
    if Contains(block, "secure server") {
      ContainsLower(block, "secure server");
    }
  }

  /** Unlike "anydesk", the spaced form is matched case-sensitively. */
  lemma CapitalisedAnyDeskAbstains(x: Record)
    requires x.transcription == Present([], "Any Desk")
    ensures AnydeskInTranscript(x) == Abstain
  {
    var b := "Any Desk";
    var l := Lower(b);
    assert l[0] == 'a' && l[3] == ' ' && l[1] == 'n';
    forall k | OccursAt(l, "anydesk", k)
      ensures false
    {
    }
    ContainsIff(l, "anydesk");
    forall k | OccursAt(b, "any desk", k)
      ensures false
    {
    }
    ContainsIff(b, "any desk");
  }

  const SecondPerson: Pattern := Alternation(["you", "your", "yours", "yourself", "yourselves"])

  const ThirdPerson: Pattern := Alternation(
    ["he", "him", "his", "she", "her", "hers", "they", "them", "their", "theirs",
     "himself", "herself", "themselves"])

  /** The pronoun counts of a lower-cased block, `len(re.findall(...))`. */
  function SecondPersonCount(block: string): nat {
    FindAllCount(SecondPerson, Lower(block))
  }

  function ThirdPersonCount(block: string): nat {
    FindAllCount(ThirdPerson, Lower(block))
  }

  /** NOTCALL when third-person pronouns make up more than 65% of all pronoun matches,
      compared exactly as 20 * third > 13 * (second + third). */
  function PronounUsage(x: Record): (v: Vote)
    ensures v != Call
    ensures x.transcription.Missing? ==> v == Abstain
    ensures (x.transcription.Present?
             && SecondPersonCount(x.transcription.block) == 0
             && ThirdPersonCount(x.transcription.block) == 0) ==> v == Abstain
    ensures v == NotCall <==> (x.transcription.Present? &&
      var s := SecondPersonCount(x.transcription.block);
      var t := ThirdPersonCount(x.transcription.block);
      t * 100 > 65 * (s + t))
  {
    match x.transcription
    case Missing => Abstain
    case Present(_, block) =>
      var s := SecondPersonCount(block);
      var t := ThirdPersonCount(block);
      if t == 0 && s == 0 then Abstain
      else if 20 * t > 13 * (s + t) then NotCall
      else Abstain
  }

  /** Both pronoun counts are zero exactly when no pronoun occurs anywhere in the
      lower-cased block, even inside another word. */
  lemma NoPronounsIff(block: string)
    ensures (SecondPersonCount(block) == 0 && ThirdPersonCount(block) == 0)
        <==> (NoAlternativeFrom(SecondPerson.alts, Lower(block), 0) && NoAlternativeFrom(ThirdPerson.alts, Lower(block), 0))
  {
    AlternationZero(SecondPerson.alts, Lower(block));
    AlternationZero(ThirdPerson.alts, Lower(block));
  }

  /** The third-person pattern is not anchored to words: "the" counts as "he". */
  lemma TheCountsAsHe()
    ensures ThirdPersonCount("the") == 1
  {
    var t := Lower("the");
    assert t == "the";
    var alts := ThirdPerson.alts;
    forall j | 0 <= j < |alts|
      ensures !OccursAt(t, alts[j], 0)
    {
      assert |alts[j]| > 3 || alts[j][0] != 't';
    }
    assert MatchLength(ThirdPerson, t, 0) == None;
    assert OccursAt(t, alts[0], 1);
    assert MatchLength(ThirdPerson, t, 1) == Some(2);
    assert MatchLength(ThirdPerson, t, 3) == None;
  }
}
