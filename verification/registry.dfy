/** The labelling-function registry: every voter by name, its group, and the three
    ordered groups `general`, `scam_types` and `transcript` that `get_lfs` exposes. */
module Registry {
  import opened Wrappers
  import opened Records
  import KV = KeywordVoters
  import TV = TranscriptVoters

  datatype Lf =
    // general
    | SponsorInVideo | SmallVideo | Hacking | LiveStream | CommentsDisabled
    | NewsNotInChannel | ScambaitInTitleOrDesc | TravellingNotInTitleOrDesc | ScammerInTitleOrDesc
    // scam types
    | RefundScam | IrsScam | CryptoScam | NotAScheme | CommonScamCompanies | TechSupport
    // transcript
    | TwoHellos | ThanksForCalling | OnlyTwoPeopleSpeaking | NumberOfSpeakers
    | TranscriptSentiment | AnydeskInTranscript | SecureServerInTranscript | PronounUsage

  /** The name each labelling function is registered under (its `name` attribute). */
  function Name(lf: Lf): string {
    match lf
    case SponsorInVideo => "sponsor_in_video"
    case SmallVideo => "small_video"
    case Hacking => "hacking"
    case LiveStream => "live_stream"
    case CommentsDisabled => "comments_disabled"
    case NewsNotInChannel => "news_not_in_channel"
    case ScambaitInTitleOrDesc => "scambait_in_title_or_desc"
    case TravellingNotInTitleOrDesc => "travelling_not_in_title_or_desc"
    case ScammerInTitleOrDesc => "scammer_in_title_or_desc"
    case RefundScam => "refund_scam"
    case IrsScam => "irs_scam"
    case CryptoScam => "crypto_scam"
    case NotAScheme => "not_a_scheme"
    case CommonScamCompanies => "common_scam_companies"
    case TechSupport => "tech_support"
    case TwoHellos => "two_hellos"
    case ThanksForCalling => "thanks_for_calling"
    case OnlyTwoPeopleSpeaking => "only_two_people_speaking"
    case NumberOfSpeakers => "number_of_speakers"
    case TranscriptSentiment => "transcript_sentiment"
    case AnydeskInTranscript => "anydesk_in_transcript"
    case SecureServerInTranscript => "secure_server_in_transcript"
    case PronounUsage => "pronoun_usage"
  }

  /** Applies one labelling function to one record. Only the speaker-dominance
      heuristic can raise. */
  function Apply(lf: Lf, x: Record, scorer: string -> TV.Polarity): Result<Vote, Fault> {
    match lf
    case SponsorInVideo => Ok(KV.SponsorInVideo(x))
    case SmallVideo => Ok(KV.SmallVideo(x))
    case Hacking => Ok(KV.Hacking(x))
    case LiveStream => Ok(KV.LiveStream(x))
    case CommentsDisabled => Ok(KV.CommentsDisabled(x))
    case NewsNotInChannel => Ok(KV.NewsNotInChannel(x))
    case ScambaitInTitleOrDesc => Ok(KV.ScambaitInTitleOrDesc(x))
    case TravellingNotInTitleOrDesc => Ok(KV.TravellingNotInTitleOrDesc(x))
    case ScammerInTitleOrDesc => Ok(KV.ScammerInTitleOrDesc(x))
    case RefundScam => Ok(KV.RefundScam(x))
    case IrsScam => Ok(KV.IrsScam(x))
    case CryptoScam => Ok(KV.CryptoScam(x))
    case NotAScheme => Ok(KV.NotAScheme(x))
    case CommonScamCompanies => Ok(KV.CommonScamCompanies(x))
    case TechSupport => Ok(KV.TechSupport(x))
    case TwoHellos => Ok(TV.TwoHellos(x))
    case ThanksForCalling => Ok(TV.ThanksForCalling(x))
    case OnlyTwoPeopleSpeaking => TV.OnlyTwoPeopleSpeaking(x)
    case NumberOfSpeakers => Ok(TV.NumberOfSpeakers(x))
    case TranscriptSentiment => Ok(TV.TranscriptSentiment(x, scorer))
    case AnydeskInTranscript => Ok(TV.AnydeskInTranscript(x))
    case SecureServerInTranscript => Ok(TV.SecureServerInTranscript(x))
    case PronounUsage => Ok(TV.PronounUsage(x))
  }

  const GeneralLfs: seq<Lf> :=
    [SponsorInVideo, SmallVideo, Hacking, LiveStream, CommentsDisabled, NewsNotInChannel,
     ScambaitInTitleOrDesc, TravellingNotInTitleOrDesc, ScammerInTitleOrDesc]

  const ScamTypeLfs: seq<Lf> :=
    [RefundScam, IrsScam, CryptoScam, NotAScheme, CommonScamCompanies, TechSupport]

  const TranscriptLfs: seq<Lf> :=
    [TwoHellos, ThanksForCalling, OnlyTwoPeopleSpeaking, TranscriptSentiment,
     AnydeskInTranscript, SecureServerInTranscript, PronounUsage]

  /** `get_lfs()`: the groups keyed by name, in the dictionary's insertion order. */
  function GetLfs(): seq<(string, seq<Lf>)> {
    [("general", GeneralLfs), ("scam_types", ScamTypeLfs), ("transcript", TranscriptLfs)]
  }

  /** `lf_array += lfs[key]` for every key in order. */
  function Flatten(groups: seq<(string, seq<Lf>)>): (r: seq<Lf>)
    ensures forall lf :: lf in r <==> exists g :: g in groups && lf in g.1
  {
    if groups == [] then [] else groups[0].1 + Flatten(groups[1..])
  }

  /** `get_lfs_array()`. */
  function GetLfsArray(): seq<Lf> {
    GeneralLfs + ScamTypeLfs + TranscriptLfs
  }

  /** The kind of evidence a labelling function reads, as its docstring describes it. */
  datatype Category = Metadata | ScamType | TranscriptEvidence

  function CategoryOf(lf: Lf): Category {
    if lf.SponsorInVideo? || lf.SmallVideo? || lf.Hacking? || lf.LiveStream? || lf.CommentsDisabled?
       || lf.NewsNotInChannel? || lf.ScambaitInTitleOrDesc? || lf.TravellingNotInTitleOrDesc?
       || lf.ScammerInTitleOrDesc?
    then Metadata
    else if lf.RefundScam? || lf.IrsScam? || lf.CryptoScam? || lf.NotAScheme?
       || lf.CommonScamCompanies? || lf.TechSupport?
    then ScamType
    else TranscriptEvidence
  }

  /** The one vote other than ABSTAIN a title/description/metadata voter can give. */
  function Polarity(lf: Lf): Vote {
    match lf
    case ScambaitInTitleOrDesc | ScammerInTitleOrDesc | SmallVideo => Call
    case RefundScam | IrsScam | CommonScamCompanies | TechSupport => Call
    case TwoHellos | ThanksForCalling | OnlyTwoPeopleSpeaking | NumberOfSpeakers => Call
    case TranscriptSentiment | AnydeskInTranscript | SecureServerInTranscript => Call
    case _ => NotCall
  }

  // ---- properties ----

  /** `get_lfs_array()` is the flattening of `get_lfs()`. */
  lemma ArrayIsFlattenedGroups()
    ensures Flatten(GetLfs()) == GetLfsArray()
    ensures |GetLfsArray()| == 22
  {
    var g := GetLfs();
    assert Flatten(g[2..]) == TranscriptLfs by {
      assert g[2..][1..] == [];
    }
    assert Flatten(g[1..]) == ScamTypeLfs + TranscriptLfs;
    assert GetLfsArray() == GeneralLfs + (ScamTypeLfs + TranscriptLfs);
  }

  /** No function is registered twice. */
  lemma ArrayHasNoDuplicates()
    ensures forall i, j :: 0 <= i < j < |GetLfsArray()| ==> GetLfsArray()[i] != GetLfsArray()[j]
  {
  }

  /** Each group holds exactly the functions of its category. `CategoryOf` is written
      from the docstrings' grouping, so the first two clauses only confirm that it
      lists the same functions as the `general` and `scam_types` lists; the content
      lies in the `number_of_speakers` clauses: it is a transcript voter, yet it is
      defined but registered nowhere. */
  lemma GroupsAreCategories(lf: Lf)
    ensures lf in GeneralLfs <==> CategoryOf(lf) == Metadata
    ensures lf in ScamTypeLfs <==> CategoryOf(lf) == ScamType
    ensures lf in TranscriptLfs <==> CategoryOf(lf) == TranscriptEvidence && lf != NumberOfSpeakers
    ensures lf in GetLfsArray() <==> lf != NumberOfSpeakers
  {
  }

  /** The length and first letter of each name, which already tell the names apart. */
  function NameKey(lf: Lf): (nat, char) {
    match lf
    case SponsorInVideo => (16, 's')
    case SmallVideo => (11, 's')
    case Hacking => (7, 'h')
    case LiveStream => (11, 'l')
    case CommentsDisabled => (17, 'c')
    case NewsNotInChannel => (19, 'n')
    case ScambaitInTitleOrDesc => (25, 's')
    case TravellingNotInTitleOrDesc => (31, 't')
    case ScammerInTitleOrDesc => (24, 's')
    case RefundScam => (11, 'r')
    case IrsScam => (8, 'i')
    case CryptoScam => (11, 'c')
    case NotAScheme => (12, 'n')
    case CommonScamCompanies => (21, 'c')
    case TechSupport => (12, 't')
    case TwoHellos => (10, 't')
    case ThanksForCalling => (18, 't')
    case OnlyTwoPeopleSpeaking => (24, 'o')
    case NumberOfSpeakers => (18, 'n')
    case TranscriptSentiment => (20, 't')
    case AnydeskInTranscript => (21, 'a')
    case SecureServerInTranscript => (27, 's')
    case PronounUsage => (13, 'p')
  }

  lemma NameKeyOfName(lf: Lf)
    ensures NameKey(lf) == (|Name(lf)|, Name(lf)[0])
  {
    match lf
    case SponsorInVideo =>
    case SmallVideo =>
    case Hacking =>
    case LiveStream =>
    case CommentsDisabled =>
    case NewsNotInChannel =>
    case ScambaitInTitleOrDesc =>
    case TravellingNotInTitleOrDesc =>
    case ScammerInTitleOrDesc =>
    case RefundScam =>
    case IrsScam =>
    case CryptoScam =>
    case NotAScheme =>
    case CommonScamCompanies =>
    case TechSupport =>
    case TwoHellos =>
    case ThanksForCalling =>
    case OnlyTwoPeopleSpeaking =>
    case NumberOfSpeakers =>
    case TranscriptSentiment =>
    case AnydeskInTranscript =>
    case SecureServerInTranscript =>
    case PronounUsage =>
  }

  /** Distinct functions carry distinct names, so excluding by name is excluding by
      function. */
  lemma NamesDistinct(a: Lf, b: Lf)
    ensures Name(a) == Name(b) <==> a == b
  {
    NameKeyOfName(a);
    NameKeyOfName(b);
  }

  /** Every transcript voter abstains on the missing marker, without raising. */
  lemma TranscriptVotersAbstainOnMissing(lf: Lf, x: Record, scorer: string -> TV.Polarity)
    requires CategoryOf(lf) == TranscriptEvidence
    requires x.transcription.Missing?
    ensures Apply(lf, x, scorer) == Ok(Abstain)
  {
  }

  /** Every title, description and metadata voter never raises and returns its one
      polarity or ABSTAIN, except `scambait_in_title_or_desc`, which never abstains
      and answers CALL or NOTCALL. */
  lemma MetadataVotersFixedPolarity(lf: Lf, x: Record, scorer: string -> TV.Polarity)
    requires CategoryOf(lf) != TranscriptEvidence
    ensures lf != ScambaitInTitleOrDesc ==> Apply(lf, x, scorer) in {Ok(Polarity(lf)), Ok(Abstain)}
    ensures lf == ScambaitInTitleOrDesc ==> Apply(lf, x, scorer) in {Ok(Call), Ok(NotCall)}
  {
    match lf
    case SponsorInVideo =>
    case SmallVideo =>
    case Hacking =>
    case LiveStream =>
    case CommentsDisabled =>
    case NewsNotInChannel =>
    case ScambaitInTitleOrDesc =>
    case TravellingNotInTitleOrDesc =>
    case ScammerInTitleOrDesc =>
    case RefundScam =>
    case IrsScam =>
    case CryptoScam =>
    case NotAScheme =>
    case CommonScamCompanies =>
    case TechSupport =>
    case TwoHellos =>
    case ThanksForCalling =>
    case OnlyTwoPeopleSpeaking =>
    case NumberOfSpeakers =>
    case TranscriptSentiment =>
    case AnydeskInTranscript =>
    case SecureServerInTranscript =>
    case PronounUsage =>
  }

  /** Every transcript voter returns its one polarity or ABSTAIN when it does not raise;
      `pronoun_usage` is the only one whose polarity is NOTCALL. */
  lemma TranscriptVotersFixedPolarity(lf: Lf, x: Record, scorer: string -> TV.Polarity)
    requires CategoryOf(lf) == TranscriptEvidence
    ensures Apply(lf, x, scorer).Ok? ==> Apply(lf, x, scorer).value in {Polarity(lf), Abstain}
    ensures Apply(lf, x, scorer).Err? ==> lf == OnlyTwoPeopleSpeaking
  {
  }

  /** Voters read only their own evidence: metadata voters ignore the transcript and
      transcript voters ignore everything else. */
  lemma VotersReadOnlyTheirEvidence(lf: Lf, x: Record, y: Record, scorer: string -> TV.Polarity)
    requires CategoryOf(lf) == TranscriptEvidence ==> x.transcription == y.transcription
    requires CategoryOf(lf) != TranscriptEvidence ==> x.(transcription := y.transcription) == y
    ensures Apply(lf, x, scorer) == Apply(lf, y, scorer)
  {
  }
}
