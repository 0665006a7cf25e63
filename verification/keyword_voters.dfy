/** The metadata labelling functions: keyword tests on the lower-cased title,
    description and channel name, the view-count threshold and the disabled-comments
    marker. Each is a substring test, so a keyword also fires inside a longer word
    ("irs" inside "first"). */
module KeywordVoters {
  import opened Text
  import opened Records

  /** `kw in s.lower()`. */
  predicate Mentions(s: string, kw: string) {
    Contains(Lower(s), kw)
  }

  const SmallVideoViews: int := 20000

  const ScamCompanies: seq<string> := ["geek squad", "norton", "microsoft"]

  // ---- the `general` group ----

  function ScambaitInTitleOrDesc(x: Record): (v: Vote)
    ensures v != Abstain
    ensures v == Call <==> Mentions(x.title, "scambait") || Mentions(x.desc, "scambait")
  {
    if Mentions(x.title, "scambait") || Mentions(x.desc, "scambait") then Call else NotCall
  }

  function ScammerInTitleOrDesc(x: Record): (v: Vote)
    ensures v != NotCall
    ensures v == Call <==> Mentions(x.title, "scammer") || Mentions(x.desc, "scammer")
  {
    if Mentions(x.title, "scammer") || Mentions(x.desc, "scammer") then Call else Abstain
  }

  function SponsorInVideo(x: Record): (v: Vote)
    ensures v != Call
    ensures v == NotCall <==> Mentions(x.desc, "sponsor")
  {
    if Mentions(x.desc, "sponsor") then NotCall else Abstain
  }

  function SmallVideo(x: Record): (v: Vote)
    ensures v != NotCall
    ensures v == Call <==> x.views < 20000
  {
    if x.views < SmallVideoViews then Call else Abstain
  }

  function Hacking(x: Record): (v: Vote)
    ensures v != Call
    ensures v == NotCall <==> Mentions(x.desc, "hack")
  {
    if Mentions(x.desc, "hack") then NotCall else Abstain
  }

  function LiveStream(x: Record): (v: Vote)
    ensures v != Call
    ensures v == NotCall <==> Mentions(x.title, "live")
  {
    if Mentions(x.title, "live") then NotCall else Abstain
  }

  function CommentsDisabled(x: Record): (v: Vote)
    ensures v != Call
    ensures v == NotCall <==> x.comments != [] && x.comments[0] == CommentsDisabledMarker
    ensures x.comments == [] ==> v == Abstain
  {
    if |x.comments| > 0 && x.comments[0] == CommentsDisabledMarker then NotCall else Abstain
  }

  function NewsNotInChannel(x: Record): (v: Vote)
    ensures v != Call
    ensures v == NotCall <==> Mentions(x.channelName, "news")
  {
    if Mentions(x.channelName, "news") then NotCall else Abstain
  }

  /** The title is searched for "travel", the description only for "travelling". */
  function TravellingNotInTitleOrDesc(x: Record): (v: Vote)
    ensures v != Call
    ensures v == NotCall <==> Mentions(x.title, "travel") || Mentions(x.desc, "travelling")
  {
    if Mentions(x.title, "travel") || Mentions(x.desc, "travelling") then NotCall else Abstain
  }

  // ---- the `scam_types` group ----

  function RefundScam(x: Record): (v: Vote)
    ensures v != NotCall
    ensures v == Call <==> Mentions(x.title, "refund") || Mentions(x.desc, "refund")
  {
    if Mentions(x.desc, "refund") || Mentions(x.title, "refund") then Call else Abstain
  }

  function IrsScam(x: Record): (v: Vote)
    ensures v != NotCall
    ensures v == Call <==> Mentions(x.title, "irs") || Mentions(x.desc, "irs")
  {
    if Mentions(x.desc, "irs") || Mentions(x.title, "irs") then Call else Abstain
  }

  function CryptoScam(x: Record): (v: Vote)
    ensures v != Call
    ensures v == NotCall <==> Mentions(x.title, "crypto") || Mentions(x.desc, "crypto")
  {
    if Mentions(x.desc, "crypto") || Mentions(x.title, "crypto") then NotCall else Abstain
  }

  function NotAScheme(x: Record): (v: Vote)
    ensures v != Call
    ensures v == NotCall <==> Mentions(x.title, "scheme") || Mentions(x.desc, "scheme")
  {
    if Mentions(x.desc, "scheme") || Mentions(x.title, "scheme") then NotCall else Abstain
  }

  function TechSupport(x: Record): (v: Vote)
    ensures v != NotCall
    ensures v == Call <==> Mentions(x.title, "tech support") || Mentions(x.desc, "tech support")
  {
    if Mentions(x.desc, "tech support") || Mentions(x.title, "tech support") then Call else Abstain
  }

  function CommonScamCompanies(x: Record): (v: Vote)
    ensures v != NotCall
    ensures v == Call <==> (Mentions(x.title, "geek squad") || Mentions(x.desc, "geek squad")
                         || Mentions(x.title, "norton") || Mentions(x.desc, "norton")
                         || Mentions(x.title, "microsoft") || Mentions(x.desc, "microsoft"))
  {
    assert ScamCompanies[0] == "geek squad" && ScamCompanies[1] == "norton" && ScamCompanies[2] == "microsoft";
    if exists i :: 0 <= i < |ScamCompanies| && (Mentions(x.desc, ScamCompanies[i]) || Mentions(x.title, ScamCompanies[i]))
    then Call
    else Abstain
  }

  // ---- properties ----

  /** A mention survives any text written before or after it. */
  lemma {:induction false} MentionsWithin(pre: string, s: string, post: string, kw: string)
    requires Mentions(s, kw)
    ensures Mentions(pre + s + post, kw)
  {
    LowerAppend(pre + s, post);
    LowerAppend(pre, s);
    ContainsWithin(Lower(pre), Lower(s), Lower(post), kw);
  }

  /** Every keyword the title, description or channel name of `x` mentions, `y`'s
      mentions too. */
  ghost predicate MentionsGrow(x: Record, y: Record) {
    && (forall kw :: Mentions(x.title, kw) ==> Mentions(y.title, kw))
    && (forall kw :: Mentions(x.desc, kw) ==> Mentions(y.desc, kw))
    && (forall kw :: Mentions(x.channelName, kw) ==> Mentions(y.channelName, kw))
  }

  /** Writing more text around a title, a description and a channel name keeps every
      mention. */
  lemma {:induction false} MoreTextKeepsMentions(x: Record, pt: string, qt: string, pd: string, qd: string,
                                                 pc: string, qc: string)
    ensures MentionsGrow(x, x.(title := pt + x.title + qt, desc := pd + x.desc + qd,
                               channelName := pc + x.channelName + qc))
  {
    forall kw: string | Mentions(x.title, kw)
      ensures Mentions(pt + x.title + qt, kw)
    {
      MentionsWithin(pt, x.title, qt, kw);
    }
    forall kw: string | Mentions(x.desc, kw)
      ensures Mentions(pd + x.desc + qd, kw)
    {
      MentionsWithin(pd, x.desc, qd, kw);
    }
    forall kw: string | Mentions(x.channelName, kw)
      ensures Mentions(pc + x.channelName + qc, kw)
    {
      MentionsWithin(pc, x.channelName, qc, kw);
    }
  }

  /** A keyword hit of the `general` group is never withdrawn when the title and
      description only gain mentions: every title/description vote other than ABSTAIN stays, except
      `scambait_in_title_or_desc`'s NOTCALL, which is the absence of a hit. */
  lemma GeneralHitsPersist(x: Record, y: Record)
    requires MentionsGrow(x, y)
    ensures ScambaitInTitleOrDesc(x) == Call ==> ScambaitInTitleOrDesc(y) == Call
    ensures ScammerInTitleOrDesc(x) != Abstain ==> ScammerInTitleOrDesc(y) == ScammerInTitleOrDesc(x)
    ensures TravellingNotInTitleOrDesc(x) != Abstain ==> TravellingNotInTitleOrDesc(y) == TravellingNotInTitleOrDesc(x)
  {
    HitPersists(x, y, "scambait");
    HitPersists(x, y, "scammer");
    HitPersists(x, y, "travel");
    HitPersists(x, y, "travelling");
  }

  /** The same for the voters of the `general` group that read one field only. */
  lemma SingleFieldHitsPersist(x: Record, y: Record)
    requires MentionsGrow(x, y)
    ensures SponsorInVideo(x) != Abstain ==> SponsorInVideo(y) == SponsorInVideo(x)
    ensures Hacking(x) != Abstain ==> Hacking(y) == Hacking(x)
    ensures LiveStream(x) != Abstain ==> LiveStream(y) == LiveStream(x)
    ensures NewsNotInChannel(x) != Abstain ==> NewsNotInChannel(y) == NewsNotInChannel(x)
  {
    HitPersists(x, y, "sponsor");
    HitPersists(x, y, "hack");
    HitPersists(x, y, "live");
    HitPersists(x, y, "news");
  }

  /** The same for the `scam_types` group. */
  lemma ScamTypeHitsPersist(x: Record, y: Record)
    requires MentionsGrow(x, y)
    ensures RefundScam(x) != Abstain ==> RefundScam(y) == RefundScam(x)
    ensures IrsScam(x) != Abstain ==> IrsScam(y) == IrsScam(x)
    ensures CryptoScam(x) != Abstain ==> CryptoScam(y) == CryptoScam(x)
    ensures NotAScheme(x) != Abstain ==> NotAScheme(y) == NotAScheme(x)
    ensures TechSupport(x) != Abstain ==> TechSupport(y) == TechSupport(x)
  {
    HitPersists(x, y, "refund");
    HitPersists(x, y, "irs");
    HitPersists(x, y, "crypto");
    HitPersists(x, y, "scheme");
    HitPersists(x, y, "tech support");
  }

  /** `MentionsGrow` for one keyword: naming the keyword keeps each caller's proof
      from instantiating the quantifiers for every keyword at once. */
  lemma HitPersists(x: Record, y: Record, kw: string)
    requires MentionsGrow(x, y)
    ensures Mentions(x.title, kw) ==> Mentions(y.title, kw)
    ensures Mentions(x.desc, kw) ==> Mentions(y.desc, kw)
    ensures Mentions(x.channelName, kw) ==> Mentions(y.channelName, kw)
  {
  }

  /** The same for `common_scam_companies`, the last of the `scam_types` group. */
  lemma CompanyHitsPersist(x: Record, y: Record)
    requires MentionsGrow(x, y)
    ensures CommonScamCompanies(x) != Abstain ==> CommonScamCompanies(y) == CommonScamCompanies(x)
  {
    HitPersists(x, y, "geek squad");
    HitPersists(x, y, "norton");
    HitPersists(x, y, "microsoft");
  }

  /** The IRS voter fires on any title containing the letters "irs", such as "first". */
  lemma IrsInsideFirst(x: Record)
    requires x.title == "My first video"
    ensures IrsScam(x) == Call
  {
    assert Lower(x.title)[4..7] == "irs";
    assert OccursAt(Lower(x.title), "irs", 4);
    ContainsIff(Lower(x.title), "irs");
  }
}
