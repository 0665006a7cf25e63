/** The video record `construct_video_json` builds from a YouTube Data API
    response, and `construct_video_url`. The API is not called: the first
    `videos().list` item and the outcome of the comment-thread request are
    parameters, each response part an abstract map. */
module VideoJson {
  import opened Wrappers
  import opened Records
  import opened IsoDuration
  import KV = KeywordVoters

  const WatchPrefix: string := "https://www.youtube.com/watch?v="

  /** `construct_video_url`. */
  function ConstructVideoUrl(id: string): (url: string)
    ensures |url| == |WatchPrefix| + |id|
    ensures url[..|WatchPrefix|] == WatchPrefix && url[|WatchPrefix|..] == id
  {
    WatchPrefix + id
  }

  /** The id a watch URL carries, if it is one. */
  function VideoIdOfUrl(url: string): (r: Option<string>)
    ensures r.Some? <==> |WatchPrefix| <= |url| && url[..|WatchPrefix|] == WatchPrefix
  {
    if |WatchPrefix| <= |url| && url[..|WatchPrefix|] == WatchPrefix then Some(url[|WatchPrefix|..]) else None
  }

  lemma UrlRoundTrip(id: string)
    ensures VideoIdOfUrl(ConstructVideoUrl(id)) == Some(id)
  {
  }

  /** Distinct videos get distinct URLs. */
  lemma UrlInjective(a: string, b: string)
    requires ConstructVideoUrl(a) == ConstructVideoUrl(b)
    ensures a == b
  {
    UrlRoundTrip(a);
    UrlRoundTrip(b);
  }

  /** A value stored in the record: a snippet field is copied as it is. */
  datatype Value = Text(s: string) | Texts(items: seq<string>) | Number(n: int)

  /** The three requested parts of a `videos().list` item. */
  datatype Response = Response(snippet: map<string, Value>, contentDetails: map<string, string>, statistics: map<string, string>)

  /** How the comment-thread request ended: the top-level comment texts, or an
      HTTP error with the reason of its first error detail. */
  datatype CommentsFetch = Fetched(texts: seq<string>) | HttpFailure(reason: string)

  /** The exceptions `construct_video_json` lets escape. */
  datatype YtError = HttpError(reason: string) | KeyError(key: string) | ValueError(text: string)

  /** The record's keys, in insertion order. */
  datatype Key = VideoId | Url | Title | Desc | ChannelName | ChannelId | DurationKey
               | Views | Likes | CommentsCount | Comments | Tags | DatePublished

  function KeyName(k: Key): string {
    match k
    case VideoId => "video_id"
    case Url => "url"
    case Title => "title"
    case Desc => "desc"
    case ChannelName => "channel_name"
    case ChannelId => "channel_id"
    case DurationKey => "duration"
    case Views => "views"
    case Likes => "likes"
    case CommentsCount => "comments_count"
    case Comments => "comments"
    case Tags => "tags"
    case DatePublished => "date_published"
  }

  /** No two keys share a name, so the record is a well-formed dictionary. */
  lemma KeyNamesDistinct(a: Key, b: Key)
    ensures KeyName(a) == KeyName(b) <==> a == b
  {
    if a != b {
      assert |KeyName(a)| != |KeyName(b)| || KeyName(a)[0] != KeyName(b)[0];
    }
  }

  /** `int(text)` for plain decimal text. */
  function ParseInt(t: string): (r: Option<nat>)
    ensures r.Some? <==> t != [] && forall k :: 0 <= k < |t| ==> IsDigit(t[k])
  {
    if t != [] && forall k :: 0 <= k < |t| ==> IsDigit(t[k]) then Some(DecimalValue(t)) else None
  }

  lemma ParseIntOfDecimal(n: nat)
    ensures ParseInt(NatToDecimal(n)) == Some(n)
  {
    DecimalRoundTrip(n);
  }

  /** One assignment of the fill, as it turns out: a key stored, a key skipped,
      a `KeyError` (caught: the fill stops there) or a `ValueError` (escapes). */
  datatype Step = Put(key: Key, value: Value) | Skip | Stop | Raise(text: string)

  type Dict = seq<(Key, Value)>

  /** The keys the fill stored. */
  predicate HasKey(d: Dict, k: Key) {
    exists i :: 0 <= i < |d| && d[i].0 == k
  }

  /** Where the fill halts: the first `Stop` or `Raise`, or the end of the steps. */
  function Halt(steps: seq<Step>): (n: nat)
    ensures n <= |steps| && Reached(steps, n)
    ensures n < |steps| ==> steps[n].Stop? || steps[n].Raise?
  {
    if steps == [] || steps[0].Stop? || steps[0].Raise? then 0
    else
      var m := Halt(steps[1..]);
      assert forall i :: 1 <= i < 1 + m && i < |steps| ==> steps[i] == steps[1..][i - 1];
      1 + m
  }

  /** The steps run in order until the first `Stop` (the caught `KeyError`),
      keeping every `Put`. */
  function Fill(steps: seq<Step>): (r: Result<Dict, YtError>)
    ensures r.Ok? ==> forall i :: 0 <= i < |r.value| ==> Put(r.value[i].0, r.value[i].1) in steps
    ensures r.Err? <==> Halt(steps) < |steps| && steps[Halt(steps)].Raise?
    ensures r.Err? ==> Halt(steps) < |steps| && steps[Halt(steps)].Raise? && r.error == ValueError(steps[Halt(steps)].text)
  {
    if steps == [] then Ok([])
    else match steps[0]
      case Stop => Ok([])
      case Raise(t) => Err(ValueError(t))
      case Skip => Fill(steps[1..])
      case Put(k, v) =>
        var rest :- Fill(steps[1..]);
        Ok([(k, v)] + rest)
  }

  /** The first two steps always store. */
  lemma LeadingPutsStored(steps: seq<Step>)
    requires |steps| >= 2 && steps[0].Put? && steps[1].Put? && Fill(steps).Ok?
    ensures |Fill(steps).value| >= 2
    ensures Fill(steps).value[0] == (steps[0].key, steps[0].value)
    ensures Fill(steps).value[1] == (steps[1].key, steps[1].value)
  {
    assert steps[1..][0] == steps[1];
    assert Fill(steps[1..]).Ok?;
  }

  /** No step before `j` stops the fill. */
  predicate Reached(steps: seq<Step>, j: int) {
    forall i :: 0 <= i < j && i < |steps| ==> !steps[i].Stop? && !steps[i].Raise?
  }

  /** The fill raises exactly when a `ValueError` is reached before any `KeyError`. */
  lemma FillRaisesIff(steps: seq<Step>)
    ensures Fill(steps).Err? <==> exists j :: 0 <= j < |steps| && steps[j].Raise? && Reached(steps, j)
  {
    var h := Halt(steps);
    forall j | 0 <= j < |steps| && steps[j].Raise? && Reached(steps, j)
      ensures h == j
    {
    }
    if Fill(steps).Err? {
      assert steps[h].Raise? && Reached(steps, h);
    }
  }

  /** A step that neither stops nor raises lets the fill reach the next one. */
  lemma ReachedNext(steps: seq<Step>, j: nat)
    requires j < |steps| && Reached(steps, j) && !steps[j].Stop? && !steps[j].Raise?
    ensures Reached(steps, j + 1)
  {
  }

  /** The `Put` right after a reached `Put` is stored too. */
  lemma NextPutStored(steps: seq<Step>, j: nat)
    requires j + 1 < |steps| && steps[j].Put? && steps[j + 1].Put? && Reached(steps, j)
    requires Fill(steps).Ok?
    ensures (steps[j + 1].key, steps[j + 1].value) in Fill(steps).value
  {
    ReachedNext(steps, j);
    ReachedPutStored(steps, j + 1);
  }


  lemma {:induction false} ReachedPutStored(steps: seq<Step>, j: nat)
    requires j < |steps| && steps[j].Put? && Reached(steps, j)
    requires Fill(steps).Ok?
    ensures (steps[j].key, steps[j].value) in Fill(steps).value
  {
    if j > 0 {
      assert Reached(steps[1..], j - 1);
      ReachedPutStored(steps[1..], j - 1);
    }
  }

  /** A stored key was put by a step the fill reached. */
  lemma {:induction false} StoredWasReached(steps: seq<Step>, p: (Key, Value))
    requires Fill(steps).Ok? && p in Fill(steps).value
    ensures exists j :: 0 <= j < |steps| && steps[j] == Put(p.0, p.1) && Reached(steps, j)
  {
    if steps[0].Put? && p == (steps[0].key, steps[0].value) {
      assert Reached(steps, 0);
    } else {
      StoredWasReached(steps[1..], p);
      var j :| 0 <= j < |steps[1..]| && steps[1..][j] == Put(p.0, p.1) && Reached(steps[1..], j);
      assert steps[j + 1] == Put(p.0, p.1);
    }
  }

  /** `response['part'][key]` stored under `k`. */
  function Copy(m: map<string, Value>, key: string, k: Key): Step {
    if key in m then Put(k, m[key]) else Stop
  }

  /** `int(response['statistics'][key])` stored under `k`. */
  function Parsed(m: map<string, string>, key: string, k: Key): Step {
    if key !in m then Stop
    else match ParseInt(m[key])
      case None => Raise(m[key])
      case Some(n) => Put(k, Number(n))
  }

  /** The assignment of lines 266-286 that stores `k`. */
  function StepFor(k: Key, id: string, resp: Response, duration: int, comments: seq<string>, disabled: bool): (r: Step)
    ensures r.Put? ==> r.key == k
  {
    var sn, st := resp.snippet, resp.statistics;
    match k
    case VideoId => Put(VideoId, Text(id))
    case Url => Put(Url, Text(ConstructVideoUrl(id)))
    case Title => Copy(sn, "title", Title)
    case Desc => Copy(sn, "description", Desc)
    case ChannelName => Copy(sn, "channelTitle", ChannelName)
    case ChannelId => Copy(sn, "channelId", ChannelId)
    case DurationKey => Put(DurationKey, Number(duration))
    case Views => Parsed(st, "viewCount", Views)
    case Likes => if "likeCount" in st then Parsed(st, "likeCount", Likes) else Put(Likes, Number(-1))
    case CommentsCount => if !disabled then Parsed(st, "commentCount", CommentsCount) else Put(CommentsCount, Number(-1))
    case Comments => Put(Comments, Texts(comments))
    case Tags => if "tags" in sn then Put(Tags, sn["tags"]) else Skip
    case DatePublished => Copy(sn, "publishedAt", DatePublished)
  }

  /** The key each step stores, in the order of the source's assignments. */
  const KeyOrder: seq<Key> := [VideoId, Url, Title, Desc, ChannelName, ChannelId, DurationKey,
                               Views, Likes, CommentsCount, Comments, Tags, DatePublished]

  /** The assignments, in order. */
  function Steps(id: string, resp: Response, duration: int, comments: seq<string>, disabled: bool): (r: seq<Step>)
    ensures |r| == |KeyOrder|
    ensures forall j :: 0 <= j < |KeyOrder| ==> r[j] == StepFor(KeyOrder[j], id, resp, duration, comments, disabled)
  {
    seq(|KeyOrder|, j requires 0 <= j < |KeyOrder| => StepFor(KeyOrder[j], id, resp, duration, comments, disabled))
  }

  /** The position of `k` among the source's assignments. */
  function Rank(k: Key): (n: nat)
    ensures n < |KeyOrder| && KeyOrder[n] == k
  {
    match k
    case VideoId => 0
    case Url => 1
    case Title => 2
    case Desc => 3
    case ChannelName => 4
    case ChannelId => 5
    case DurationKey => 6
    case Views => 7
    case Likes => 8
    case CommentsCount => 9
    case Comments => 10
    case Tags => 11
    case DatePublished => 12
  }

  /** Each key is assigned once, so its position is unique. */
  lemma RankUnique(j: nat)
    requires j < |KeyOrder|
    ensures Rank(KeyOrder[j]) == j
  {
  }

  /** The step that stored the `q`-th pair. */
  lemma {:induction false} StoredAt(steps: seq<Step>, q: nat) returns (j: nat)
    requires Fill(steps).Ok? && q < |Fill(steps).value|
    ensures j < |steps| && steps[j] == Put(Fill(steps).value[q].0, Fill(steps).value[q].1)
  {
    match steps[0]
    case Skip =>
      var j' := StoredAt(steps[1..], q);
      j := j' + 1;
    case Put(k, v) =>
      if q == 0 {
        j := 0;
      } else {
        var j' := StoredAt(steps[1..], q - 1);
        j := j' + 1;
      }
  }

  /** The fill stores pairs in the order of the steps that put them. */
  lemma {:induction false} StoredInStepOrder(steps: seq<Step>, p: nat, q: nat) returns (jp: nat, jq: nat)
    requires Fill(steps).Ok? && p < q < |Fill(steps).value|
    ensures jp < jq < |steps|
    ensures steps[jp] == Put(Fill(steps).value[p].0, Fill(steps).value[p].1)
    ensures steps[jq] == Put(Fill(steps).value[q].0, Fill(steps).value[q].1)
  {
    match steps[0]
    case Skip =>
      var a, b := StoredInStepOrder(steps[1..], p, q);
      jp, jq := a + 1, b + 1;
    case Put(k, v) =>
      if p == 0 {
        var b := StoredAt(steps[1..], q - 1);
        jp, jq := 0, b + 1;
      } else {
        var a, b := StoredInStepOrder(steps[1..], p - 1, q - 1);
        jp, jq := a + 1, b + 1;
      }
  }

  /** `construct_video_json`: `None` when the video list is empty; the comment
      request's HTTP error re-raised unless it is `commentsDisabled`; a missing
      `duration` escapes as a `KeyError`; otherwise the fill of `Steps`. */
  function ConstructVideoJson(id: string, items: seq<Response>, fetch: CommentsFetch): (r: Result<Option<Dict>, YtError>)
    ensures items == [] ==> r == Ok(None)
    ensures items != [] && fetch.HttpFailure? && fetch.reason != "commentsDisabled" ==> r == Err(HttpError(fetch.reason))
    ensures r.Ok? && r.value.Some? ==> |r.value.value| >= 2
    ensures r.Ok? && r.value.Some? ==> r.value.value[0] == (VideoId, Text(id)) && r.value.value[1] == (Url, Text(ConstructVideoUrl(id)))
    ensures r.Ok? ==> (r.value.Some? <==> items != [])
    ensures items != [] && CommentsOf(fetch).Ok? && "duration" !in items[0].contentDetails ==> r == Err(KeyError("duration"))
    ensures items != [] && CommentsOf(fetch).Ok? && "duration" in items[0].contentDetails ==>
      var steps := Steps(id, items[0], Duration(items[0].contentDetails["duration"]), CommentsOf(fetch).value.0, CommentsOf(fetch).value.1);
      (r.Ok? <==> Fill(steps).Ok?) && (r.Ok? ==> r.value == Some(Fill(steps).value))
  {
    if items == [] then Ok(None)
    else
      var resp := items[0];
      var (comments, disabled) :- CommentsOf(fetch);
      if "duration" !in resp.contentDetails then Err(KeyError("duration"))
      else
        var steps := Steps(id, resp, Duration(resp.contentDetails["duration"]), comments, disabled);
        var d :- Fill(steps);
        LeadingPutsStored(steps);
        Ok(Some(d))
  }

  function CommentsOf(fetch: CommentsFetch): (r: Result<(seq<string>, bool), YtError>)
    ensures r.Ok? && r.value.1 ==> r.value.0 == [CommentsDisabledMarker]
    ensures fetch.Fetched? ==> r == Ok((fetch.texts, false))
    ensures fetch.HttpFailure? ==> (r.Ok? <==> fetch.reason == "commentsDisabled")
    ensures fetch.HttpFailure? && fetch.reason == "commentsDisabled" ==> r == Ok(([CommentsDisabledMarker], true))
    ensures r.Err? ==> r.error == HttpError(fetch.reason)
  {
    match fetch
    case Fetched(texts) => Ok((texts, false))
    case HttpFailure(reason) =>
      if reason == "commentsDisabled" then Ok(([CommentsDisabledMarker], true)) else Err(HttpError(reason))
  }

  /** The step that stored a pair, and where it stands. */
  lemma StoredStep(id: string, resp: Response, duration: int, comments: seq<string>, disabled: bool, d: Dict, p: (Key, Value))
    returns (j: nat)
    requires Fill(Steps(id, resp, duration, comments, disabled)) == Ok(d) && p in d
    ensures j < |KeyOrder| && KeyOrder[j] == p.0
    ensures StepFor(p.0, id, resp, duration, comments, disabled) == Put(p.0, p.1)
    ensures Reached(Steps(id, resp, duration, comments, disabled), j)
  {
    var steps := Steps(id, resp, duration, comments, disabled);
    StoredWasReached(steps, p);
    j :| 0 <= j < |steps| && steps[j] == Put(p.0, p.1) && Reached(steps, j);
  }

  /** The inputs of the fill of a built record. */
  lemma BuiltByFill(id: string, items: seq<Response>, fetch: CommentsFetch, d: Dict)
    returns (resp: Response, duration: int, comments: seq<string>, disabled: bool)
    requires ConstructVideoJson(id, items, fetch) == Ok(Some(d))
    ensures items != [] && resp == items[0] && "duration" in resp.contentDetails
    ensures duration == Duration(resp.contentDetails["duration"])
    ensures CommentsOf(fetch) == Ok((comments, disabled))
    ensures Fill(Steps(id, resp, duration, comments, disabled)) == Ok(d)
  {
    resp := items[0];
    duration := Duration(resp.contentDetails["duration"]);
    comments, disabled := CommentsOf(fetch).value.0, CommentsOf(fetch).value.1;
  }

  /** The stored duration is the parse of `contentDetails.duration`: -1 when it
      has no `PT`. */
  lemma DurationField(id: string, items: seq<Response>, fetch: CommentsFetch, d: Dict, v: Value)
    requires ConstructVideoJson(id, items, fetch) == Ok(Some(d)) && (DurationKey, v) in d
    ensures "duration" in items[0].contentDetails
    ensures v == Number(Duration(items[0].contentDetails["duration"]))
  {
    var resp, duration, comments, disabled := BuiltByFill(id, items, fetch, d);
    var j := StoredStep(id, resp, duration, comments, disabled, d, (DurationKey, v));
  }

  /** `likes` is -1 when `likeCount` is absent and its parsed value otherwise. */
  lemma LikesField(id: string, items: seq<Response>, fetch: CommentsFetch, d: Dict, v: Value)
    requires ConstructVideoJson(id, items, fetch) == Ok(Some(d)) && (Likes, v) in d
    ensures var st := items[0].statistics;
      ("likeCount" !in st ==> v == Number(-1)) &&
      ("likeCount" in st ==> ParseInt(st["likeCount"]).Some? && v == Number(ParseInt(st["likeCount"]).value))
  {
    var resp, duration, comments, disabled := BuiltByFill(id, items, fetch, d);
    var j := StoredStep(id, resp, duration, comments, disabled, d, (Likes, v));
  }

  /** With comments disabled the only stored comment is the marker; otherwise
      the stored comments are those fetched. */
  lemma CommentsField(id: string, items: seq<Response>, fetch: CommentsFetch, d: Dict, v: Value)
    requires ConstructVideoJson(id, items, fetch) == Ok(Some(d)) && (Comments, v) in d
    ensures fetch == HttpFailure("commentsDisabled") ==> v == Texts([CommentsDisabledMarker])
    ensures fetch.Fetched? ==> v == Texts(fetch.texts)
  {
    var resp, duration, comments, disabled := BuiltByFill(id, items, fetch, d);
    var j := StoredStep(id, resp, duration, comments, disabled, d, (Comments, v));
  }

  /** With comments disabled the stored count is -1; otherwise it is the parsed
      `commentCount`. */
  lemma CommentsCountField(id: string, items: seq<Response>, fetch: CommentsFetch, d: Dict, c: Value)
    requires ConstructVideoJson(id, items, fetch) == Ok(Some(d)) && (CommentsCount, c) in d
    ensures fetch == HttpFailure("commentsDisabled") ==> c == Number(-1)
    ensures fetch.Fetched? ==> var st := items[0].statistics;
      "commentCount" in st && ParseInt(st["commentCount"]).Some? && c == Number(ParseInt(st["commentCount"]).value)
  {
    var resp, duration, comments, disabled := BuiltByFill(id, items, fetch, d);
    var j := StoredStep(id, resp, duration, comments, disabled, d, (CommentsCount, c));
  }

  /** The comments step is the eleventh and does not stop the fill, so a fill
      that stored the comments reaches the tags step. */
  lemma TagsStoredAfterComments(id: string, resp: Response, duration: int, comments: seq<string>, disabled: bool, d: Dict)
    requires Fill(Steps(id, resp, duration, comments, disabled)) == Ok(d) && HasKey(d, Comments)
    requires "tags" in resp.snippet
    ensures (Tags, resp.snippet["tags"]) in d
  {
    var steps := Steps(id, resp, duration, comments, disabled);
    assert KeyOrder[10] == Comments && KeyOrder[11] == Tags;
    assert steps[11] == Put(Tags, resp.snippet["tags"]);
    PutAfterStoredKey(steps, d, 10);
  }

  /** Step `j` puts the key at position `j` of the source's assignments, if it puts any. */
  predicate KeyedByOrder(steps: seq<Step>) {
    |steps| == |KeyOrder| && forall j :: 0 <= j < |steps| && steps[j].Put? ==> steps[j].key == KeyOrder[j]
  }

  /** Once the key of step `j` is stored, a `Put` right after it is stored too. */
  lemma PutAfterStoredKey(steps: seq<Step>, d: Dict, j: nat)
    requires KeyedByOrder(steps) && Fill(steps) == Ok(d)
    requires j + 1 < |steps| && HasKey(d, KeyOrder[j]) && steps[j + 1].Put?
    ensures (steps[j + 1].key, steps[j + 1].value) in d
  {
    var i :| 0 <= i < |d| && d[i].0 == KeyOrder[j];
    StoredWasReached(steps, d[i]);
    var m :| 0 <= m < |steps| && steps[m] == Put(d[i].0, d[i].1) && Reached(steps, m);
    RankUnique(m);
    RankUnique(j);
    NextPutStored(steps, j);
  }

  /** Only the tags step stores `Tags`, and it does so only when the snippet has tags. */
  lemma TagsOnlyFromSnippet(id: string, resp: Response, duration: int, comments: seq<string>, disabled: bool, d: Dict, v: Value)
    requires Fill(Steps(id, resp, duration, comments, disabled)) == Ok(d) && (Tags, v) in d
    ensures "tags" in resp.snippet && v == resp.snippet["tags"]
  {
    var j := StoredStep(id, resp, duration, comments, disabled, d, (Tags, v));
  }

  lemma TagsOfSteps(id: string, resp: Response, duration: int, comments: seq<string>, disabled: bool, d: Dict)
    requires Fill(Steps(id, resp, duration, comments, disabled)) == Ok(d) && HasKey(d, Comments)
    ensures HasKey(d, Tags) <==> "tags" in resp.snippet
    ensures "tags" in resp.snippet ==> (Tags, resp.snippet["tags"]) in d
  {
    if "tags" in resp.snippet {
      TagsStoredAfterComments(id, resp, duration, comments, disabled, d);
      assert d[IndexIn(d, (Tags, resp.snippet["tags"]))].0 == Tags;
    }
    if HasKey(d, Tags) {
      var t :| 0 <= t < |d| && d[t].0 == Tags;
      TagsOnlyFromSnippet(id, resp, duration, comments, disabled, d, d[t].1);
    }
  }

  /** The built record keeps Python's dict insertion order: its keys appear in the
      order of the source's assignments, each at most once. */
  lemma KeysInInsertionOrder(id: string, items: seq<Response>, fetch: CommentsFetch, d: Dict)
    requires ConstructVideoJson(id, items, fetch) == Ok(Some(d))
    ensures forall p, q :: 0 <= p < q < |d| ==> Rank(d[p].0) < Rank(d[q].0)
    ensures forall p, q :: 0 <= p < q < |d| ==> d[p].0 != d[q].0
  {
    var resp, duration, comments, disabled := BuiltByFill(id, items, fetch, d);
    var steps := Steps(id, resp, duration, comments, disabled);
    forall p, q | 0 <= p < q < |d|
      ensures Rank(d[p].0) < Rank(d[q].0)
    {
      var jp, jq := StoredInStepOrder(steps, p, q);
      RankUnique(jp);
      RankUnique(jq);
    }
  }

  function IndexIn(d: Dict, p: (Key, Value)): (i: nat)
    requires p in d
    ensures i < |d| && d[i] == p
  {
    if d[0] == p then 0 else 1 + IndexIn(d[1..], p)
  }

  /** Once the fill has stored the comments, `tags` is present exactly when the
      snippet has tags, and then holds them. */
  lemma TagsField(id: string, items: seq<Response>, fetch: CommentsFetch, d: Dict)
    requires ConstructVideoJson(id, items, fetch) == Ok(Some(d)) && HasKey(d, Comments)
    ensures HasKey(d, Tags) <==> "tags" in items[0].snippet
    ensures "tags" in items[0].snippet ==> (Tags, items[0].snippet["tags"]) in d
  {
    var resp, duration, comments, disabled := BuiltByFill(id, items, fetch, d);
    TagsOfSteps(id, resp, duration, comments, disabled, d);
  }

  /** A video whose comments were disabled is voted NotCall by the
      `comments_disabled` labelling function once its stored comments reach
      the record. */
  lemma DisabledCommentsVoteNotCall(id: string, items: seq<Response>, d: Dict, x: Record)
    requires ConstructVideoJson(id, items, HttpFailure("commentsDisabled")) == Ok(Some(d))
    requires (Comments, Texts(x.comments)) in d
    ensures KV.CommentsDisabled(x) == NotCall
  {
    CommentsField(id, items, HttpFailure("commentsDisabled"), d, Texts(x.comments));
  }

  /** The response has every part the fill reads, and the statistics it converts
      are plain decimal text. */
  predicate Complete(resp: Response, disabled: bool) {
    && "title" in resp.snippet && "description" in resp.snippet && "channelTitle" in resp.snippet
    && "channelId" in resp.snippet && "publishedAt" in resp.snippet
    && "duration" in resp.contentDetails
    && "viewCount" in resp.statistics && ParseInt(resp.statistics["viewCount"]).Some?
    && ("likeCount" in resp.statistics ==> ParseInt(resp.statistics["likeCount"]).Some?)
    && (!disabled ==> "commentCount" in resp.statistics && ParseInt(resp.statistics["commentCount"]).Some?)
  }

  /** A complete response builds a record, and the fill runs to its last assignment. */
  lemma CompleteResponseBuilds(id: string, items: seq<Response>, fetch: CommentsFetch)
    requires items != [] && CommentsOf(fetch).Ok? && Complete(items[0], CommentsOf(fetch).value.1)
    ensures ConstructVideoJson(id, items, fetch).Ok? && ConstructVideoJson(id, items, fetch).value.Some?
    ensures (DatePublished, items[0].snippet["publishedAt"]) in ConstructVideoJson(id, items, fetch).value.value
  {
    var resp := items[0];
    var comments, disabled := CommentsOf(fetch).value.0, CommentsOf(fetch).value.1;
    var duration := Duration(resp.contentDetails["duration"]);
    var steps := Steps(id, resp, duration, comments, disabled);
    CompleteStepsRun(id, resp, duration, comments, disabled);
    assert steps[12] == Put(DatePublished, resp.snippet["publishedAt"]);
    ReachedPutStored(steps, 12);
  }

  /** No assignment of a complete response stops or raises. */
  lemma CompleteStepsRun(id: string, resp: Response, duration: int, comments: seq<string>, disabled: bool)
    requires Complete(resp, disabled)
    ensures Reached(Steps(id, resp, duration, comments, disabled), |KeyOrder|)
  {
    var steps := Steps(id, resp, duration, comments, disabled);
    forall j | 0 <= j < |steps|
      ensures !steps[j].Stop? && !steps[j].Raise?
    {
      CompleteStepRuns(KeyOrder[j], id, resp, duration, comments, disabled);
    }
  }

  lemma CompleteStepRuns(k: Key, id: string, resp: Response, duration: int, comments: seq<string>, disabled: bool)
    requires Complete(resp, disabled)
    ensures !StepFor(k, id, resp, duration, comments, disabled).Stop?
    ensures !StepFor(k, id, resp, duration, comments, disabled).Raise?
  {
  }
}
