/** The data preparation of `run_main`: choosing the train and test frames,
    deriving the label column, assembling and filtering the labelling functions
    and applying one shared list of them to both frames. Fitting and scoring
    Snorkel's label model are outside this model. */
module Orchestration {
  import opened Wrappers
  import opened Records
  import opened Registry
  import opened LabelMatrix
  import TV = TranscriptVoters

  /** A Python value as it can appear in an options dictionary or in the
      annotation column `Answer_is-a-call_most`. */
  datatype Cell = BoolCell(b: bool) | IntCell(i: int) | TextCell(s: string) | NoneCell | NaNCell

  /** Python truthiness: `False`, `0`, `""` and `None` are false; NaN is true. */
  predicate Truthy(c: Cell) {
    match c
    case BoolCell(b) => b
    case IntCell(i) => i != 0
    case TextCell(s) => s != []
    case NoneCell => false
    case NaNCell => true
  }

  /** One row of a frame: the record the voters read and its human annotation. */
  datatype Row = Row(record: Record, annotation: Cell)

  /** A data frame. `annotated` says whether it has the `Answer_is-a-call_most`
      column (the rows' annotations mean nothing without it); `labels` is its
      `label` column when it has one. */
  datatype Frame = Frame(rows: seq<Row>, annotated: bool, labels: Option<seq<Vote>>)

  /** The keys `run_main` reads from its `options` dictionary; `None` is an absent key. */
  datatype Options = Options(createLabelColumn: Option<Cell>, groundTruth: Option<Cell>, excludedLfs: Option<seq<string>>)

  /** `options.get(key, True)` read as a condition. */
  predicate OptionOn(o: Option<Cell>) {
    o.None? || Truthy(o.value)
  }

  function Excluded(options: Options): seq<string> {
    options.excludedLfs.GetOr([])
  }

  function RecordsOf(f: Frame): (r: seq<Record>)
    ensures |r| == |f.rows|
    ensures forall i :: 0 <= i < |f.rows| ==> r[i] == f.rows[i].record
  {
    seq(|f.rows|, i requires 0 <= i < |f.rows| => f.rows[i].record)
  }

  /** `create_label_column`: a copy of the frame whose label is Call exactly on
      the rows whose annotation is truthy and NotCall on all others; reading the
      annotation column of a frame without one raises a `KeyError`. */
  function CreateLabelColumn(f: Frame): (r: Result<Frame, RunError>)
    ensures r.Err? <==> !f.annotated
    ensures r.Err? ==> r.error == NoAnnotationColumn
    ensures r.Ok? ==> r.value.rows == f.rows && r.value.annotated
    ensures r.Ok? ==> r.value.labels.Some? && |r.value.labels.value| == |f.rows|
    ensures r.Ok? ==> forall i :: 0 <= i < |f.rows| ==> r.value.labels.value[i] != Abstain
    ensures r.Ok? ==> forall i :: 0 <= i < |f.rows| ==> (r.value.labels.value[i] == Call <==> Truthy(f.rows[i].annotation))
  {
    if !f.annotated then Err(NoAnnotationColumn)
    else Ok(Frame(f.rows, true, Some(seq(|f.rows|, i requires 0 <= i < |f.rows| => if Truthy(f.rows[i].annotation) then Call else NotCall))))
  }

  /** `a` is `b` with some elements removed and the rest kept in order. */
  predicate IsSubsequence<T(==)>(a: seq<T>, b: seq<T>)
    decreases |b|
  {
    a == [] || (b != [] && (IsSubsequence(a, b[1..]) || (a[0] == b[0] && IsSubsequence(a[1..], b[1..]))))
  }

  /** The exclusion filter over function names. */
  function Exclude(lfs: seq<Lf>, excluded: seq<string>): (r: seq<Lf>)
    ensures IsSubsequence(r, lfs)
    ensures forall lf :: lf in r <==> lf in lfs && Name(lf) !in excluded
  {
    if lfs == [] then []
    else if Name(lfs[0]) in excluded then Exclude(lfs[1..], excluded)
    else [lfs[0]] + Exclude(lfs[1..], excluded)
  }

  lemma {:induction false} ExcludeNothing(lfs: seq<Lf>)
    ensures Exclude(lfs, []) == lfs
  {
    if lfs != [] {
      ExcludeNothing(lfs[1..]);
      assert [lfs[0]] + lfs[1..] == lfs;
    }
  }

  /** The function list `run_main` applies: the groups of `get_lfs` concatenated
      in group order, less the functions named under `excluded_lfs`. */
  function ActiveLfs(options: Options): (r: seq<Lf>)
    ensures IsSubsequence(r, GetLfsArray())
    ensures forall lf :: lf in r <==> lf != NumberOfSpeakers && Name(lf) !in Excluded(options)
  {
    ArrayIsFlattenedGroups();
    GroupsAreCategoriesAll();
    Exclude(Flatten(GetLfs()), Excluded(options))
  }

  lemma GroupsAreCategoriesAll()
    ensures forall lf :: lf in GetLfsArray() <==> lf != NumberOfSpeakers
  {
    forall lf: Lf ensures lf in GetLfsArray() <==> lf != NumberOfSpeakers {
      GroupsAreCategories(lf);
    }
  }

  /** Without exclusions every registered function is applied, in registry order. */
  lemma NoExclusionsAppliesAll(options: Options)
    requires Excluded(options) == []
    ensures ActiveLfs(options) == GetLfsArray()
  {
    ArrayIsFlattenedGroups();
    ExcludeNothing(GetLfsArray());
  }

  /** A pickle path, when given, wins over the frame passed in. */
  function SelectFrame(pkl: Option<string>, given: Option<Frame>, load: string -> Frame): (r: Option<Frame>)
    ensures pkl.Some? ==> r == Some(load(pkl.value))
    ensures pkl.None? ==> r == given
  {
    if pkl.None? then given else Some(load(pkl.value))
  }

  /** Why `run_main` stops before reaching the label model. */
  datatype RunError =
    | NoFrame              // a frame is None: neither a pickle nor a frame was given
    | NoAnnotationColumn   // the label is derived but the frame has no `Answer_is-a-call_most`
    | VoterRaised(f: Fault) // a labelling function raised while being applied
    | NoLabelColumn        // the label column is read but the frame has none

  /** What `run_main` hands to the label model. */
  datatype Prepared = Prepared(active: seq<Lf>, lTrain: Matrix, lTest: Matrix, yDev: Option<seq<Vote>>, yTest: seq<Vote>)

  function RaisedBy<T>(r: Result<T, Fault>): Result<T, RunError> {
    match r
    case Ok(v) => Ok(v)
    case Err(f) => Err(VoterRaised(f))
  }

  function Labelled(f: Option<Frame>): Result<Option<Frame>, RunError> {
    if f.None? then Err(NoFrame)
    else
      var g :- CreateLabelColumn(f.value);
      Ok(Some(g))
  }

  function Present(f: Option<Frame>): Result<Frame, RunError> {
    if f.None? then Err(NoFrame) else Ok(f.value)
  }

  function LabelsOf(f: Frame): Result<seq<Vote>, RunError> {
    if f.labels.None? then Err(NoLabelColumn) else Ok(f.labels.value)
  }

  /** Lines 35 to 47 of `run_main` for given frames and a given function list:
      labelling, then the train matrix, then the test matrix, then the label
      columns the label model reads. */
  function Prepare(trainIn: Option<Frame>, testIn: Option<Frame>, active: seq<Lf>, options: Options,
                   scorer: string -> TV.Polarity): (r: Result<Prepared, RunError>)
    ensures trainIn.None? ==> r == Err(NoFrame)
    ensures r.Ok? <==>
      && trainIn.Some? && testIn.Some?
      && (OptionOn(options.createLabelColumn) ==> trainIn.value.annotated && testIn.value.annotated)
      && Build(active, RecordsOf(trainIn.value), scorer).Ok?
      && Build(active, RecordsOf(testIn.value), scorer).Ok?
      && (!OptionOn(options.createLabelColumn) ==>
            testIn.value.labels.Some? && (OptionOn(options.groundTruth) ==> trainIn.value.labels.Some?))
    ensures OptionOn(options.createLabelColumn) && trainIn.Some? && !trainIn.value.annotated ==> r == Err(NoAnnotationColumn)
    ensures r.Ok? && OptionOn(options.createLabelColumn) ==> trainIn.Some? && trainIn.value.annotated && testIn.Some? && testIn.value.annotated
    ensures r.Ok? ==> trainIn.Some? && testIn.Some? && r.value.active == active
    ensures r.Ok? ==>
      |r.value.lTrain| == |trainIn.value.rows| &&
      forall i, j :: 0 <= i < |trainIn.value.rows| && 0 <= j < |active| ==>
        |r.value.lTrain[i]| == |active| && Apply(active[j], trainIn.value.rows[i].record, scorer).Ok? && r.value.lTrain[i][j] == Apply(active[j], trainIn.value.rows[i].record, scorer).value
    ensures r.Ok? ==>
      |r.value.lTest| == |testIn.value.rows| &&
      forall i, j :: 0 <= i < |testIn.value.rows| && 0 <= j < |active| ==>
        |r.value.lTest[i]| == |active| && Apply(active[j], testIn.value.rows[i].record, scorer).Ok? && r.value.lTest[i][j] == Apply(active[j], testIn.value.rows[i].record, scorer).value
    ensures r.Ok? ==> (r.value.yDev.Some? <==> OptionOn(options.groundTruth))
    ensures r.Ok? && r.value.yDev.Some? && OptionOn(options.createLabelColumn) ==>
      |r.value.yDev.value| == |trainIn.value.rows| &&
      forall i :: 0 <= i < |trainIn.value.rows| ==>
        r.value.yDev.value[i] != Abstain && (r.value.yDev.value[i] == Call <==> Truthy(trainIn.value.rows[i].annotation))
    ensures r.Ok? && r.value.yDev.Some? && !OptionOn(options.createLabelColumn) ==> Some(r.value.yDev.value) == trainIn.value.labels
    ensures r.Ok? && OptionOn(options.createLabelColumn) ==>
      |r.value.yTest| == |testIn.value.rows| &&
      forall i :: 0 <= i < |testIn.value.rows| ==>
        r.value.yTest[i] != Abstain && (r.value.yTest[i] == Call <==> Truthy(testIn.value.rows[i].annotation))
    ensures r.Ok? && !OptionOn(options.createLabelColumn) ==> Some(r.value.yTest) == testIn.value.labels
  {
    var create := OptionOn(options.createLabelColumn);
    var trainSel :- if create then Labelled(trainIn) else Ok(trainIn);
    var testSel :- if create then Labelled(testIn) else Ok(testIn);
    var train :- Present(trainSel);
    var lTrain :- RaisedBy(Build(active, RecordsOf(train), scorer));
    var test :- Present(testSel);
    var lTest :- RaisedBy(Build(active, RecordsOf(test), scorer));
    var yDev :- if OptionOn(options.groundTruth) then (var y :- LabelsOf(train); Ok(Some(y))) else Ok(None);
    var yTest :- LabelsOf(test);
    Ok(Prepared(active, lTrain, lTest, yDev, yTest))
  }

  /** `run_main` up to the label model. `groundTruth` and `excludedLfs` are
      accepted and never read: only the `options` entries of the same names
      have an effect. */
  function RunMain(trainPkl: Option<string>, testPkl: Option<string>, groundTruth: bool, excludedLfs: seq<string>,
                   trainPd: Option<Frame>, testPd: Option<Frame>, options: Options,
                   load: string -> Frame, scorer: string -> TV.Polarity): (r: Result<Prepared, RunError>)
    ensures SelectFrame(trainPkl, trainPd, load).None? ==> r == Err(NoFrame)
    ensures (OptionOn(options.createLabelColumn) && SelectFrame(trainPkl, trainPd, load).Some? &&
             !SelectFrame(trainPkl, trainPd, load).value.annotated) ==> r == Err(NoAnnotationColumn)
    ensures r.Ok? ==> r.value.active == ActiveLfs(options)
    ensures r.Ok? ==> forall lf :: lf in r.value.active <==> lf != NumberOfSpeakers && Name(lf) !in Excluded(options)
    ensures r.Ok? && trainPkl.Some? ==> |r.value.lTrain| == |load(trainPkl.value).rows|
    ensures r.Ok? && trainPkl.None? ==> trainPd.Some? && |r.value.lTrain| == |trainPd.value.rows|
    ensures r.Ok? && testPkl.Some? ==> |r.value.lTest| == |load(testPkl.value).rows|
    ensures r.Ok? && testPkl.None? ==> testPd.Some? && |r.value.lTest| == |testPd.value.rows|
  {
    Prepare(SelectFrame(trainPkl, trainPd, load), SelectFrame(testPkl, testPd, load), ActiveLfs(options), options, scorer)
  }

  /** The `ground_truth` and `excluded_lfs` parameters change nothing. */
  lemma IgnoredParameters(trainPkl: Option<string>, testPkl: Option<string>, g1: bool, g2: bool, e1: seq<string>, e2: seq<string>,
                          trainPd: Option<Frame>, testPd: Option<Frame>, options: Options,
                          load: string -> Frame, scorer: string -> TV.Polarity)
    ensures RunMain(trainPkl, testPkl, g1, e1, trainPd, testPd, options, load, scorer)
         == RunMain(trainPkl, testPkl, g2, e2, trainPd, testPd, options, load, scorer)
  {
  }

  /** Only `only_two_people_speaking` can raise while being applied. */
  lemma OnlyDominanceRaises(lf: Lf, x: Record, scorer: string -> TV.Polarity)
    requires lf != OnlyTwoPeopleSpeaking
    ensures Apply(lf, x, scorer).Ok?
  {
  }

  /** A list without `only_two_people_speaking` is applied without an exception. */
  lemma WithoutDominanceBuilds(lfs: seq<Lf>, xs: seq<Record>, scorer: string -> TV.Polarity)
    requires forall j :: 0 <= j < |lfs| ==> lfs[j] != OnlyTwoPeopleSpeaking
    ensures Build(lfs, xs, scorer).Ok?
  {
    forall i, j | 0 <= i < |xs| && 0 <= j < |lfs|
      ensures Apply(lfs[j], xs[i], scorer).Ok?
    {
      OnlyDominanceRaises(lfs[j], xs[i], scorer);
    }
  }

  /** Excluding `only_two_people_speaking` by name removes it from the active list. */
  lemma ExcludedDominanceInactive(options: Options)
    requires "only_two_people_speaking" in Excluded(options)
    ensures forall j :: 0 <= j < |ActiveLfs(options)| ==> ActiveLfs(options)[j] != OnlyTwoPeopleSpeaking
  {
    var active := ActiveLfs(options);
    assert Name(OnlyTwoPeopleSpeaking) in Excluded(options);
    assert OnlyTwoPeopleSpeaking !in active;
  }

  /** With labels derived by default, annotated frames and `only_two_people_speaking`
      excluded, `run_main` always reaches both label matrices. */
  lemma RunWithoutDominanceSucceeds(trainPkl: Option<string>, testPkl: Option<string>, groundTruth: bool,
                                    excludedLfs: seq<string>, trainPd: Option<Frame>, testPd: Option<Frame>,
                                    options: Options, load: string -> Frame, scorer: string -> TV.Polarity)
    requires SelectFrame(trainPkl, trainPd, load).Some? && SelectFrame(trainPkl, trainPd, load).value.annotated
    requires SelectFrame(testPkl, testPd, load).Some? && SelectFrame(testPkl, testPd, load).value.annotated
    requires options.createLabelColumn.None?
    requires "only_two_people_speaking" in Excluded(options)
    ensures RunMain(trainPkl, testPkl, groundTruth, excludedLfs, trainPd, testPd, options, load, scorer).Ok?
  {
    var train := SelectFrame(trainPkl, trainPd, load);
    var test := SelectFrame(testPkl, testPd, load);
    ExcludedDominanceInactive(options);
    WithoutDominanceBuilds(ActiveLfs(options), RecordsOf(train.value), scorer);
    WithoutDominanceBuilds(ActiveLfs(options), RecordsOf(test.value), scorer);
    assert Prepare(train, test, ActiveLfs(options), options, scorer).Ok?;
  }
}
