/** The label matrix: every active labelling function applied to every record,
    `L[i][j] = lf_j(record_i)`. A voter that raises aborts the whole matrix. */
module LabelMatrix {
  import opened Wrappers
  import opened Records
  import opened Registry
  import TV = TranscriptVoters

  type Matrix = seq<seq<Vote>>

  /** The votes of all functions on one record, in function order. */
  function ApplyRow(lfs: seq<Lf>, x: Record, scorer: string -> TV.Polarity): (r: Result<seq<Vote>, Fault>)
    ensures r.Ok? <==> forall j :: 0 <= j < |lfs| ==> Apply(lfs[j], x, scorer).Ok?
    ensures r.Ok? ==> |r.value| == |lfs|
    ensures r.Ok? ==> forall j :: 0 <= j < |lfs| ==> r.value[j] == Apply(lfs[j], x, scorer).value
  {
    if lfs == [] then Ok([])
    else
      var v :- Apply(lfs[0], x, scorer);
      var rest :- ApplyRow(lfs[1..], x, scorer);
      Ok([v] + rest)
  }

  /** The matrix over all records, in record order. */
  function Build(lfs: seq<Lf>, xs: seq<Record>, scorer: string -> TV.Polarity): (r: Result<Matrix, Fault>)
    ensures r.Ok? <==> forall i, j :: 0 <= i < |xs| && 0 <= j < |lfs| ==> Apply(lfs[j], xs[i], scorer).Ok?
    ensures r.Ok? ==> |r.value| == |xs|
    ensures r.Ok? ==> forall i :: 0 <= i < |xs| ==> |r.value[i]| == |lfs|
    ensures r.Ok? ==> forall i, j :: 0 <= i < |xs| && 0 <= j < |lfs| ==> r.value[i][j] == Apply(lfs[j], xs[i], scorer).value
  {
    if xs == [] then Ok([])
    else
      var row :- ApplyRow(lfs, xs[0], scorer);
      var rest :- Build(lfs, xs[1..], scorer);
      assert forall i, j :: 1 <= i < |xs| && 0 <= j < |lfs| ==> Apply(lfs[j], xs[i], scorer) == Apply(lfs[j], xs[1..][i - 1], scorer);
      Ok([row] + rest)
  }

  /** The integer matrix Snorkel receives: every entry is -1, 0 or 1 and stands for
      the vote at the same place. */
  function Codes(m: Matrix): (c: seq<seq<int>>)
    ensures |c| == |m|
    ensures forall i :: 0 <= i < |m| ==> |c[i]| == |m[i]|
    ensures forall i, j :: 0 <= i < |m| && 0 <= j < |m[i]| ==> -1 <= c[i][j] <= 1
    ensures forall i, j :: 0 <= i < |m| && 0 <= j < |m[i]| ==> VoteOfCode(c[i][j]) == Some(m[i][j])
  {
    seq(|m|, i requires 0 <= i < |m| => seq(|m[i]|, j requires 0 <= j < |m[i]| => m[i][j].Code()))
  }
}
