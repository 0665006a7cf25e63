/** The record every labelling function reads, and the votes they return. */
module Records {
  import opened Wrappers

  /** A labelling function's vote. In the label matrix these are the integers
      CALL = 1, NOTCALL = 0 and ABSTAIN = -1. */
  datatype Vote = Abstain | NotCall | Call {
    function Code(): int {
      match this
      case Abstain => -1
      case NotCall => 0
      case Call => 1
    }
  }

  /** The vote an integer matrix entry stands for, if any. */
  function VoteOfCode(c: int): (r: Option<Vote>)
    ensures r.Some? <==> -1 <= c <= 1
    ensures r.Some? ==> r.value.Code() == c
  {
    if c == -1 then Some(Abstain)
    else if c == 0 then Some(NotCall)
    else if c == 1 then Some(Call)
    else None
  }

  /** Speakers are the integer labels of the diarization service. */
  type Speaker = int

  /** One diarized segment. A time is `None` when the formatter found no element
      carrying it. */
  datatype Segment = Segment(speaker: Speaker, start: Option<real>, end: Option<real>, text: string)

  /** The `transcription` column: either the missing marker (`pd.NA`) or the segments
      together with `transcription_block`, the whole transcript as one string. */
  datatype Transcription = Missing | Present(segments: seq<Segment>, block: string)

  /** One row of the data frame the voters are applied to. */
  datatype Record = Record(
    title: string,
    desc: string,
    channelName: string,
    views: int,
    comments: seq<string>,
    transcription: Transcription)

  /** The single comment stored for a video whose comments are disabled. */
  const CommentsDisabledMarker: string := "<<<Comments Disabled>>>"

  /** Python exceptions a voter can raise on a present transcription. */
  datatype Fault =
    | ZeroDivision   // a block with speakers but zero total duration
    | TypeError      // a segment time is `None`
}
