# Weak supervision for scam-call videos, in Dafny

This project models the labelling engine of a thesis project. The engine labels YouTube
videos as showing a phone scam call (CALL) or not (NOTCALL) by weak supervision: many
small heuristic *labelling functions* each vote CALL, NOTCALL or ABSTAIN on a video
record. The votes form a label matrix that Snorkel's label model later combines. The
model covers these parts:

- the labelling functions and their grouping. Metadata keyword voters, scam-type voters
  and transcript voters include the speaker-dominance heuristic, modelled literally.
  The groups are `general`, `scam_types` and `transcript`, exposed by `get_lfs` and
  `get_lfs_array`;
- applying a list of functions to a data set, giving the label matrix;
- the data preparation of `run_main`:
  - picking the train and test frames, where a pickle path takes precedence;
  - deriving the label column;
  - assembling the function list and filtering it by name;
  - one shared list applied to both frames;
- `format_diarization`, which flattens a Rev.ai transcript into diarized segments;
- from the video-record builder:
  - `construct_video_url`;
  - the ISO 8601 duration parse (`PT#H#M#S`, the "format with designators" of section
    4.4.3.2 of ISO 8601:2004);
  - the field defaults of `construct_video_json`.

Every operation is a pure function, except the diarization formatter. That one is
written as methods with loops, checked against reference functions. A Python exception
becomes an error value: `Fault` for a voter, `RunError` for `run_main`, `YtError` for
the record builder.

Modules:

- `Wrappers`: `Option`, `Result`.
- `Text`: ASCII lower-casing and substring search.
- `Regex`: the match counts of `re.findall` for `\bword\b` and for ordered alternation.
- `Records`: votes, segments, records.
- `KeywordVoters`.
- `Dominance`.
- `TranscriptVoters`.
- `Registry`: the function names and groups.
- `LabelMatrix`.
- `Orchestration`: `run_main`.
- `Diarization`.
- `IsoDuration`.
- `VideoJson`.

Where the code's own comments and its statements disagree, the model follows the statements:

- **Speaker dominance.** The comment at `snorkelling/labelling_functions.py:138` says a
  block held by one speaker "cannot be" dominated by two. The code checks this only
  when that speaker comes first in the block's insertion order
  (`Dominance.DominanceDependsOnOrder`).
- **Flag count.** The comment at `snorkelling/labelling_functions.py:130` describes one
  flag per 30-second block. The code appends one flag per speaker whose inner scan
  breaks, plus a trailing 0 from the `for … else`.
- **Majority share.** The docstring at `snorkelling/labelling_functions.py:125` says 85%;
  the code uses 0.70.
- **Unscored final block.** The block still open after the last segment is never
  scored. A transcript that stays within the first 30 seconds therefore abstains
  because it has no flags at all (`Dominance.SingleWindowAbstains`).
- **Errors.** Only the exceptions this code raises are modelled.

## Model

| member | source | states |
|---|---|---|
| Records.VoteOfCode | snorkelling/labelling_functions.py:6-8 | exactly -1, 0 and 1 decode to a vote, and the vote's code round-trips |
| Text.Lower | snorkelling/labelling_functions.py:15 | lower-casing keeps the length and maps each character independently |
| Text.IndexOf | snorkelling/labelling_functions.py:15 | the search gives the leftmost occurrence, or none exactly when the pattern occurs nowhere |
| Text.ContainsIff | snorkelling/labelling_functions.py:15 | `pat in s` holds iff `pat` occurs at some index |
| Text.ContainsWithin | snorkelling/labelling_functions.py:15 | an occurrence survives any text written before or after |
| Text.ContainsLower | snorkelling/labelling_functions.py:189 | a pattern with no capitals found in the raw text is also found in the lowered text |
| Regex.FirstAlternative | snorkelling/labelling_functions.py:195-196 | ordered alternation: the first listed alternative that matches wins |
| Regex.MatchLength | snorkelling/labelling_functions.py:109-112 | every match consumes at least one character and stays inside the text |
| Regex.NoWordOverlap | snorkelling/labelling_functions.py:109 | two whole-word matches of the same word never overlap or touch |
| Regex.WordCountFrom | snorkelling/labelling_functions.py:109-112 | the left-to-right scan from `i` counts every index at or after `i` where the word stands |
| Regex.WordCount | snorkelling/labelling_functions.py:109-112 | `len(re.findall(r'\bw\b', s))` is the number of indices where `w` stands as a whole word |
| Regex.AlternationZero | snorkelling/labelling_functions.py:200-202 | an alternation finds nothing iff no alternative occurs anywhere in the text |
| KeywordVoters.ScambaitInTitleOrDesc | snorkelling/labelling_functions.py:12-15 | never ABSTAINs; CALL iff "scambait" is in the lowered title or description |
| KeywordVoters.ScammerInTitleOrDesc | snorkelling/labelling_functions.py:17-20 | never NOTCALL; CALL iff "scammer" is in the lowered title or description |
| KeywordVoters.SponsorInVideo | snorkelling/labelling_functions.py:22-25 | never CALL; NOTCALL iff "sponsor" is in the lowered description |
| KeywordVoters.SmallVideo | snorkelling/labelling_functions.py:27-30 | never NOTCALL; CALL iff the view count is below 20000 |
| KeywordVoters.Hacking | snorkelling/labelling_functions.py:32-35 | never CALL; NOTCALL iff "hack" is in the lowered description |
| KeywordVoters.LiveStream | snorkelling/labelling_functions.py:37-40 | never CALL; NOTCALL iff "live" is in the lowered title |
| KeywordVoters.CommentsDisabled | snorkelling/labelling_functions.py:42-45 | never CALL; NOTCALL iff the first comment is the comments-disabled marker; no comments means ABSTAIN |
| KeywordVoters.NewsNotInChannel | snorkelling/labelling_functions.py:48-51 | never CALL; NOTCALL iff "news" is in the lowered channel name |
| KeywordVoters.TravellingNotInTitleOrDesc | snorkelling/labelling_functions.py:54-57 | never CALL; NOTCALL iff the title has "travel" or the description has "travelling" |
| KeywordVoters.RefundScam | snorkelling/labelling_functions.py:64-67 | never NOTCALL; CALL iff "refund" is in the lowered title or description |
| KeywordVoters.IrsScam | snorkelling/labelling_functions.py:69-72 | never NOTCALL; CALL iff "irs" is in the lowered title or description |
| KeywordVoters.CryptoScam | snorkelling/labelling_functions.py:74-77 | never CALL; NOTCALL iff "crypto" is in the lowered title or description |
| KeywordVoters.NotAScheme | snorkelling/labelling_functions.py:79-82 | never CALL; NOTCALL iff "scheme" is in the lowered title or description |
| KeywordVoters.TechSupport | snorkelling/labelling_functions.py:85-88 | never NOTCALL; CALL iff "tech support" is in the lowered title or description |
| KeywordVoters.CommonScamCompanies | snorkelling/labelling_functions.py:90-95 | never NOTCALL; CALL iff one of geek squad, norton, microsoft is in the lowered title or description |
| KeywordVoters.MentionsWithin | snorkelling/labelling_functions.py:15 | a keyword found in lowered text is still found once more text surrounds it |
| KeywordVoters.MoreTextKeepsMentions | snorkelling/labelling_functions.py:12-95 | extending a title, description and channel name keeps every keyword they mention |
| KeywordVoters.GeneralHitsPersist | snorkelling/labelling_functions.py:12-57 | the title/description voters of `general` never withdraw a hit when text is added |
| KeywordVoters.SingleFieldHitsPersist | snorkelling/labelling_functions.py:22-51 | `sponsor_in_video`, `hacking`, `live_stream` and `news_not_in_channel`, which each read one field, never withdraw a vote when text is added |
| KeywordVoters.ScamTypeHitsPersist | snorkelling/labelling_functions.py:64-88 | the keyword voters of `scam_types` never withdraw a hit when text is added |
| KeywordVoters.CompanyHitsPersist | snorkelling/labelling_functions.py:90-95 | the company voter never withdraws a hit when text is added |
| KeywordVoters.IrsInsideFirst | snorkelling/labelling_functions.py:69-72 | the IRS voter fires on the letters "irs" inside any word, e.g. the title "My first video" |
| Dominance.AddTime | snorkelling/labelling_functions.py:149-150 | the segment's time is added to that speaker's own entry (starting from 0 when absent) and to no other; first-appearance order is kept, a new speaker goes last, the total grows by the same time, speakers stay distinct |
| Dominance.OuterScan | snorkelling/labelling_functions.py:136-144 | the nested scan adds at most one flag per speaker of the block |
| Dominance.ScoreBlock | snorkelling/labelling_functions.py:136-146 | closing a block raises ZeroDivision iff it has speakers but zero total; otherwise it adds between 1 and (speakers + 1) flags, the last always 0 |
| Dominance.Step | snorkelling/labelling_functions.py:133-150 | a segment without a start raises TypeError, one without an end raises (TypeError unless closing the block raised first); a segment with both times succeeds iff it does not close a block, or the block it closes scores, and otherwise raises ZeroDivision; a segment at or before the threshold leaves the flags alone, one after it first appends the closed block's flags; the segment's time then goes to its speaker and to the total of the fresh block after a close, or of the open block otherwise; its speaker joins the block's speakers last unless already there |
| Dominance.CountTrue | snorkelling/labelling_functions.py:151-153 | `sum_of_blocks` is the number of dominated flags |
| Dominance.Decide | snorkelling/labelling_functions.py:154 | never NOTCALL; CALL iff strictly more than half of the flags are dominated |
| Dominance.FoldAppend | snorkelling/labelling_functions.py:133-150 | folding a concatenation folds the second part from the state the first part ends in |
| Dominance.FoldInvariant | snorkelling/labelling_functions.py:131-150 | the open block keeps distinct speakers whose times sum to its total, and flags are only ever appended |
| Dominance.NoCloseKeepsFlags | snorkelling/labelling_functions.py:134 | segments that start before the threshold never change the flags |
| Dominance.OpenBlockAccumulates | snorkelling/labelling_functions.py:133-150 | while no segment closes it, the open block holds per speaker its earlier time plus that speaker's segment durations, lists its speakers in order of first appearance, and the total grows by all their durations |
| Dominance.ScoredBlockAccumulates | snorkelling/labelling_functions.py:133-150 | the block a closing segment scores holds exactly the time of the segments since it was opened, per speaker and in total, with its speakers in order of first appearance |
| Dominance.OpenBlockNeverScored | snorkelling/labelling_functions.py:133-154 | segments after the last block close do not change the vote: the final open block is never scored |
| Dominance.SingleWindowAbstains | snorkelling/labelling_functions.py:133-154 | a transcript whose segments all start within the first 30 seconds abstains |
| Dominance.FirstSoloScan | snorkelling/labelling_functions.py:137-141 | when the first speaker alone exceeds 70%, every inner scan breaks at once with 0 |
| Dominance.FirstSpeakerSoloNotDominated | snorkelling/labelling_functions.py:136-146 | when the first-listed speaker alone exceeds 70%, closing the block adds only zeros, one per speaker plus one |
| Dominance.InnerScanNoSolo | snorkelling/labelling_functions.py:137-144 | with no solo majority, an inner scan flags 1 iff the speaker has a partner exceeding 70% together, and otherwise runs to its end |
| Dominance.OuterScanNoSolo | snorkelling/labelling_functions.py:136-144 | with no solo majority, the block adds one 1 per speaker that has a partner, and nothing else |
| Dominance.NoSoloBlockFlags | snorkelling/labelling_functions.py:136-146 | with no solo majority, closing a block adds one 1 per speaker with a partner, then the trailing 0 |
| Dominance.DominanceDependsOnOrder | snorkelling/labelling_functions.py:136-146 | the same speaker times scored in two insertion orders give different flags |
| Dominance.ZeroLengthBlockRaises | snorkelling/labelling_functions.py:139-142 | a block of zero-length segments raises ZeroDivision when a later segment closes it |
| Dominance.FoldSucceeds | snorkelling/labelling_functions.py:133-150 | segments that all have a start and an end, each of positive length, never raise when folded from a block whose total is positive once it has speakers: every block closed has a positive total |
| Dominance.EvenPairScores | snorkelling/labelling_functions.py:135-146 | a block split evenly between two speakers flags both speakers as dominated, then the trailing 0 |
| Dominance.TwoSpeakerBlockCalls | snorkelling/labelling_functions.py:124-154 | two speakers sharing the first 30 seconds, then a segment that closes the block, vote CALL |
| TranscriptVoters.SegmentGreetings | snorkelling/labelling_functions.py:109-112 | a segment's greetings are the whole-word positions of hello, hi, yo and hey in its lowered text |
| TranscriptVoters.TwoHellos | snorkelling/labelling_functions.py:103-113 | never NOTCALL; ABSTAIN on a missing transcription; CALL iff more than one greeting over all segments |
| TranscriptVoters.LeadingGreeting | snorkelling/labelling_functions.py:109-112 | a text opening with a greeting that ends at a word boundary counts at least one greeting |
| TranscriptVoters.GreetingThenSpace | snorkelling/labelling_functions.py:109-112 | a lower-case text opening with a greeting and a space counts at least one greeting |
| TranscriptVoters.TwoGreetingsCall | snorkelling/labelling_functions.py:103-113 | a transcript of "hello there", "hi friend", "ok bye" votes CALL |
| TranscriptVoters.ThanksForCalling | snorkelling/labelling_functions.py:116-121 | never NOTCALL; ABSTAIN on a missing transcription; CALL iff the lowered block has "thank you for calling" |
| TranscriptVoters.OnlyTwoPeopleSpeaking | snorkelling/labelling_functions.py:123-154 | ABSTAIN on a missing transcription; otherwise the speaker-dominance vote or its error; never NOTCALL |
| TranscriptVoters.SpeakerSet | snorkelling/labelling_functions.py:161-163 | the set holds exactly the speakers of some segment |
| TranscriptVoters.NumberOfSpeakers | snorkelling/labelling_functions.py:156-164 | never NOTCALL; ABSTAIN on a missing transcription; CALL iff there are 2 or 3 distinct speakers |
| TranscriptVoters.TranscriptSentiment | snorkelling/labelling_functions.py:166-173 | never NOTCALL; ABSTAIN on a missing transcription; CALL iff the positive score exceeds the negative one |
| TranscriptVoters.AnydeskInTranscript | snorkelling/labelling_functions.py:176-181 | never NOTCALL; CALL iff "anydesk" is in the lowered block or "any desk" is in the raw block |
| TranscriptVoters.CapitalisedAnyDeskAbstains | snorkelling/labelling_functions.py:181 | "Any Desk" is not found, because the spaced form is searched in the raw block only |
| TranscriptVoters.SecureServerInTranscript | snorkelling/labelling_functions.py:184-189 | never NOTCALL; ABSTAIN on a missing transcription |
| TranscriptVoters.SecureServerIsCaseInsensitive | snorkelling/labelling_functions.py:189 | the raw-text test adds nothing: CALL iff "secure server" is in the lowered block |
| TranscriptVoters.PronounUsage | snorkelling/labelling_functions.py:192-204 | never CALL; ABSTAIN on a missing transcription or no pronoun at all; NOTCALL iff third-person matches are over 65% of all pronoun matches |
| TranscriptVoters.NoPronounsIff | snorkelling/labelling_functions.py:195-203 | both counts are 0 iff no alternative of either pattern occurs anywhere in the lowered block |
| TranscriptVoters.TheCountsAsHe | snorkelling/labelling_functions.py:196 | the unanchored alternation counts "the" as one third-person pronoun |
| TranscriptVoters.ThanksHitPersists | snorkelling/labelling_functions.py:116-121 | a CALL from `thanks_for_calling` survives any text written before or after the block |
| TranscriptVoters.AnydeskHitPersists | snorkelling/labelling_functions.py:176-181 | a CALL from `anydesk_in_transcript` survives any text written before or after the block |
| TranscriptVoters.SecureServerHitPersists | snorkelling/labelling_functions.py:184-189 | a CALL from `secure_server_in_transcript` survives any text written before or after the block |
| TranscriptVoters.RawAnydeskCalls | snorkelling/labelling_functions.py:176-181 | a raw block containing "anydesk" in lower case votes CALL |
| Registry.Flatten | snorkelling/run_main.py:38-41 | a function is in the concatenation of the groups iff it is in one of the groups |
| Registry.ArrayIsFlattenedGroups | snorkelling/labelling_functions.py:208-216 | concatenating the groups of `get_lfs` in order gives `get_lfs_array`, 22 functions |
| Registry.ArrayHasNoDuplicates | snorkelling/labelling_functions.py:215-216 | no function is listed twice |
| Registry.GroupsAreCategories | snorkelling/labelling_functions.py:60-206 | `number_of_speakers` reads the transcript but is in no group, and every other function is registered; the category clauses confirm the grouping as listed |
| Registry.NamesDistinct | snorkelling/labelling_functions.py:12-204 | two functions share a name iff they are the same function |
| Registry.TranscriptVotersAbstainOnMissing | snorkelling/labelling_functions.py:103-204 | every transcript voter returns ABSTAIN when the transcription is missing |
| Registry.MetadataVotersFixedPolarity | snorkelling/labelling_functions.py:12-95 | each metadata voter returns only its own polarity or ABSTAIN, except `scambait_in_title_or_desc`, which returns CALL or NOTCALL |
| Registry.TranscriptVotersFixedPolarity | snorkelling/labelling_functions.py:103-204 | each transcript voter returns only its own polarity or ABSTAIN; only the dominance voter can raise |
| Registry.VotersReadOnlyTheirEvidence | snorkelling/labelling_functions.py:12-204 | a metadata voter ignores the transcript, and a transcript voter ignores the metadata |
| LabelMatrix.ApplyRow | snorkelling/run_main.py:45-46 | a row succeeds iff every function succeeds on the record, and entry j is function j's vote |
| LabelMatrix.Build | snorkelling/run_main.py:45-47 | the matrix succeeds iff every function succeeds on every record; it has one row per record and one column per function, entry (i, j) being function j's vote on record i |
| LabelMatrix.Codes | snorkelling/run_main.py:9-11 | every integer entry is -1, 0 or 1 and decodes to the vote at the same place |
| Orchestration.CreateLabelColumn | snorkelling/run_main.py:28-34 | a frame without the `Answer_is-a-call_most` column raises KeyError; otherwise rows unchanged and the label is CALL exactly where the annotation is truthy, NOTCALL elsewhere, never ABSTAIN |
| Orchestration.Exclude | snorkelling/run_main.py:43 | the kept functions are, in their original order, exactly those whose name is not excluded |
| Orchestration.ExcludeNothing | snorkelling/run_main.py:43 | an empty exclusion list keeps the list unchanged |
| Orchestration.ActiveLfs | snorkelling/run_main.py:38-43 | the applied functions, in registry order, are exactly the registered ones not named under `excluded_lfs` |
| Orchestration.NoExclusionsAppliesAll | snorkelling/run_main.py:38-43 | with no exclusions every registered function is applied, in registry order |
| Orchestration.SelectFrame | snorkelling/run_main.py:19-26 | a pickle path wins over a given frame |
| Orchestration.Prepare | snorkelling/run_main.py:27-58 | preparation succeeds iff both frames are present, annotated when labels are derived, both matrices build, and otherwise the needed label columns exist; a missing train frame is an error, and so is a train frame without the annotation column when labels are derived; both matrices use the same function list, with entries equal to each function's vote; `Y_dev` is passed iff `ground_truth` is on, and holds the train labels derived from the annotation (never ABSTAIN), or the train frame's own label column when `create_label_column` is falsy; the test labels follow the same rule |
| Orchestration.RunMain | snorkelling/run_main.py:14-47 | a missing train frame is an error, and so is an unannotated train frame when labels are derived; the active list is exactly the registered, non-excluded functions; each matrix has one row per row of the pickle when a path is given, else of the frame argument |
| Orchestration.IgnoredParameters | snorkelling/run_main.py:14-43 | the `ground_truth` and `excluded_lfs` parameters do not change the outcome |
| Orchestration.OnlyDominanceRaises | snorkelling/labelling_functions.py:12-204 | every voter other than `only_two_people_speaking` succeeds on every record |
| Orchestration.WithoutDominanceBuilds | snorkelling/run_main.py:45-47 | a function list without the dominance voter builds a matrix on any records |
| Orchestration.ExcludedDominanceInactive | snorkelling/run_main.py:43 | excluding `only_two_people_speaking` by name removes it from the applied list |
| Orchestration.RunWithoutDominanceSucceeds | snorkelling/run_main.py:14-47 | with both selected frames present and annotated, `create_label_column` absent so that labels are derived by default, and the dominance voter excluded, `run_main` succeeds |
| Diarization.FirstTs | snorkelling/format_diarization.py:18-22 | the start is the time of the first element that has one, or None when none has |
| Diarization.LastEndTs | snorkelling/format_diarization.py:19-24 | the end is the end time of the last element that has one, or None when none has |
| Diarization.JoinAppend | snorkelling/format_diarization.py:25 | joining a concatenation is concatenating the joins |
| Diarization.JoinLength | snorkelling/format_diarization.py:25 | the text is exactly as long as all values together |
| Diarization.ScanTimes | snorkelling/format_diarization.py:18-24 | the element loop finds the first start and the last end |
| Diarization.JoinValues | snorkelling/format_diarization.py:25 | the text is the values joined with no separator |
| Diarization.FormatMonologue | snorkelling/format_diarization.py:16-26 | a monologue becomes its speaker, first start, last end and joined text; an empty one has no times and empty text |
| Diarization.FormatDiarization | snorkelling/format_diarization.py:15-27 | one segment per monologue, in order |
| Diarization.Map | snorkelling/format_diarization.py:15-27 | the segments as a function: one per monologue, in order |
| Diarization.TextPreserved | snorkelling/format_diarization.py:15-27 | the segments' texts together are all element values in order: no word lost or reordered |
| IsoDuration.DigitRunEnd | ytm.py:259 | the greedy digit run from `i` ends at the first non-digit |
| IsoDuration.Designated | ytm.py:259 | an optional group captures exactly when the greedy digit run at its position is non-empty and followed by its designator; it then captures the decimal value of those digits and resumes after the designator; otherwise it consumes nothing |
| IsoDuration.DesignatedIff | ytm.py:259 | a group captures iff some non-empty run of digits is followed by its designator, and then captures the value of that run |
| IsoDuration.Duration | ytm.py:256-264 | -1 iff the text has no "PT"; otherwise a non-negative number of seconds |
| IsoDuration.DurationFromFirstPT | ytm.py:258-261 | the groups are read from the first "PT", and the duration is 3600·H + 60·M + S |
| IsoDuration.DecimalRoundTrip | ytm.py:260-261 | `int()` of the decimal spelling of n is n |
| IsoDuration.ReadComponent | ytm.py:259 | a group reads a component written with its own designator, and skips one with another designator |
| IsoDuration.ReadHours | ytm.py:259 | the hour group of a written duration captures exactly its hours |
| IsoDuration.ReadMinutes | ytm.py:259 | the minute group of a written duration captures exactly its minutes |
| IsoDuration.ReadSeconds | ytm.py:259 | the second group of a written duration captures exactly its seconds |
| IsoDuration.DurationRoundTrip | ytm.py:258-261 | reading back a written `PT#H#M#S` gives 3600·H + 60·M + S, absent components counting 0 |
| IsoDuration.DayDurationIsMinusOne | ytm.py:256-264 | a day-bearing duration such as "P1DT2H" stays -1 |
| VideoJson.ConstructVideoUrl | ytm.py:56-60 | the URL is the watch prefix followed by the id |
| VideoJson.VideoIdOfUrl | ytm.py:60 | a URL has an id iff it starts with the watch prefix |
| VideoJson.UrlRoundTrip | ytm.py:60 | the id is recovered from the URL |
| VideoJson.UrlInjective | ytm.py:56-60 | distinct ids give distinct URLs |
| VideoJson.KeyNamesDistinct | ytm.py:266-286 | the record's keys have pairwise distinct names |
| VideoJson.ParseInt | ytm.py:273 | a count parses iff it is a non-empty run of digits |
| VideoJson.ParseIntOfDecimal | ytm.py:273 | a written count parses back to itself |
| VideoJson.Fill | ytm.py:265-289 | every stored pair comes from an assignment of the fill; the fill raises iff its first KeyError or ValueError is a ValueError, and then raises with that value's text |
| VideoJson.FillRaisesIff | ytm.py:265-289 | the fill raises iff some ValueError is reached before any KeyError |
| VideoJson.ReachedPutStored | ytm.py:265-289 | an assignment reached before any KeyError is stored |
| VideoJson.StoredWasReached | ytm.py:265-289 | a stored pair was assigned before any KeyError or ValueError |
| VideoJson.StepFor | ytm.py:266-286 | the assignment for a key stores only that key |
| VideoJson.LeadingPutsStored | ytm.py:266-267 | the id and the URL are always stored first |
| VideoJson.ConstructVideoJson | ytm.py:218-291 | no item gives None and an item gives a record or an error; an item without `contentDetails.duration` raises KeyError; otherwise the result is a record iff the fill does not raise, and it is then the fill's record; an HTTP error other than `commentsDisabled` escapes; a built record starts with the id and the URL |
| VideoJson.CompleteResponseBuilds | ytm.py:218-291 | when the comment request does not escape, a response with every requested field present and every count a digit run builds a record, and that record holds `date_published` |
| VideoJson.StoredInStepOrder | ytm.py:265-286 | the caught-`KeyError` fill stores pairs in the order of the assignments that put them |
| VideoJson.KeysInInsertionOrder | ytm.py:265-286 | a built record lists its keys in the order the source assigns them, each key at most once, as a Python dict keeps insertion order |
| VideoJson.CommentsOf | ytm.py:237-255 | fetched comments pass through with comments enabled; an HTTP error is caught iff its reason is `commentsDisabled`, which gives the single marker comment and comments disabled; any other reason raises that HTTP error |
| VideoJson.DurationField | ytm.py:256-272 | the stored duration is the parse of `contentDetails.duration` |
| VideoJson.LikesField | ytm.py:274-277 | `likes` is -1 without `likeCount`, else its parsed value |
| VideoJson.CommentsField | ytm.py:237-283 | with comments disabled the comments are exactly the marker; otherwise the fetched texts |
| VideoJson.CommentsCountField | ytm.py:278-282 | with comments disabled `comments_count` is -1; otherwise the parsed `commentCount` |
| VideoJson.TagsStoredAfterComments | ytm.py:283-285 | once the comments are stored, the snippet's tags are stored too |
| VideoJson.TagsOnlyFromSnippet | ytm.py:284-285 | stored tags come from the snippet's tags |
| VideoJson.TagsOfSteps | ytm.py:283-285 | once the comments are stored, `tags` is present iff the snippet has tags |
| VideoJson.TagsField | ytm.py:283-285 | a built record that reached the comments has `tags` iff the snippet has tags, and then holds them |
| VideoJson.DisabledCommentsVoteNotCall | ytm.py:249-253 | a video with disabled comments is voted NOTCALL by `comments_disabled` |

## Left out

- Snorkel's `LabelModel` fit, score and predict (lines 49-60 of `snorkelling/run_main.py`). They are foreign numerical code; the model stops at the matrices and label vectors handed to it.
- NLTK's VADER analyser: `TranscriptVoters.TranscriptSentiment` takes the scorer as a parameter.
- Reading pickles: the loader is a parameter of `RunMain`.
- Printing, and the `__main__` blocks of `format_diarization.py` and `ytm.py`.
- The YouTube API client, its calls, search and pagination; OAuth and pickled clients; downloads through yt-dlp, youtube-dl and pytube; pydub cropping; the Mongo wrapper. These are network, file I/O or foreign libraries. The first `videos().list` item and the comment request's outcome are parameters of `ConstructVideoJson`.
- Unicode: lower-casing, `\w`, `\d` and `int()` are modelled on ASCII.
- Floating point: times and shares are exact reals, so rounding at a threshold is not modelled.
- `pd.NA` as a general value: a record's transcription is either missing or a list of segments with its flattened block.
- Annotation values other than booleans, integers, strings, None and NaN.
- Response shapes: the three requested parts of the API response are assumed present. The type of a snippet value is taken as given.
- VideoJson.ParseInt: accepts plain ASCII digit runs only. Python's `int()` also takes a sign, surrounding whitespace and underscores.
- VideoJson.CommentsOf: the HTTP error's reason is given directly. An error with no details, which would raise `IndexError`, is not modelled.
- The keyword voters' ensures restate the voter's test. The partners that say more are the persistence lemmas and the registry's polarity lemmas.
