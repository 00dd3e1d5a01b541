# Crashlens core, modelled in Dafny

Crashlens reads the JSONL logs of LLM API calls and looks in each trace (one
user request and the calls made for it) for waste. It looks for:

- retry loops: the same prompt sent again and again;
- fallback storms: rapid switches between models on the same prompt;
- expensive models used for short prompts.

A suppression engine then settles which detector "owns" each trace, so that
one root cause is reported once. A report step groups the detections that
remain.

This project models that core and proves properties of it:

- `suppression.dfy` models the detector priority table and the
  `SuppressionEngine`:
  - a pure specification (`Decide`, `Step`, `Run`, `Process`) about which
    the lemmas are proved;
  - the class `SuppressionEngine`, whose fields (the ownership map and the
    active and suppressed lists) its methods update in place. The class is
    proved to follow that specification.
- `fallback_storm.dfy`, `retry_loops.dfy`, `expensive_models.dfy`,
  `overkill.dfy`, `short_model.dfy` and `gpt4_short.dfy` model the pattern
  detectors:
  - each detector's loop is a method proved equal to a specification
    function;
  - the detection rules are proved about those functions.
- `langfuse.dfy` models the Langfuse parser, as the class `LangfuseParser`
  over already-decoded lines, and the per-trace summary.
- `slack_aggregation.dfy` models the grouping of detections done for the
  Slack report.
- Shared pieces:
  - `common.dfy`: Option/Result, the Python string operations used (lower,
    replace, strip, split, `in` on strings), filtering, de-duplication and
    sums;
  - `grouping.dfy`: insertion-ordered dict-of-lists grouping and counting;
  - `records.dfy`: call records, time spans, sorting by start time;
  - `detections.dfy`: the detection record.

Modelling conventions:

- Python dicts with a fixed set of keys become datatypes. A missing key is
  `None`.
- Insertion-ordered dicts become a key sequence paired with a map.
- Timestamps are whole seconds.
- Costs are `real`.
- Python's `hash` and `json.loads` are function parameters.
- Where the code raises an exception on some input, the model returns an
  error value instead of requiring that input away, except where listed
  under "Left out".

## Model

| member | source | states |
|---|---|---|
| Suppression.PriorityOrder | crashlens/cli_new.py:25-30 | The four known detectors rank 1 to 4 in a strict order: retry loop, fallback storm, fallback failure, overkill model. Any other name gets 999, below all of them. |
| Suppression.RetryLoopRanksFirst | crashlens/cli_new.py:25-30 | The retry-loop detector strictly outranks every other detector name. |
| Suppression.UnderscoreKeyNeverMatches | crashlens/cli_new.py:101 | The config key of a detector name without `_` (its lower-cased name with `detector` removed) never equals a key that contains `_`. So an entry such as `fallback_storm` is never read for `FallbackStormDetector`. |
| Common.SubstringAt | crashlens/cli_new.py:119 | The model of Python's `a in b` on strings holds iff `a` occurs in `b` at some position. |
| Suppression.Decide | crashlens/cli_new.py:63-93 | Classifies one detection, in the code's order. "No trace" holds iff the trace id is missing or empty. "Outranked" and "supersedes" occur only for an owned trace; they name its current owner, whose rank is strictly better, respectively strictly worse. "Claims" occurs only for an unowned trace or an owner of equal rank. |
| Suppression.ProcessNoTrace | crashlens/cli_new.py:64-67 | A detection without a trace id is returned and appended to the active list unchanged. Ownership and the suppressed list do not change. |
| Suppression.ProcessConfigSuppressed | crashlens/cli_new.py:70-72 | When the detector's config entry asks it and the retry-loop detector owns the trace, the detection is suppressed with reason `disabled_by_config`. Nothing is returned, and ownership and the active list do not change. |
| Suppression.ProcessOutranked | crashlens/cli_new.py:75-84 | Against an owner with a strictly better rank, the detection is suppressed with reason `higher_priority_detector:<owner>`. Owner and active list do not change. |
| Suppression.ProcessTakesOver | crashlens/cli_new.py:85-93 | Against an owner with a strictly worse rank, the active detections that pass the transfer test leave the active list, the rest keeping their order. Their copies, annotated with the old owner and `superseded_by:<detector>`, are appended to the suppressed list. Then the detector owns the trace and its detection is accepted. The configuration plays no part, because such an owner is never the retry-loop detector. |
| Suppression.ProcessAccepts | crashlens/cli_new.py:89-97 | On an unowned trace or an equal-rank owner, the detector becomes the owner. The detection, marked not suppressed, is appended to the active list and returned. |
| Suppression.TransferSplits | crashlens/cli_new.py:118-122 | The moved and the remaining detections split the active list exactly (as multisets). A detection is moved iff it is active, on the trace, and its normalised type occurs in the old owner's lower-cased name. |
| Suppression.SuppressAllFacts | crashlens/cli_new.py:125-126 | The i-th suppressed copy is the i-th moved detection annotated. The copies carry the same trace ids and the same detections once the annotation keys are removed. |
| Suppression.EmptyTypeAlwaysMoves | crashlens/cli_new.py:119 | A detection on the trace with an empty type passes the transfer test for any old owner. |
| Suppression.TypeWithForeignLetterStays | crashlens/cli_new.py:119 | A type containing a letter that the old owner's name lacks in either case never passes the transfer test. |
| Suppression.ShortModelTypeNotRecognised | crashlens/cli_new.py:119 | A detection of type `expensive_model_short` never passes the transfer test for `OverkillModelDetector`. |
| Suppression.UnrecognisedDetectionSurvivesTakeover | crashlens/cli_new.py:85-93 | When the retry-loop detector takes a trace over, an old-owner detection that fails the type test stays active beside the new detection. |
| Suppression.RetryLoopOwnershipIsFinal | crashlens/cli_new.py:70-84 | On a trace the retry-loop detector owns, every other detector's detection is suppressed, by config or as `higher_priority_detector:RetryLoopDetector`. Ownership and the active list do not change, and nothing is returned. |
| Suppression.RetryLoopTakesOver | crashlens/cli_new.py:85-93 | The retry-loop detector takes over any trace that another detector owns: the old owner's recognised detections move to the suppressed list and the new detection is accepted. |
| Suppression.ProcessConserves | crashlens/cli_new.py:56-97 | After one batch, the two lists together hold exactly the detections held before plus the batch (as a multiset, with the engine's own keys removed), so their total length grows by the batch size. The suppressed list is only appended to. The returned list is the tail of the stored active list. |
| Suppression.ProcessOwnership | crashlens/cli_new.py:75-93 | A batch only adds owned traces, and only traces of the batch. An owner is never replaced by a worse-ranked one. Every changed owner is the calling detector. |
| Suppression.ProcessConsistent | crashlens/cli_new.py:56-128 | The engine invariant is preserved. The traces named in the two lists are exactly the owned traces. Active detections with a trace are marked not suppressed. Every suppressed entry carries a trace, a reason of one of the three kinds, and `detector` equal to `suppressed_by`. |
| Suppression.ProcessKeepsValid | crashlens/cli_new.py:56-97 | The invariant, and the fact that the lists hold exactly every detection received so far, survive a batch. |
| Suppression.BreakdownCounts | crashlens/cli_new.py:137-140 | The breakdown lists each reason once, in order of first appearance, with the number of suppressed entries that give it. Reasons absent from it occur nowhere. Its counts sum to the number of suppressed entries. |
| Suppression.CountReasons | crashlens/cli_new.py:137-140 | The counting loop computes the breakdown. |
| Suppression.SuppressionEngine.constructor | crashlens/cli_new.py:47-54 | A new engine keeps its config and flag, owns no trace and holds no detection. |
| Suppression.SuppressionEngine.AddSuppressedDetection | crashlens/cli_new.py:104-110 | Appends one copy of the detection, annotated with detector and reason, to the suppressed list. Nothing else changes. |
| Suppression.SuppressionEngine.TransferOwnership | crashlens/cli_new.py:112-128 | The active list becomes the old owner's unrecognised detections in order. The recognised ones, annotated `superseded_by:<new owner>`, are appended to the suppressed list in order. |
| Suppression.SuppressionEngine.ProcessOne | crashlens/cli_new.py:63-93 | One iteration of the batch loop updates the fields and the local accepted list exactly as the specification step does. |
| Suppression.SuppressionEngine.ProcessDetections | crashlens/cli_new.py:56-97 | The new fields and the returned list are those of the specification `Process`, and the engine stays valid. |
| Suppression.SuppressionEngine.GetSuppressionSummary | crashlens/cli_new.py:130-148 | Changes no state. The trace count is the number of distinct non-empty trace ids in both lists, which equals the number of owned traces. The active and suppressed counts are the list lengths. The breakdown counts sum to the suppressed count. Ownership is returned as it stands. |
| Common.Strip | crashlens/parsers/langfuse.py:60-62 | A stripped line is empty iff the line is all whitespace; otherwise it neither starts nor ends with whitespace. |
| Common.StripIsSlice | crashlens/parsers/langfuse.py:60-62 | The stripped line is a slice of the line with only whitespace before and after it. |
| Common.WordCountFacts | crashlens/detectors/gpt4_short.py:38 | The word count of a prompt is zero iff the prompt is all whitespace, and never exceeds its length. |
| Common.DedupFacts | crashlens/detectors/fallback_storm.py:33 | Order-preserving de-duplication yields distinct elements, the same members as its input, and keeps the first element first. |
| Detections.SamplePromptShape | crashlens/detectors/fallback_storm.py:45 | A sample prompt is the prompt itself up to 100 characters. Otherwise it is the first 100 characters followed by `...` (103 characters). |
| Records.SpanIsWidestGap | crashlens/detectors/retry_loops.py:79-96 | The span is 0 with fewer than two records or fewer than two readable timestamps. Otherwise it is the largest difference between two readable timestamps, so it is non-negative. |
| Records.TimeSpan | crashlens/detectors/retry_loops.py:84-95 | The timestamp-collecting loop computes that span. |
| Records.SortByStartFacts | crashlens/detectors/fallback_storm.py:58 | Sorting by start time yields a list ordered by start time that is a permutation of the records. |
| Grouping.GroupByOrder | crashlens/detectors/retry_loops.py:61-75 | A dict-of-lists grouping lists each key once, in order of first appearance, and exactly the keys it maps. |
| Grouping.GroupByMembers | crashlens/detectors/retry_loops.py:61-75 | Each group holds, in input order, exactly the items with its key, and is non-empty. A key with no items has no group. |
| Grouping.GroupByTotal | crashlens/detectors/retry_loops.py:61-75 | The group sizes add up to the number of items that have a key. |
| Grouping.TallyOfFacts | crashlens/cli_new.py:137-140 | A counting dict lists each key once, counts its occurrences, and its counts add up to the number of keys counted. |
| FallbackStorm.IsSimilarPromptFacts | crashlens/detectors/fallback_storm.py:95-106 | Prompt similarity is symmetric and is false when either prompt is empty or missing. It holds for two equal non-empty prompts and for prompts that agree on their first 50 characters. |
| FallbackStorm.FallbackStormDetector.RunsFlatten | crashlens/detectors/fallback_storm.py:60-91 | The runs the loop builds, laid end to end, give back the sorted records. So they are disjoint, contiguous and in order. |
| FallbackStorm.FallbackStormDetector.RunsLinked | crashlens/detectors/fallback_storm.py:73-82 | Inside a run, every record starts within the time window of its predecessor, names a different model, and has a similar prompt. |
| FallbackStorm.FallbackStormDetector.RunsMaximal | crashlens/detectors/fallback_storm.py:83-87 | A run ends only where the next record does not continue it. |
| FallbackStorm.FallbackStormDetector.KeepLargeFacts | crashlens/detectors/fallback_storm.py:85-91 | The groups kept are exactly the runs that reach the threshold. |
| FallbackStorm.FallbackStormDetector.FallbackPatternsFacts | crashlens/detectors/fallback_storm.py:52-93 | Fewer than two records give no group. With two or more records, a missing start time raises, and only then. Otherwise the groups are the maximal linked runs of the time-sorted records that reach the threshold. |
| FallbackStorm.FallbackStormDetector.TraceDetectionsFacts | crashlens/detectors/fallback_storm.py:25-48 | At most one detection per group. Each is for one group of the trace, of type `fallback_storm`, with `fallback_count` equal to the group size, which is at least the threshold. `models_sequence` holds the group's distinct models, first one first. Severity is `high` iff the count exceeds 5. `waste_tokens` and `waste_cost` are the group's summed completion tokens and cost. `sample_prompt` is the first record's prompt, shortened. |
| FallbackStorm.FallbackStormDetector.TraceDetectionsComplete | crashlens/detectors/fallback_storm.py:25-48 | Every non-empty group of at least the threshold size yields its detection. |
| FallbackStorm.FallbackStormDetector.TraceDetectionsCount | crashlens/detectors/fallback_storm.py:25-48 | When every group reaches the threshold, there are exactly as many detections as groups. |
| FallbackStorm.FallbackStormDetector.OneDetectionPerGroup | crashlens/detectors/fallback_storm.py:21-48 | For a trace whose grouping succeeds, every group reaches the threshold, and `detect` emits exactly one detection per group, each group's own. |
| FallbackStorm.FallbackStormDetector.DetectAllErrStays | crashlens/detectors/fallback_storm.py:21-23 | Once a trace raises, the whole call raises with that error. |
| FallbackStorm.FallbackStormDetector.FindFallbackPatterns | crashlens/detectors/fallback_storm.py:52-93 | The method returns the groups of the specification, or its error. |
| FallbackStorm.FallbackStormDetector.ScanSorted | crashlens/detectors/fallback_storm.py:60-93 | The run-building loop over sorted records returns the runs that reach the threshold, or raises on a missing start time. |
| FallbackStorm.FallbackStormDetector.Detect | crashlens/detectors/fallback_storm.py:17-50 | The method returns the specification's detections, or its error. |
| RetryLoops.GroupByStamped | crashlens/detectors/retry_loops.py:52-56 | Every record in every bucket has a timestamp. |
| RetryLoops.RetryLoopDetector.BucketFacts | crashlens/detectors/retry_loops.py:52-75 | Bucket `b`, when present, is in `[0, 10000)` and is non-empty. It holds, in input order, exactly the records with a non-empty prompt, a timestamp, and `hash(prompt) % 10000 == b`. |
| RetryLoops.RetryLoopDetector.SamePromptSameBucket | crashlens/detectors/retry_loops.py:59-75 | Two timestamped records with the same non-empty prompt land in the same bucket, however far apart in time. |
| RetryLoops.RetryLoopDetector.FlaggedMembers | crashlens/detectors/retry_loops.py:25-43 | The detections of a trace are exactly one per bucket with more than `max_retries` records. |
| RetryLoops.RetryLoopDetector.FlaggedNone | crashlens/detectors/retry_loops.py:26 | No bucket above `max_retries` means no detection. |
| RetryLoops.RetryLoopDetector.TraceDetectionsSound | crashlens/detectors/retry_loops.py:21-43 | Every detection is of type `retry_loop` on its trace. Its records are one whole bucket, larger than `max_retries`. `retry_count` is the bucket size. Severity is `high` iff above 5. `waste_tokens` is the bucket's summed completion tokens. |
| RetryLoops.RetryLoopDetector.TraceDetectionsComplete | crashlens/detectors/retry_loops.py:25-43 | Every bucket larger than `max_retries` yields its detection. |
| RetryLoops.RetryLoopDetector.FewRecordsNotFlagged | crashlens/detectors/retry_loops.py:26 | A trace with at most `max_retries` records yields nothing. With the default of 3, three identical calls are not flagged. |
| RetryLoops.RetryLoopDetector.GroupByPrompt | crashlens/detectors/retry_loops.py:47-77 | The bucketing loop returns the specification's buckets. |
| RetryLoops.RetryLoopDetector.BuildDetection | crashlens/detectors/retry_loops.py:28-42 | Builds the specification's detection for one bucket. |
| RetryLoops.RetryLoopDetector.FlagGroups | crashlens/detectors/retry_loops.py:25-43 | The loop over the buckets returns the specification's detections for the trace. |
| RetryLoops.RetryLoopDetector.Detect | crashlens/detectors/retry_loops.py:17-45 | The method returns the specification's detections over all traces. |
| ExpensiveModelShort.RecordCostFacts | crashlens/detectors/overkill_model_detector.py:89-102 | With no pricing the record's own cost (0 if absent) is used. Otherwise a present record cost wins. Otherwise an unknown model costs 0. Non-negative inputs give a non-negative cost. The same code is at crashlens/detectors/short_model_detector.py:68-88. |
| ExpensiveModelShort.CostWithModelFacts | crashlens/detectors/overkill_model_detector.py:104-114 | A model missing from the pricing (including an empty pricing) costs 0. Otherwise the per-1k formula applies, and it is non-negative for non-negative inputs. The same code is at crashlens/detectors/short_model_detector.py:90-105. |
| ExpensiveModelShort.SavingsFacts | crashlens/detectors/overkill_model_detector.py:73 | Savings are never negative and are either 0 or the cost difference. They are at most the current cost when both costs are non-negative. |
| ExpensiveModelShort.WasteFlagFacts | crashlens/detectors/overkill_model_detector.py:64-86 | A record is flagged iff its lower-cased model is in the table and its token count (its own `prompt_tokens`, else the word count) is below the threshold. The detection wraps exactly that record and suggests the table's model. Its waste cost is clamped at 0 and covers the cost difference. |
| ExpensiveModelShort.DetectWasteFacts | crashlens/detectors/overkill_model_detector.py:62-87 | At most one detection per record. Every detection is some record's flag, and every flagged record's detection is present. |
| ExpensiveModelShort.CheckRecord | crashlens/detectors/overkill_model_detector.py:65-86 | The per-record body returns the specification's verdict. |
| ExpensiveModelShort.CheckTrace | crashlens/detectors/overkill_model_detector.py:64-86 | The loop over a trace's records returns the specification's detections for it. |
| OverkillModel.DetectExpensiveModelWaste | crashlens/detectors/overkill_model_detector.py:41-87 | The loop over all traces returns the detections of the shared rule. |
| OverkillModel.OverkillModelDetector.Detect | crashlens/detectors/overkill_model_detector.py:27-39 | Forwards to the shared rule with the detector's threshold. |
| ShortModel.ShortModelDetector.Detect | crashlens/detectors/short_model_detector.py:27-66 | Its nested loop returns the detections of the same rule as the overkill detector. |
| Gpt4Short.GPT4ShortDetector.EstimatedSavingsBounds | crashlens/detectors/gpt4_short.py:42-47 | For a multiplier above 1 and a non-negative cost, the savings `cost - cost / multiplier` lie in `[0, cost]` and are 0 only for a zero cost. |
| Gpt4Short.GPT4ShortDetector.VerdictFacts | crashlens/detectors/gpt4_short.py:31-62 | A record whose lower-cased model is in the table and whose prompt's word count is below the threshold raises `ZeroDivisionError` iff the multiplier is zero; otherwise it is flagged. No other record is flagged or raises. The record's own `prompt_tokens` never matters. The detection wraps that record with the table's suggestion. |
| Gpt4Short.GPT4ShortDetector.DetectFacts | crashlens/detectors/gpt4_short.py:27-64 | `detect` raises `ZeroDivisionError` iff the multiplier is zero and some record qualifies. Otherwise there is at most one detection per record. Every detection is some record's verdict, and every qualifying record's detection is present. |
| Gpt4Short.GPT4ShortDetector.CheckRecord | crashlens/detectors/gpt4_short.py:33-62 | The per-record body returns the specification's verdict, including the division error. |
| Gpt4Short.GPT4ShortDetector.CheckTrace | crashlens/detectors/gpt4_short.py:32-62 | The loop over a trace's records returns its detections. It returns the division error iff the multiplier is zero and a record of the trace qualifies. |
| Gpt4Short.GPT4ShortDetector.Detect | crashlens/detectors/gpt4_short.py:27-64 | The nested loop returns the specification's result, detections or the division error. |
| Langfuse.ExtractFieldsFacts | crashlens/parsers/langfuse.py:36-55 | Anything but a generation gives nothing. A generation raises iff `input`, `usage` or `metadata` holds a non-object. Otherwise the top-level fields are copied. Each nested field is read from its outer object when present, and reads as `None` when the outer object is missing. |
| Langfuse.LineVerdictFacts | crashlens/parsers/langfuse.py:59-73 | A blank line and an undecodable line store nothing. A stored record is a generation with a truthy, hashable trace id. |
| Langfuse.LineVerdictStores | crashlens/parsers/langfuse.py:59-73 | A line stores a record iff it is non-blank and decodes to a generation object whose `input`, `usage` and `metadata` can be read and whose trace id is truthy and hashable. The record stored is the one `_extract_fields` builds. |
| Langfuse.ParseErrors | crashlens/parsers/langfuse.py:57-74 | The parse ends without an exception iff no line raises, and an exception is the one some line raises. |
| Langfuse.ParseStopped | crashlens/parsers/langfuse.py:57-74 | An exception ends the parse, keeping what earlier lines stored. |
| Langfuse.ParseGroups | crashlens/parsers/langfuse.py:59-70 | From an empty state, the traces are the stored records grouped by trace id. |
| Langfuse.ParseFacts | crashlens/parsers/langfuse.py:59-70 | Trace ids are listed once each, in order of first appearance. Each trace holds, in line order, exactly its stored records. The trace sizes add up to the number of stored records. |
| Langfuse.ParseKeepsShape | crashlens/parsers/langfuse.py:67-70 | Every trace list is non-empty and holds generations filed under their own truthy trace id. |
| Langfuse.TotalizeUsage | crashlens/parsers/langfuse.py:97-101 | `model_usage` counts each record's model (default `unknown`) in order of first appearance. |
| Langfuse.SummarizeFacts | crashlens/parsers/langfuse.py:76-110 | An unknown trace gives the empty summary. Otherwise `total_records` is the trace's size and the `model_usage` counts add up to it. |
| Langfuse.TotalizeParsed | crashlens/parsers/langfuse.py:88-101 | Over records the parser stored, which have no `completion_tokens`, `cost` or `model` key, the totals are 0 tokens and 0 cost, with every record counted under `unknown`. |
| Langfuse.SummarizeParsed | crashlens/parsers/langfuse.py:76-110 | Hence the summary of any stored trace is that record count, 0 tokens, 0 cost, and all records under `unknown`. |
| Langfuse.AddRecordTo | crashlens/parsers/langfuse.py:88-101 | One loop iteration returns the specification's totals, or its exception. |
| Langfuse.TotalizeRecords | crashlens/parsers/langfuse.py:84-101 | The accumulation loop returns the specification's totals, or the first exception. |
| Langfuse.LangfuseParser.constructor | crashlens/parsers/langfuse.py:15-16 | A new parser holds no trace. |
| Langfuse.LangfuseParser.ParseLines | crashlens/parsers/langfuse.py:57-74 | Parsing extends the held traces exactly as the specification does from the current state, and returns them or the exception. |
| Langfuse.LangfuseParser.Parse | crashlens/parsers/langfuse.py:24-28 | Clearing then parsing leaves exactly the traces of the current input, from an empty state. |
| Langfuse.LangfuseParser.GetTraceSummary | crashlens/parsers/langfuse.py:76-110 | Returns the specification's summary of the held traces. |
| SlackAggregation.AggregateIsGrouping | crashlens/reporters/slack_formatter.py:141-180 | The aggregated keys are listed once each, in order of first appearance. Each group is the closed-form summary of exactly the detections with its key. |
| SlackAggregation.AggregateMembers | crashlens/reporters/slack_formatter.py:169-173 | Every detection lands in the group of its key, and a group holds exactly the detections with its key. |
| SlackAggregation.AggregateTotal | crashlens/reporters/slack_formatter.py:170 | The group counts add up to the number of detections. |
| SlackAggregation.AggregateGroupFacts | crashlens/reporters/slack_formatter.py:156-178 | A group is non-empty, counts its members, and takes type, models and severity from its first detection. Its waste tokens and cost are its members' sums. It keeps at most 3 distinct non-empty sample prompts. |
| SlackAggregation.SamplesFacts | crashlens/reporters/slack_formatter.py:176-178 | The kept prompts number at most 3, are distinct, non-empty and come from the members. While fewer than 3 are kept, every non-empty prompt of a member is kept. |
| SlackAggregation.AggregateOne | crashlens/reporters/slack_formatter.py:146-178 | One loop iteration makes the specification's update. |
| SlackAggregation.AggregateDetections | crashlens/reporters/slack_formatter.py:141-180 | The loop returns the specification's aggregation. |

## Left out

- Reading files and standard input, and `str.splitlines`. `Parse` receives the lines of one input; `parse_file`, `parse_string` and `parse_stdin` differ only in where the lines come from.
- JSON decoding. It is a parameter that yields `None` exactly where `json.loads` raises.
- The warning printed for an undecodable line.
- JSON values:
  - numbers are integers, so JSON floats are not represented;
  - Python's equality of `True` with `1` as a dict key is not modelled;
  - a key present with value `null` and a missing key are the same `None` in the record and detection datatypes. Where the source would then raise (for example, summing a present `None` cost), the model uses the default instead.
- Timestamps. ISO-8601 parsing is replaced by whole seconds, so a timestamp the source cannot parse (which raises in `_group_by_prompt`) is not represented. The time span is an integer number of seconds, not the `"%.1f seconds"` string.
- Python's `hash`. It is a parameter, because it is randomised per process.
- Costs are exact reals: no floating-point rounding and no formatting.
- Lower-casing. It is ASCII-only. Whitespace for `strip`/`split` is a fixed set of characters close to Python's.
- Sorting by start time compares the instants. The source compares the ISO-8601 text, which orders differently when time-zone offsets differ. The sort is an insertion sort that keeps equal start times in input order, but that stability is not proved.
- Aliasing:
  - Accepting a detection sets `suppressed_by` on the caller's own dict, and the returned list shares those dicts with the engine. The model works on values.
  - `trace_ownership.copy()` is returned as a value.
- `include_suppressed` is stored but never read by the engine, and is not read in the model either.
- Unused parameters:
  - `prompt_token_threshold` and `completion_token_threshold` of the overkill detector;
  - `gpt4_cost_multiplier` of the short-model detector;
  - the retry-loop time window.

  They are kept as fields but, as in the source, never decide anything.
- `SuppressionEngine._is_detector_suppressed` is the predicate `IsDetectorSuppressed`. It has no contract of its own; its meaning is stated through `ProcessConfigSuppressed` and `RetryLoopOwnershipIsFinal`.
- FallbackFailureDetector is not part of this model. It appears only as a name in the priority table.
- Outside the core:
  - the command-line interface;
  - detector orchestration;
  - YAML suppression and pricing config loading (configs arrive already parsed);
  - the report formatters and the rest of `SlackFormatter`;
  - detector display names;
  - cost estimation helpers.
