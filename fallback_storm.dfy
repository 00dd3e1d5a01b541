/** The fallback-storm detector (crashlens/detectors/fallback_storm.py).

    Within a trace, the records are sorted by start time and cut into runs:
    a record continues the current run when it starts within the time window
    of the run's last record, names a different model, and has a similar
    prompt. Every run that reaches the threshold becomes one detection. */
module FallbackStorm {
  import opened Common
  import opened Records
  import opened Detections

  const MissingStartTime: string := "KeyError: 'startTime'"

  /** `record.get('model', '')` */
  function ModelOf(r: Record): string { r.model.GetOr("") }

  /** `[r.get('model', 'unknown') for r in group]` */
  function ModelsOf(group: seq<Record>): (r: seq<string>)
    ensures |r| == |group|
    ensures forall i :: 0 <= i < |group| ==> r[i] == group[i].model.GetOr("unknown")
  {
    if group == [] then [] else ModelsOf(group[..|group| - 1]) + [group[|group| - 1].model.GetOr("unknown")]
  }

  /** `record['startTime']` of every record, `None` where missing. */
  function StartTimes(group: seq<Record>): (r: seq<Option<int>>)
    ensures |r| == |group|
    ensures forall i :: 0 <= i < |group| ==> r[i] == group[i].startTime
  {
    if group == [] then [] else StartTimes(group[..|group| - 1]) + [group[|group| - 1].startTime]
  }

  /** Every record has a start time. */
  predicate AllTimed(records: seq<Record>) {
    forall r :: r in records ==> r.startTime.Some?
  }

  /** `_is_similar_prompt`: both prompts non-empty, and either the same first
      50 characters or lengths less than 20 apart. */
  predicate IsSimilarPrompt(r1: Record, r2: Record) {
    var p1, p2 := PromptOf(r1), PromptOf(r2);
    p1 != "" && p2 != "" && (Take(p1, 50) == Take(p2, 50) || Abs(|p1| - |p2|) < 20)
  }

  /** The relation is symmetric, never holds for an empty or missing prompt,
      holds between any two records with the same non-empty prompt, and holds
      between prompts that agree on their first 50 characters however long
      they are. */
  lemma IsSimilarPromptFacts(r1: Record, r2: Record)
    ensures IsSimilarPrompt(r1, r2) <==> IsSimilarPrompt(r2, r1)
    ensures PromptOf(r1) == "" ==> !IsSimilarPrompt(r1, r2) && !IsSimilarPrompt(r2, r1)
    ensures PromptOf(r1) != "" && PromptOf(r1) == PromptOf(r2) ==> IsSimilarPrompt(r1, r2)
    ensures PromptOf(r1) != "" && PromptOf(r2) != "" && Take(PromptOf(r1), 50) == Take(PromptOf(r2), 50)
            ==> IsSimilarPrompt(r1, r2)
  {
  }

  /** A storm detection for one group of a trace. */
  function StormDetection(traceId: string, group: seq<Record>): Detection
    requires group != []
  {
    Detection(
      traceId := Some(traceId),
      kind := "fallback_storm",
      severity := Some(Severity(|group|)),
      wasteTokens := Some(TotalCompletionTokens(group)),
      wasteCost := Some(TotalCost(group)),
      samplePrompt := Some(SamplePrompt(PromptOf(group[0]))),
      modelUsed := None,
      suggestedModel := None,
      details := FallbackStormDetails(|group|, Dedup(ModelsOf(group)), Span(StartTimes(group)), group),
      suppressedBy := Unset,
      suppressionReason := None,
      detector := None)
  }

  function Last(g: seq<Record>): Record
    requires g != []
  {
    g[|g| - 1]
  }

  /** Runs of a sequence of groups laid end to end. */
  function Flatten(groups: seq<seq<Record>>): seq<Record> {
    if groups == [] then [] else Flatten(groups[..|groups| - 1]) + groups[|groups| - 1]
  }

  lemma FlattenSnoc(groups: seq<seq<Record>>, g: seq<Record>)
    ensures Flatten(groups + [g]) == Flatten(groups) + g
  {
    assert (groups + [g])[..|groups|] == groups;
  }

  /** `FallbackStormDetector(fallback_threshold=3, time_window_minutes=10)`. */
  datatype FallbackStormDetector = FallbackStormDetector(fallbackThreshold: int, timeWindowMinutes: int)
  {
    /** The condition under which `next` joins the run ending in `prev`. */
    predicate Continues(prev: Record, next: Record) {
      && Abs(StartOf(next) - StartOf(prev)) <= timeWindowMinutes * 60
      && ModelOf(next) != ModelOf(prev)
      && IsSimilarPrompt(next, prev)
    }

    /** Every record of the group continues the run of its predecessor. */
    predicate Linked(group: seq<Record>) {
      forall j :: 0 < j < |group| ==> Continues(group[j - 1], group[j])
    }

    /** The maximal runs the loop of `_find_fallback_patterns` builds, before
        the threshold is applied. */
    function Runs(s: seq<Record>): (r: seq<seq<Record>>)
      ensures s != [] <==> r != []
      ensures forall k :: 0 <= k < |r| ==> r[k] != []
    {
      if s == [] then []
      else
        var runs := Runs(s[..|s| - 1]);
        var x := s[|s| - 1];
        if runs == [] then [[x]]
        else
          var g := runs[|runs| - 1];
          if Continues(Last(g), x) then runs[..|runs| - 1] + [g + [x]] else runs + [[x]]
    }

    /** No run could have been extended by the first record of the next. */
    predicate Maximal(runs: seq<seq<Record>>) {
      forall k :: 0 <= k < |runs| - 1 && runs[k] != [] && runs[k + 1] != [] ==> !Continues(Last(runs[k]), runs[k + 1][0])
    }

    /** The runs that reach the threshold, in order. */
    function KeepLarge(runs: seq<seq<Record>>): seq<seq<Record>> {
      if runs == [] then []
      else
        var init := KeepLarge(runs[..|runs| - 1]);
        if |runs[|runs| - 1]| >= fallbackThreshold then init + [runs[|runs| - 1]] else init
    }

    /** `_find_fallback_patterns(records)`. Fewer than two records give no
        group; otherwise a record without a start time makes the source raise
        `KeyError`. */
    function FallbackPatterns(records: seq<Record>): Result<seq<seq<Record>>> {
      if |records| < 2 then Ok([])
      else if !AllTimed(records) then Err(MissingStartTime)
      else Ok(KeepLarge(Runs(SortByStart(records))))
    }

    /** The storm detections of one trace, one per group that reaches the
        threshold. */
    function TraceDetections(traceId: string, groups: seq<seq<Record>>): seq<Detection> {
      if groups == [] then []
      else
        var init := TraceDetections(traceId, groups[..|groups| - 1]);
        var g := groups[|groups| - 1];
        if |g| >= fallbackThreshold && g != [] then init + [StormDetection(traceId, g)] else init
    }

    /** `detect(traces)`: the traces in order; the first trace whose records
        make `_find_fallback_patterns` raise makes the whole call raise. */
    function DetectAll(traces: seq<TraceEntry>): Result<seq<Detection>> {
      if traces == [] then Ok([])
      else
        match DetectAll(traces[..|traces| - 1])
        case Err(e) => Err(e)
        case Ok(ds) =>
          var t := traces[|traces| - 1];
          match FallbackPatterns(t.records)
          case Err(e) => Err(e)
          case Ok(groups) => Ok(ds + TraceDetections(t.traceId, groups))
    }

    // -------------------------------------------------------------------
    // Properties of the runs
    // -------------------------------------------------------------------

    /** Laid end to end, the runs give the records back. */
    lemma {:induction false} RunsFlatten(s: seq<Record>)
      ensures Flatten(Runs(s)) == s
    {
      if s != [] {
        var init := s[..|s| - 1];
        var x := s[|s| - 1];
        RunsFlatten(init);
        var runs := Runs(init);
        assert s == init + [x];
        if runs != [] {
          var g := runs[|runs| - 1];
          var front := runs[..|runs| - 1];
          assert runs == front + [g];
          FlattenSnoc(front, g);
          if Continues(Last(g), x) {
            FlattenSnoc(front, g + [x]);
          } else {
            FlattenSnoc(runs, [x]);
          }
        } else {
          assert Flatten([[x]]) == Flatten([]) + [x];
        }
      }
    }

    /** Every record of a run continues the run of its predecessor. */
    lemma {:induction false} RunsLinked(s: seq<Record>)
      ensures forall k :: 0 <= k < |Runs(s)| ==> Linked(Runs(s)[k])
    {
      if s != [] {
        var init := s[..|s| - 1];
        var x := s[|s| - 1];
        RunsLinked(init);
        var runs := Runs(init);
        if runs != [] {
          var g := runs[|runs| - 1];
          if Continues(Last(g), x) {
            assert Linked(g);
            forall j | 0 < j < |g + [x]| ensures Continues((g + [x])[j - 1], (g + [x])[j]) {
              if j < |g| {
                assert (g + [x])[j - 1] == g[j - 1] && (g + [x])[j] == g[j];
              }
            }
          }
        }
      }
    }

    /** A run ends only where the next record does not continue it. */
    lemma {:induction false} RunsMaximal(s: seq<Record>)
      ensures Maximal(Runs(s))
    {
      if s != [] {
        var init := s[..|s| - 1];
        var x := s[|s| - 1];
        RunsMaximal(init);
        var runs := Runs(init);
        if runs != [] {
          var g := runs[|runs| - 1];
          var r := Runs(s);
          if Continues(Last(g), x) {
            forall k | 0 <= k < |r| - 1 && r[k] != [] && r[k + 1] != [] ensures !Continues(Last(r[k]), r[k + 1][0]) {
              if k + 1 < |runs| - 1 {
                assert r[k] == runs[k] && r[k + 1] == runs[k + 1];
              } else {
                assert r[k] == runs[k];
                assert r[k + 1][0] == g[0] == runs[k + 1][0];
              }
            }
          } else {
            forall k | 0 <= k < |r| - 1 && r[k] != [] && r[k + 1] != [] ensures !Continues(Last(r[k]), r[k + 1][0]) {
              if k + 1 < |runs| {
                assert r[k] == runs[k] && r[k + 1] == runs[k + 1];
              }
            }
          }
        }
      }
    }

    /** One more record either extends the last run or starts a new one. */
    lemma RunsSnoc(s: seq<Record>, i: nat, closed: seq<seq<Record>>, current: seq<Record>)
      requires 0 < i < |s| && current != []
      requires Runs(s[..i]) == closed + [current]
      ensures Continues(Last(current), s[i]) ==> Runs(s[..i + 1]) == closed + [current + [s[i]]]
      ensures !Continues(Last(current), s[i]) ==> Runs(s[..i + 1]) == (closed + [current]) + [[s[i]]]
    {
      assert s[..i + 1][..i] == s[..i];
      assert (closed + [current])[..|closed|] == closed;
    }

    /** The runs the loop of `_find_fallback_patterns` still produces from
        record `i` on, having closed `closed` and holding `current` open. */
    function RunsFrom(s: seq<Record>, i: nat, closed: seq<seq<Record>>, current: seq<Record>): seq<seq<Record>>
      requires i <= |s| && current != []
      decreases |s| - i
    {
      if i == |s| then closed + [current]
      else if Continues(Last(current), s[i]) then RunsFrom(s, i + 1, closed, current + [s[i]])
      else RunsFrom(s, i + 1, closed + [current], [s[i]])
    }

    /** Scanning forward from any prefix's runs completes the runs of the
        whole sequence. */
    lemma {:induction false} RunsFromCompletes(s: seq<Record>, i: nat, closed: seq<seq<Record>>, current: seq<Record>)
      requires 0 < i <= |s| && current != []
      requires Runs(s[..i]) == closed + [current]
      ensures RunsFrom(s, i, closed, current) == Runs(s)
      decreases |s| - i
    {
      if i == |s| {
        assert s[..i] == s;
      } else {
        RunsSnoc(s, i, closed, current);
        if Continues(Last(current), s[i]) {
          RunsFromCompletes(s, i + 1, closed, current + [s[i]]);
        } else {
          RunsFromCompletes(s, i + 1, closed + [current], [s[i]]);
        }
      }
    }

    lemma KeepLargeSnoc(runs: seq<seq<Record>>, g: seq<Record>)
      ensures KeepLarge(runs + [g]) == if |g| >= fallbackThreshold then KeepLarge(runs) + [g] else KeepLarge(runs)
    {
      assert (runs + [g])[..|runs|] == runs;
    }

    /** `KeepLarge` keeps exactly the runs that reach the threshold. */
    lemma {:induction false} KeepLargeFacts(runs: seq<seq<Record>>)
      ensures forall g :: g in KeepLarge(runs) <==> g in runs && |g| >= fallbackThreshold
    {
      if runs != [] {
        KeepLargeFacts(runs[..|runs| - 1]);
        forall g | g in runs && |g| >= fallbackThreshold ensures g in KeepLarge(runs) {
          if g != runs[|runs| - 1] {
            assert g in runs[..|runs| - 1];
          }
        }
      }
    }

    /** A record without a start time is in the records exactly when it is
        in their sorted copy. */
    lemma SortedTimed(records: seq<Record>)
      ensures AllTimed(SortByStart(records)) <==> AllTimed(records)
      ensures |SortByStart(records)| == |records|
    {
      SortByStartFacts(records);
      assert forall x :: x in records <==> x in multiset(SortByStart(records));
    }

    /** What `_find_fallback_patterns` returns: nothing for fewer than two
        records, an error exactly when two or more records are given and
        one lacks a start time, and otherwise exactly the runs of the
        start-time-sorted records that reach the threshold, in order; the
        runs cut the sorted records into consecutive linked pieces, each
        ending only where the next record does not continue it. */
    lemma FallbackPatternsFacts(records: seq<Record>)
      ensures |records| < 2 ==> FallbackPatterns(records) == Ok([])
      ensures FallbackPatterns(records).Err? <==> |records| >= 2 && !AllTimed(records)
      ensures FallbackPatterns(records).Ok? && |records| >= 2 ==>
        var sorted := SortByStart(records);
        && SortedByStart(sorted) && multiset(sorted) == multiset(records)
        && Flatten(Runs(sorted)) == sorted
        && (forall k :: 0 <= k < |Runs(sorted)| ==> Linked(Runs(sorted)[k]))
        && Maximal(Runs(sorted))
        && FallbackPatterns(records).value == KeepLarge(Runs(sorted))
        && (forall g :: g in FallbackPatterns(records).value <==> g in Runs(sorted) && |g| >= fallbackThreshold)
    {
      if |records| >= 2 && AllTimed(records) {
        var sorted := SortByStart(records);
        SortByStartFacts(records);
        RunsFlatten(sorted);
        RunsLinked(sorted);
        RunsMaximal(sorted);
        KeepLargeFacts(Runs(sorted));
      }
    }

    /** Every storm detection comes from one group of its trace that reaches
        the threshold: it is of type `fallback_storm`, counts the group's
        records, lists the group's distinct models in order of first
        appearance (`unknown` for a missing model), and is `high` exactly
        when the group has more than five records. */
    lemma {:induction false} TraceDetectionsFacts(traceId: string, groups: seq<seq<Record>>)
      ensures |TraceDetections(traceId, groups)| <= |groups|
      ensures forall d :: d in TraceDetections(traceId, groups) ==>
        && d.traceId == Some(traceId) && d.kind == "fallback_storm"
        && d.details.FallbackStormDetails?
        && d.details.records in groups
        && d.details.fallbackCount == |d.details.records| >= fallbackThreshold
        && d.details.records != []
        && Distinct(d.details.modelsSequence)
        && (forall m :: m in d.details.modelsSequence <==> m in ModelsOf(d.details.records))
        && d.details.modelsSequence != []
        && d.details.modelsSequence[0] == ModelsOf(d.details.records)[0]
        && (d.severity == Some("high") <==> d.details.fallbackCount > 5)
        && d.severity == Some(Severity(d.details.fallbackCount))
        && d.samplePrompt == Some(SamplePrompt(PromptOf(d.details.records[0])))
        && d.wasteTokens == Some(TotalCompletionTokens(d.details.records))
        && d.wasteCost == Some(TotalCost(d.details.records))
    {
      if groups != [] {
        var init := groups[..|groups| - 1];
        var g := groups[|groups| - 1];
        TraceDetectionsFacts(traceId, init);
        if |g| >= fallbackThreshold && g != [] {
          DedupFacts(ModelsOf(g));
        }
      }
    }

    /** Conversely, every group that reaches the threshold yields its
        detection. */
    lemma {:induction false} TraceDetectionsComplete(traceId: string, groups: seq<seq<Record>>)
      ensures forall g :: g in groups && |g| >= fallbackThreshold && g != [] ==>
        StormDetection(traceId, g) in TraceDetections(traceId, groups)
    {
      forall g | g in groups && |g| >= fallbackThreshold && g != []
        ensures StormDetection(traceId, g) in TraceDetections(traceId, groups)
      {
        var k :| 0 <= k < |groups| && groups[k] == g;
        GroupYields(traceId, groups, k);
      }
    }

    /** The group at index `k`, when it reaches the threshold, yields its detection. */
    lemma {:induction false} GroupYields(traceId: string, groups: seq<seq<Record>>, k: nat)
      requires k < |groups| && |groups[k]| >= fallbackThreshold && groups[k] != []
      ensures StormDetection(traceId, groups[k]) in TraceDetections(traceId, groups)
      decreases |groups|
    {
      var init := groups[..|groups| - 1];
      var last := groups[|groups| - 1];
      if k == |groups| - 1 {
        assert TraceDetections(traceId, groups) == TraceDetections(traceId, init) + [StormDetection(traceId, last)];
      } else {
        assert init[k] == groups[k];
        GroupYields(traceId, init, k);
        var before := TraceDetections(traceId, init);
        if |last| >= fallbackThreshold && last != [] {
          var d := StormDetection(traceId, last);
          assert TraceDetections(traceId, groups) == before + [d];
        } else {
          assert TraceDetections(traceId, groups) == before;
        }
      }
    }

    /** When every group reaches the threshold there is exactly one detection
        per group. */
    lemma {:induction false} TraceDetectionsCount(traceId: string, groups: seq<seq<Record>>)
      requires forall g :: g in groups ==> |g| >= fallbackThreshold && g != []
      ensures |TraceDetections(traceId, groups)| == |groups|
    {
      if groups != [] {
        var init := groups[..|groups| - 1];
        assert forall g :: g in init ==> g in groups;
        TraceDetectionsCount(traceId, init);
      }
    }

    /** `detect` emits exactly one detection per group `_find_fallback_patterns`
        returns for a trace. */
    lemma OneDetectionPerGroup(traceId: string, records: seq<Record>)
      requires FallbackPatterns(records).Ok?
      ensures var groups := FallbackPatterns(records).value;
        && (forall g :: g in groups ==> g != [] && |g| >= fallbackThreshold)
        && |TraceDetections(traceId, groups)| == |groups|
        && forall g :: g in groups ==> StormDetection(traceId, g) in TraceDetections(traceId, groups)
    {
      var groups := FallbackPatterns(records).value;
      if |records| >= 2 {
        KeepLargeFacts(Runs(SortByStart(records)));
      }
      TraceDetectionsComplete(traceId, groups);
      TraceDetectionsCount(traceId, groups);
    }

    /** An error in an earlier trace is the result of the whole call. */
    lemma {:induction false} DetectAllErrStays(traces: seq<TraceEntry>, k: nat)
      requires k <= |traces| && DetectAll(traces[..k]).Err?
      ensures DetectAll(traces) == DetectAll(traces[..k])
      decreases |traces|
    {
      if k < |traces| {
        assert traces[..|traces| - 1][..k] == traces[..k];
        DetectAllErrStays(traces[..|traces| - 1], k);
      } else {
        assert traces[..k] == traces;
      }
    }

    // -------------------------------------------------------------------
    // The detector's methods
    // -------------------------------------------------------------------

    /** `_find_fallback_patterns`: fewer than two records give no group;
        otherwise the records are sorted by start time and scanned. */
    method FindFallbackPatterns(records: seq<Record>) returns (r: Result<seq<seq<Record>>>)
      ensures r == FallbackPatterns(records)
    {
      if |records| < 2 {
        return Ok([]);
      }
      var sortedRecords := SortByStart(records);
      SortedTimed(records);
      r := ScanSorted(sortedRecords);
    }

    /** The loop of `_find_fallback_patterns` over the sorted records: grow
        `current_group` while the next record continues it, otherwise close
        it (keeping it when it reaches the threshold) and open a new one.
        Reading the start time of a record that has none raises. */
    method ScanSorted(sortedRecords: seq<Record>) returns (r: Result<seq<seq<Record>>>)
      requires |sortedRecords| >= 2
      ensures r == if AllTimed(sortedRecords) then Ok(KeepLarge(Runs(sortedRecords))) else Err(MissingStartTime)
    {
      var fallbackGroups: seq<seq<Record>> := [];
      var currentGroup: seq<Record> := [sortedRecords[0]];
      ghost var closed: seq<seq<Record>> := [];
      assert sortedRecords[..1] == [sortedRecords[0]];
      RunsFromCompletes(sortedRecords, 1, closed, currentGroup);
      for i := 1 to |sortedRecords|
        invariant currentGroup != [] && Last(currentGroup) == sortedRecords[i - 1]
        invariant RunsFrom(sortedRecords, i, closed, currentGroup) == Runs(sortedRecords)
        invariant fallbackGroups == KeepLarge(closed)
        invariant forall j :: 0 < j < i ==> sortedRecords[j].startTime.Some?
        invariant i >= 2 ==> sortedRecords[0].startTime.Some?
      {
        var record := sortedRecords[i];
        var lastRecord := currentGroup[|currentGroup| - 1];
        if record.startTime.None? || lastRecord.startTime.None? {
          assert record in sortedRecords && lastRecord in sortedRecords;
          return Err(MissingStartTime);
        }
        var timeDiff := Abs(record.startTime.value - lastRecord.startTime.value);
        var currentModel := record.model.GetOr("");
        var lastModel := lastRecord.model.GetOr("");
        if timeDiff <= timeWindowMinutes * 60 && currentModel != lastModel && IsSimilarPrompt(record, lastRecord) {
          currentGroup := currentGroup + [record];
        } else {
          if |currentGroup| >= fallbackThreshold {
            fallbackGroups := fallbackGroups + [currentGroup];
          }
          KeepLargeSnoc(closed, currentGroup);
          closed := closed + [currentGroup];
          currentGroup := [record];
        }
      }
      assert AllTimed(sortedRecords) by {
        forall x | x in sortedRecords ensures x.startTime.Some? {
          var j :| 0 <= j < |sortedRecords| && sortedRecords[j] == x;
        }
      }
      if |currentGroup| >= fallbackThreshold {
        fallbackGroups := fallbackGroups + [currentGroup];
      }
      KeepLargeSnoc(closed, currentGroup);
      return Ok(fallbackGroups);
    }

    /** `detect(traces)`: for each trace in order, its groups that reach
        the threshold become detections. */
    method Detect(traces: seq<TraceEntry>) returns (r: Result<seq<Detection>>)
      ensures r == DetectAll(traces)
    {
      var detections: seq<Detection> := [];
      for i := 0 to |traces|
        invariant DetectAll(traces[..i]) == Ok(detections)
      {
        assert traces[..i + 1][..i] == traces[..i];
        var traceId := traces[i].traceId;
        var fallbackGroups := FindFallbackPatterns(traces[i].records);
        if fallbackGroups.Err? {
          assert DetectAll(traces[..i + 1]) == Err(fallbackGroups.error);
          DetectAllErrStays(traces, i + 1);
          return Err(fallbackGroups.error);
        }
        var groups := fallbackGroups.value;
        ghost var before := detections;
        for j := 0 to |groups|
          invariant detections == before + TraceDetections(traceId, groups[..j])
        {
          assert groups[..j + 1][..j] == groups[..j];
          var group := groups[j];
          if |group| >= fallbackThreshold && group != [] {
            var span := TimeSpan(StartTimes(group));
            var detection := Detection(
              traceId := Some(traceId),
              kind := "fallback_storm",
              severity := Some(if |group| > 5 then "high" else "medium"),
              wasteTokens := Some(TotalCompletionTokens(group)),
              wasteCost := Some(TotalCost(group)),
              samplePrompt := Some(SamplePrompt(PromptOf(group[0]))),
              modelUsed := None,
              suggestedModel := None,
              details := FallbackStormDetails(|group|, Dedup(ModelsOf(group)), span, group),
              suppressedBy := Unset,
              suppressionReason := None,
              detector := None);
            detections := detections + [detection];
          }
        }
        assert groups[..|groups|] == groups;
      }
      assert traces[..|traces|] == traces;
      return Ok(detections);
    }
  }
}
