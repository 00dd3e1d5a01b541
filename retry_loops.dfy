/** The retry-loop detector (crashlens/detectors/retry_loops.py).

    The records of a trace that carry a prompt and a timestamp are bucketed
    by `hash(prompt) % 10000`, in the dict's insertion order; every bucket
    holding more than `max_retries` records becomes one detection. Python's
    `hash` is a parameter here: the grouping holds for whatever function the
    interpreter uses. */
module RetryLoops {
  import opened Common
  import opened Records
  import opened Detections
  import opened Grouping

  /** The number of prompt buckets. */
  const Buckets: int := 10000

  /** The bucket of a record, or `None` when the record is skipped because
      its prompt or its timestamp is missing or empty. */
  function Bucket(hash: string -> int, r: Record): Option<int> {
    if PromptOf(r) == "" || r.timestamp.None? then None else Some(hash(PromptOf(r)) % Buckets)
  }

  function BucketKey(hash: string -> int): Record -> Option<int> {
    r => Bucket(hash, r)
  }

  /** Every record in every bucket has a timestamp. */
  predicate AllStamped(groups: Groups<int, Record>) {
    forall k, r :: k in groups.members && r in groups.members[k] ==> r.timestamp.Some?
  }

  /** The timestamp of every record of a group, `None` where missing. */
  function Timestamps(group: seq<Record>): (r: seq<Option<int>>)
    ensures |r| == |group|
    ensures forall i :: 0 <= i < |group| ==> r[i] == group[i].timestamp
  {
    if group == [] then [] else Timestamps(group[..|group| - 1]) + [group[|group| - 1].timestamp]
  }

  /** A retry-loop detection for one bucket of a trace. */
  function RetryDetection(traceId: string, group: seq<Record>): Detection
    requires group != []
  {
    Detection(
      traceId := Some(traceId),
      kind := "retry_loop",
      severity := Some(Severity(|group|)),
      wasteTokens := Some(TotalCompletionTokens(group)),
      wasteCost := Some(TotalCost(group)),
      samplePrompt := Some(SamplePrompt(PromptOf(group[0]))),
      modelUsed := None,
      suggestedModel := None,
      details := RetryLoopDetails(|group|, Span(Timestamps(group)), group),
      suppressedBy := Unset,
      suppressionReason := None,
      detector := None)
  }

  /** The buckets of a record list, as `_group_by_prompt` returns them. */
  function PromptGroups(hash: string -> int, records: seq<Record>): Groups<int, Record> {
    GroupBy(records, BucketKey(hash))
  }

  lemma {:induction false} GroupByStamped(hash: string -> int, records: seq<Record>)
    ensures AllStamped(PromptGroups(hash, records))
  {
    GroupByMembers(records, BucketKey(hash));
    var g := PromptGroups(hash, records);
    forall k, r | k in g.members && r in g.members[k] ensures r.timestamp.Some? {
      assert r in Keyed(records, BucketKey(hash), k);
    }
  }

  /** `RetryLoopDetector(max_retries=3, time_window_minutes=5)`. */
  datatype RetryLoopDetector = RetryLoopDetector(maxRetries: int, timeWindowMinutes: int)
  {
    /** The detections for the buckets `keys` (in that order) of one trace:
        one per bucket holding more than `max_retries` records. */
    function Flagged(traceId: string, groups: Groups<int, Record>, keys: seq<int>): seq<Detection> {
      if keys == [] then []
      else
        var init := Flagged(traceId, groups, keys[..|keys| - 1]);
        var k := keys[|keys| - 1];
        if k in groups.members && |groups.members[k]| > maxRetries && groups.members[k] != []
        then init + [RetryDetection(traceId, groups.members[k])]
        else init
    }

    /** The detections of one trace. */
    function TraceDetections(hash: string -> int, t: TraceEntry): seq<Detection> {
      var groups := PromptGroups(hash, t.records);
      Flagged(t.traceId, groups, groups.order)
    }

    /** `detect(traces)`: the traces in the dict's order. */
    function DetectAll(hash: string -> int, traces: seq<TraceEntry>): seq<Detection> {
      if traces == [] then []
      else DetectAll(hash, traces[..|traces| - 1]) + TraceDetections(hash, traces[|traces| - 1])
    }

    // -------------------------------------------------------------------
    // Properties
    // -------------------------------------------------------------------

    lemma {:induction false} FlaggedMembers(traceId: string, groups: Groups<int, Record>, keys: seq<int>)
      ensures |Flagged(traceId, groups, keys)| <= |keys|
      ensures forall d :: d in Flagged(traceId, groups, keys) ==>
        exists k :: k in keys && k in groups.members && |groups.members[k]| > maxRetries
                    && groups.members[k] != [] && d == RetryDetection(traceId, groups.members[k])
      ensures forall k :: k in keys && k in groups.members && |groups.members[k]| > maxRetries && groups.members[k] != [] ==>
        RetryDetection(traceId, groups.members[k]) in Flagged(traceId, groups, keys)
    {
      if keys != [] {
        var init := keys[..|keys| - 1];
        FlaggedMembers(traceId, groups, init);
        assert forall k :: k in keys <==> k in init || k == keys[|keys| - 1];
      }
    }

    lemma {:induction false} FlaggedNone(traceId: string, groups: Groups<int, Record>, keys: seq<int>)
      requires forall k :: k in groups.members ==> |groups.members[k]| <= maxRetries
      ensures Flagged(traceId, groups, keys) == []
    {
      if keys != [] {
        FlaggedNone(traceId, groups, keys[..|keys| - 1]);
      }
    }

    /** The bucket under key `b` of a trace's grouping is exactly the
        trace's records with a non-empty prompt, a timestamp and bucket `b`,
        in input order, and is never empty. */
    lemma BucketFacts(hash: string -> int, records: seq<Record>, b: int)
      requires b in PromptGroups(hash, records).members
      ensures var g := PromptGroups(hash, records).members[b];
        && g == Keyed(records, BucketKey(hash), b) && g != []
        && 0 <= b < Buckets
        && (forall r :: r in g <==> r in records && PromptOf(r) != "" && r.timestamp.Some? && hash(PromptOf(r)) % Buckets == b)
    {
      GroupByMembers(records, BucketKey(hash));
      KeyedMembers(records, BucketKey(hash), b);
      var g := PromptGroups(hash, records).members[b];
      assert g[0] in g;
    }

    /** Each detection of a trace reports one bucket of its records: the
        records of the trace with a non-empty prompt, a timestamp and that
        bucket, in input order; there are more than `max_retries` of them,
        the detection counts them, and its severity and waste follow from
        them. */
    lemma TraceDetectionsSound(hash: string -> int, t: TraceEntry)
      ensures forall d :: d in TraceDetections(hash, t) ==>
        && d.traceId == Some(t.traceId) && d.kind == "retry_loop"
        && d.details.RetryLoopDetails?
        && d.details.retryCount == |d.details.records| > maxRetries
        && (exists b :: 0 <= b < Buckets && d.details.records == Keyed(t.records, BucketKey(hash), b)
             && (forall r :: r in d.details.records <==>
                  r in t.records && PromptOf(r) != "" && r.timestamp.Some? && hash(PromptOf(r)) % Buckets == b))
        && d.severity == Some(Severity(d.details.retryCount))
        && d.wasteTokens == Some(TotalCompletionTokens(d.details.records))
    {
      var groups := PromptGroups(hash, t.records);
      FlaggedMembers(t.traceId, groups, groups.order);
      forall d | d in TraceDetections(hash, t)
        ensures exists b :: (0 <= b < Buckets && d.details.records == Keyed(t.records, BucketKey(hash), b)
             && (forall r :: r in d.details.records <==>
                  r in t.records && PromptOf(r) != "" && r.timestamp.Some? && hash(PromptOf(r)) % Buckets == b))
      {
        var k :| k in groups.order && k in groups.members && |groups.members[k]| > maxRetries
                 && groups.members[k] != [] && d == RetryDetection(t.traceId, groups.members[k]);
        BucketFacts(hash, t.records, k);
      }
    }

    /** Every bucket of a trace holding more than `max_retries` records is
        reported. */
    lemma TraceDetectionsComplete(hash: string -> int, t: TraceEntry, b: int)
      requires |Keyed(t.records, BucketKey(hash), b)| > maxRetries && Keyed(t.records, BucketKey(hash), b) != []
      ensures RetryDetection(t.traceId, Keyed(t.records, BucketKey(hash), b)) in TraceDetections(hash, t)
    {
      var groups := PromptGroups(hash, t.records);
      GroupByMembers(t.records, BucketKey(hash));
      GroupByOrder(t.records, BucketKey(hash));
      FlaggedMembers(t.traceId, groups, groups.order);
    }

    lemma OrderedBuckets(hash: string -> int, records: seq<Record>)
      ensures forall k :: k in PromptGroups(hash, records).order ==>
        k in PromptGroups(hash, records).members && PromptGroups(hash, records).members[k] != []
    {
      GroupByMembers(records, BucketKey(hash));
      GroupByOrder(records, BucketKey(hash));
    }

    /** The source groups by bucket only: a trace can never yield more
        detections than it has records beyond the threshold allows, and a
        trace with at most `max_retries` usable records yields none (three
        identical calls under the default `max_retries` of 3 are not a
        retry loop). */
    lemma FewRecordsNotFlagged(hash: string -> int, t: TraceEntry)
      requires |t.records| <= maxRetries
      ensures TraceDetections(hash, t) == []
    {
      var key := BucketKey(hash);
      var groups := PromptGroups(hash, t.records);
      GroupByMembers(t.records, key);
      FlaggedNone(t.traceId, groups, groups.order);
    }

    /** Records with the same non-empty prompt that both carry a timestamp
        always share a bucket, whatever `hash` is and however far apart in
        time they are. */
    lemma SamePromptSameBucket(hash: string -> int, t: TraceEntry, i: nat, j: nat)
      requires i < |t.records| && j < |t.records|
      requires PromptOf(t.records[i]) != "" && PromptOf(t.records[i]) == PromptOf(t.records[j])
      requires t.records[i].timestamp.Some? && t.records[j].timestamp.Some?
      ensures var groups := PromptGroups(hash, t.records); var k := Bucket(hash, t.records[i]).value;
        k in groups.members && t.records[i] in groups.members[k] && t.records[j] in groups.members[k]
    {
      var key := BucketKey(hash);
      var k := Bucket(hash, t.records[i]).value;
      GroupByMembers(t.records, key);
      KeyedMembers(t.records, key, k);
      assert t.records[i] in Keyed(t.records, key, k) && t.records[j] in Keyed(t.records, key, k);
    }

    // -------------------------------------------------------------------
    // The detector's methods
    // -------------------------------------------------------------------

    /** `_group_by_prompt`: skip the records without prompt or timestamp,
        open the bucket on first use, and append the record. The scan for a
        record of the bucket within the time window sets `should_add` to the
        value it already has, so the window never keeps a record out. */
    method GroupByPrompt(hash: string -> int, records: seq<Record>) returns (groups: Groups<int, Record>)
      ensures groups == PromptGroups(hash, records)
    {
      groups := Groups([], map[]);
      for i := 0 to |records|
        invariant groups == PromptGroups(hash, records[..i])
      {
        assert records[..i + 1][..i] == records[..i];
        GroupByStamped(hash, records[..i]);
        var record := records[i];
        var prompt := PromptOf(record);
        var timestamp := record.timestamp;
        if prompt == "" || timestamp.None? {
          continue;
        }
        var promptHash := hash(prompt) % Buckets;
        ghost var before := groups;
        if promptHash !in groups.members {
          groups := Groups(groups.order + [promptHash], groups.members[promptHash := []]);
        }
        var recordTime := timestamp.value;
        var shouldAdd := true;
        var existingRecords := groups.members[promptHash];
        for j := 0 to |existingRecords|
          invariant shouldAdd
        {
          assert existingRecords[j] in existingRecords;
          var existingTime := existingRecords[j].timestamp.value;
          if Abs(recordTime - existingTime) <= timeWindowMinutes * 60 {
            shouldAdd := true;
            break;
          }
        }
        ghost var withBucket := groups;
        if shouldAdd {
          groups := groups.(members := groups.members[promptHash := groups.members[promptHash] + [record]]);
        }
        if promptHash !in before.members {
          assert withBucket.members[promptHash] + [record] == [record];
          assert groups.members == before.members[promptHash := [record]];
        }
      }
      assert records[..|records|] == records;
    }

    /** `detect(traces)`: for each trace in order, each bucket with more than
        `max_retries` records becomes a detection. */
    /** `Flagged` grows by at most the detection of the next key. */
    lemma FlaggedSnoc(traceId: string, groups: Groups<int, Record>, keys: seq<int>, j: int)
      requires 0 <= j < |keys|
      ensures Flagged(traceId, groups, keys[..j + 1]) == Flagged(traceId, groups, keys[..j]) +
        (var k := keys[j];
         if k in groups.members && |groups.members[k]| > maxRetries && groups.members[k] != []
         then [RetryDetection(traceId, groups.members[k])] else [])
    {
      assert keys[..j + 1][..j] == keys[..j];
    }

    /** The detection `detect` builds for one bucket above the limit. */
    method BuildDetection(traceId: string, group: seq<Record>) returns (detection: Detection)
      requires group != []
      ensures detection == RetryDetection(traceId, group)
    {
      var span := TimeSpan(Timestamps(group));
      detection := Detection(
        traceId := Some(traceId),
        kind := "retry_loop",
        severity := Some(if |group| > 5 then "high" else "medium"),
        wasteTokens := Some(TotalCompletionTokens(group)),
        wasteCost := Some(TotalCost(group)),
        samplePrompt := Some(SamplePrompt(PromptOf(group[0]))),
        modelUsed := None,
        suggestedModel := None,
        details := RetryLoopDetails(|group|, span, group),
        suppressedBy := Unset,
        suppressionReason := None,
        detector := None);
    }

    /** The prompt-group loop of `detect` for one trace: the groups, in
        order, with more than `max_retries` records. */
    method FlagGroups(traceId: string, promptGroups: Groups<int, Record>) returns (found: seq<Detection>)
      requires forall k :: k in promptGroups.order ==> k in promptGroups.members && promptGroups.members[k] != []
      ensures found == Flagged(traceId, promptGroups, promptGroups.order)
    {
      found := [];
      var keys := promptGroups.order;
      for j := 0 to |keys|
        invariant found == Flagged(traceId, promptGroups, keys[..j])
      {
        FlaggedSnoc(traceId, promptGroups, keys, j);
        var group := promptGroups.members[keys[j]];
        if |group| > maxRetries {
          var detection := BuildDetection(traceId, group);
          found := found + [detection];
        }
      }
      assert keys[..|keys|] == keys;
    }

    method Detect(hash: string -> int, traces: seq<TraceEntry>) returns (detections: seq<Detection>)
      ensures detections == DetectAll(hash, traces)
    {
      detections := [];
      for i := 0 to |traces|
        invariant detections == DetectAll(hash, traces[..i])
      {
        assert traces[..i + 1][..i] == traces[..i];
        var traceId := traces[i].traceId;
        var promptGroups := GroupByPrompt(hash, traces[i].records);
        OrderedBuckets(hash, traces[i].records);
        var found := FlagGroups(traceId, promptGroups);
        detections := detections + found;
      }
      assert traces[..|traces|] == traces;
    }
  }
}
