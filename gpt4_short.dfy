/** The GPT-4 short-prompt detector (crashlens/detectors/gpt4_short.py): the
    oldest of the three expensive-model detectors. It always estimates the
    prompt's tokens by its word count, ignores any pricing, and estimates
    the cheaper model's cost as the record's cost divided by
    `gpt4_cost_multiplier`. */
module Gpt4Short {
  import opened Common
  import opened Records
  import opened Detections
  import opened ExpensiveModelShort

  /** What Python raises for `current_cost / 0.0`. */
  const ZeroDivision: string := "ZeroDivisionError: float division by zero"

  /** `GPT4ShortDetector(min_tokens_for_gpt4=100, gpt4_cost_multiplier=20.0)`. */
  datatype GPT4ShortDetector = GPT4ShortDetector(minTokensForGpt4: int, gpt4CostMultiplier: real)
  {
    /** `current_cost - current_cost / gpt4_cost_multiplier` */
    function EstimatedSavings(currentCost: real): real
      requires gpt4CostMultiplier != 0.0
    {
      currentCost - currentCost / gpt4CostMultiplier
    }

    /** A record `detect` picks out: an expensive model and a prompt of
        fewer than `min_tokens_for_gpt4` words. */
    predicate Candidate(r: Record) {
      ModelKey(r) in ExpensiveModels && WordCount(PromptOf(r)) < minTokensForGpt4
    }

    /** The detection `detect` builds for a record; none when the record is
        not a candidate or when the savings estimate cannot be computed. */
    function Flag(traceId: string, r: Record): Option<Detection> {
      if Candidate(r) && gpt4CostMultiplier != 0.0 then
        var model := ModelKey(r);
        Some(ShortDetection(traceId, r, model, ExpensiveModels[model], WordCount(PromptOf(r)), EstimatedSavings(CostOf(r))))
      else None
    }

    function Rule(): (string, Record) -> Option<Detection> {
      (traceId, r) => Flag(traceId, r)
    }

    /** The verdict of `detect` on one record: a candidate under a zero
        multiplier makes the savings estimate divide by zero. */
    function Verdict(traceId: string, r: Record): Result<Option<Detection>> {
      if Candidate(r) && gpt4CostMultiplier == 0.0 then Err(ZeroDivision) else Ok(Flag(traceId, r))
    }

    /** Some record of the trace makes `detect` raise. */
    predicate TraceRaises(records: seq<Record>) {
      gpt4CostMultiplier == 0.0 && exists j :: 0 <= j < |records| && Candidate(records[j])
    }

    /** `detect(traces)`: the detections of every record of every trace, in
        order, or the `ZeroDivisionError` of the first candidate under a
        zero multiplier. */
    function DetectAll(traces: seq<TraceEntry>): Result<seq<Detection>> {
      if exists i :: 0 <= i < |traces| && TraceRaises(traces[i].records) then Err(ZeroDivision)
      else Ok(CollectAll(traces, Rule()))
    }

    /** The estimated savings are the share `1 - 1/multiplier` of the cost:
        for a multiplier above one and a non-negative cost they lie between
        zero and the cost, and they are zero exactly when the cost is. */
    lemma EstimatedSavingsBounds(currentCost: real)
      requires gpt4CostMultiplier > 1.0 && currentCost >= 0.0
      ensures 0.0 <= EstimatedSavings(currentCost) <= currentCost
      ensures EstimatedSavings(currentCost) == 0.0 <==> currentCost == 0.0
      ensures EstimatedSavings(currentCost) == currentCost * (gpt4CostMultiplier - 1.0) / gpt4CostMultiplier
    {
      var m := gpt4CostMultiplier;
      assert currentCost / m <= currentCost by {
        assert currentCost / m * m == currentCost;
      }
      assert currentCost / m >= 0.0;
      assert currentCost - currentCost / m == currentCost * (m - 1.0) / m;
      if currentCost > 0.0 {
        assert currentCost * (m - 1.0) > 0.0;
        assert currentCost * (m - 1.0) / m > 0.0;
      }
    }

    /** A record raises exactly when it is a candidate and the multiplier is
        zero, and is flagged exactly when it is a candidate and the multiplier
        is not zero; its own `prompt_tokens` never matters. A detection names
        the table's suggestion, wraps the one record, and its waste cost lies
        between zero and the record's cost when the multiplier exceeds one. */
    lemma VerdictFacts(traceId: string, r: Record)
      ensures Verdict(traceId, r).Err? <==>
        ModelKey(r) in ExpensiveModels && WordCount(PromptOf(r)) < minTokensForGpt4 && gpt4CostMultiplier == 0.0
      ensures Verdict(traceId, r).Err? ==> Verdict(traceId, r).error == ZeroDivision
      ensures Verdict(traceId, r).Ok? && Verdict(traceId, r).value.Some? <==>
        ModelKey(r) in ExpensiveModels && WordCount(PromptOf(r)) < minTokensForGpt4 && gpt4CostMultiplier != 0.0
      ensures forall n :: Verdict(traceId, r.(promptTokens := n)).Err? == Verdict(traceId, r).Err?
      ensures forall n :: Flag(traceId, r.(promptTokens := n)).Some? == Flag(traceId, r).Some?
      ensures Verdict(traceId, r).Ok? && Verdict(traceId, r).value.Some? ==>
        var d := Verdict(traceId, r).value.value;
        && d.traceId == Some(traceId) && d.kind == ShortKind
        && d.modelUsed == Some(ModelKey(r))
        && d.suggestedModel == Some(ExpensiveModels[ModelKey(r)])
        && d.details == ShortPromptDetails(WordCount(PromptOf(r)), [r])
        && d.wasteCost.Some?
        && (gpt4CostMultiplier > 1.0 && CostOf(r) >= 0.0 ==> 0.0 <= d.wasteCost.value <= CostOf(r))
    {
      if Flag(traceId, r).Some? && gpt4CostMultiplier > 1.0 && CostOf(r) >= 0.0 {
        EstimatedSavingsBounds(CostOf(r));
      }
    }

    /** `detect(traces)` raises exactly when the multiplier is zero and some
        record is a candidate. Otherwise there is at most one detection per
        record, every detection is the verdict on one record of one trace,
        and every candidate's detection is present. */
    lemma DetectFacts(traces: seq<TraceEntry>)
      ensures DetectAll(traces).Err? <==>
        gpt4CostMultiplier == 0.0 &&
        exists i, j :: 0 <= i < |traces| && 0 <= j < |traces[i].records| && Candidate(traces[i].records[j])
      ensures DetectAll(traces).Err? ==> DetectAll(traces).error == ZeroDivision
      ensures DetectAll(traces).Ok? ==> |DetectAll(traces).value| <= RecordCount(traces)
      ensures DetectAll(traces).Ok? ==> forall d :: d in DetectAll(traces).value ==>
        exists i, j :: 0 <= i < |traces| && 0 <= j < |traces[i].records| &&
          Verdict(traces[i].traceId, traces[i].records[j]) == Ok(Some(d))
      ensures forall i, j :: (0 <= i < |traces| && 0 <= j < |traces[i].records| &&
        Candidate(traces[i].records[j]) && gpt4CostMultiplier != 0.0) ==>
          DetectAll(traces).Ok? && Flag(traces[i].traceId, traces[i].records[j]).value in DetectAll(traces).value
    {
      CollectAllFacts(traces, Rule());
      if DetectAll(traces).Err? {
        var i :| 0 <= i < |traces| && TraceRaises(traces[i].records);
        var j :| 0 <= j < |traces[i].records| && Candidate(traces[i].records[j]);
      }
      if gpt4CostMultiplier == 0.0 && exists i, j :: 0 <= i < |traces| && 0 <= j < |traces[i].records| && Candidate(traces[i].records[j]) {
        var i, j :| 0 <= i < |traces| && 0 <= j < |traces[i].records| && Candidate(traces[i].records[j]);
        assert TraceRaises(traces[i].records);
      }
    }

    /** The body of the record loop of `detect`. */
    method CheckRecord(traceId: string, record: Record) returns (verdict: Result<Option<Detection>>)
      ensures verdict == Verdict(traceId, record)
    {
      var model := Lower(record.model.GetOr(""));
      var prompt := PromptOf(record);
      verdict := Ok(None);
      if model in ExpensiveModels {
        var promptTokens := WordCount(prompt);
        if promptTokens < minTokensForGpt4 {
          var currentCost := record.cost.GetOr(0.0);
          var suggestedModel := ExpensiveModels[model];
          if gpt4CostMultiplier == 0.0 {
            return Err(ZeroDivision);
          }
          var estimatedCheaperCost := currentCost / gpt4CostMultiplier;
          var potentialSavings := currentCost - estimatedCheaperCost;
          verdict := Ok(Some(ShortDetection(traceId, record, model, suggestedModel, promptTokens, potentialSavings)));
        }
      }
    }

    /** The record loop of `detect` for one trace: its detections, or the
        exception of its first candidate under a zero multiplier. */
    method CheckTrace(traceId: string, records: seq<Record>) returns (r: Result<seq<Detection>>)
      ensures r == if TraceRaises(records) then Err(ZeroDivision) else Ok(CollectTrace(traceId, records, Rule()))
    {
      var found := [];
      for j := 0 to |records|
        invariant found == CollectTrace(traceId, records[..j], Rule())
        invariant gpt4CostMultiplier == 0.0 ==> forall k :: 0 <= k < j ==> !Candidate(records[k])
      {
        var verdict := CheckRecord(traceId, records[j]);
        if verdict.Err? {
          assert Candidate(records[j]);
          return Err(verdict.error);
        }
        CollectTraceSnoc(traceId, records, j, Rule(), verdict.value);
        if verdict.value.Some? {
          found := found + [verdict.value.value];
        }
      }
      assert records[..|records|] == records;
      return Ok(found);
    }

    /** `detect(traces)`: for every record of every trace, in order, an
        expensive model with a short prompt yields one detection, unless a
        zero multiplier makes the first such record raise. */
    method Detect(traces: seq<TraceEntry>) returns (r: Result<seq<Detection>>)
      ensures r == DetectAll(traces)
    {
      ghost var rule := Rule();
      var detections := [];
      for i := 0 to |traces|
        invariant detections == CollectAll(traces[..i], rule)
        invariant forall k :: 0 <= k < i ==> !TraceRaises(traces[k].records)
      {
        CollectAllSnoc(traces, i, rule);
        var traceId := traces[i].traceId;
        var records := traces[i].records;
        var found := CheckTrace(traceId, records);
        if found.Err? {
          return Err(found.error);
        }
        detections := detections + found.value;
      }
      assert traces[..|traces|] == traces;
      return Ok(detections);
    }
  }
}
