/** What the three expensive-model-for-short-prompt detectors share
    (crashlens/detectors/overkill_model_detector.py, short_model_detector.py
    and gpt4_short.py): the table of expensive models and their cheaper
    alternatives, the cost of a record from a pricing table, the savings
    clamped at zero, the detection they emit for one record, and the walk
    over every record of every trace that collects at most one detection
    per record. */
module ExpensiveModelShort {
  import opened Common
  import opened Records
  import opened Detections

  /** The `expensive_models` table: an expensive model, in lower case, and
      the cheaper model suggested in its place. */
  const ExpensiveModels: map<string, string> := map[
    "gpt-4" := "gpt-3.5-turbo",
    "gpt-4-32k" := "gpt-3.5-turbo-16k",
    "gpt-4-turbo" := "gpt-3.5-turbo",
    "claude-3-opus" := "claude-3-sonnet",
    "claude-3-sonnet" := "claude-3-haiku",
    "claude-2.1" := "claude-3-haiku",
    "claude-2.0" := "claude-3-haiku"]

  /** The type every detection of these detectors carries. */
  const ShortKind: string := "expensive_model_short"

  /** One entry of the pricing config: the prices per thousand input and
      output tokens, `None` where the key is missing. */
  datatype PriceEntry = PriceEntry(inputCostPer1k: Option<real>, outputCostPer1k: Option<real>)

  /** The pricing config, by model name; an absent or empty config is the
      empty map. */
  type Pricing = map<string, PriceEntry>

  /** `record.get('prompt_tokens', 0)` */
  function PromptTokensOf(r: Record): int { r.promptTokens.GetOr(0) }

  /** `record.get('model', '').lower()`: the key looked up in the table. */
  function ModelKey(r: Record): string { Lower(r.model.GetOr("")) }

  /** The price of `inputTokens` and `outputTokens` under one pricing entry,
      a missing price counting as zero. */
  function PriceOf(e: PriceEntry, inputTokens: int, outputTokens: int): real {
    (inputTokens as real / 1000.0) * e.inputCostPer1k.GetOr(0.0)
      + (outputTokens as real / 1000.0) * e.outputCostPer1k.GetOr(0.0)
  }

  /** `_calculate_record_cost(record, model_pricing)` */
  function RecordCost(r: Record, pricing: Pricing): real {
    if pricing == map[] then CostOf(r)
    else if r.cost.Some? then r.cost.value
    else
      var model := r.model.GetOr("gpt-3.5-turbo");
      if model in pricing then PriceOf(pricing[model], PromptTokensOf(r), CompletionTokensOf(r)) else 0.0
  }

  /** `_calculate_cost_with_model(record, new_model, model_pricing)` */
  function CostWithModel(r: Record, newModel: string, pricing: Pricing): real {
    if pricing == map[] then 0.0
    else if newModel in pricing then PriceOf(pricing[newModel], PromptTokensOf(r), CompletionTokensOf(r))
    else 0.0
  }

  /** `max(0.0, current_cost - cheaper_cost)` */
  function Savings(currentCost: real, cheaperCost: real): real {
    if 0.0 < currentCost - cheaperCost then currentCost - cheaperCost else 0.0
  }

  /** Every price the config gives is non-negative. */
  predicate NonNegativePrices(pricing: Pricing) {
    forall m :: m in pricing ==>
      pricing[m].inputCostPer1k.GetOr(0.0) >= 0.0 && pricing[m].outputCostPer1k.GetOr(0.0) >= 0.0
  }

  /** The record's cost and token counts are non-negative where given. */
  predicate NonNegativeUsage(r: Record) {
    CostOf(r) >= 0.0 && PromptTokensOf(r) >= 0 && CompletionTokensOf(r) >= 0
  }

  /** The cost of a record: with no pricing, its own `cost` (zero when
      missing); with pricing, its own `cost` when given, and otherwise the
      per-thousand price of its model, zero for a model the pricing lacks.
      It is never negative when the usage and the prices are not. */
  lemma RecordCostFacts(r: Record, pricing: Pricing)
    ensures pricing == map[] ==> RecordCost(r, pricing) == CostOf(r)
    ensures r.cost.Some? ==> RecordCost(r, pricing) == r.cost.value
    ensures r.cost.None? && r.model.GetOr("gpt-3.5-turbo") !in pricing ==> RecordCost(r, pricing) == 0.0
    ensures NonNegativeUsage(r) && NonNegativePrices(pricing) ==> RecordCost(r, pricing) >= 0.0
  {
    var model := r.model.GetOr("gpt-3.5-turbo");
    if pricing != map[] && r.cost.None? && model in pricing {
      PriceNonNegative(pricing, model, PromptTokensOf(r), CompletionTokensOf(r));
    }
  }

  lemma PriceNonNegative(pricing: Pricing, model: string, inputTokens: int, outputTokens: int)
    requires model in pricing
    ensures NonNegativePrices(pricing) && inputTokens >= 0 && outputTokens >= 0 ==>
      PriceOf(pricing[model], inputTokens, outputTokens) >= 0.0
  {
    var e := pricing[model];
    if NonNegativePrices(pricing) && inputTokens >= 0 && outputTokens >= 0 {
      assert (inputTokens as real / 1000.0) * e.inputCostPer1k.GetOr(0.0) >= 0.0;
      assert (outputTokens as real / 1000.0) * e.outputCostPer1k.GetOr(0.0) >= 0.0;
    }
  }

  /** The cost under the suggested model is zero with no pricing or when the
      pricing lacks that model, the per-thousand price of the record's
      tokens otherwise, and never negative when the usage and the prices
      are not. */
  lemma CostWithModelFacts(r: Record, newModel: string, pricing: Pricing)
    ensures newModel !in pricing ==> CostWithModel(r, newModel, pricing) == 0.0
    ensures newModel in pricing ==>
      CostWithModel(r, newModel, pricing) == PriceOf(pricing[newModel], PromptTokensOf(r), CompletionTokensOf(r))
    ensures NonNegativeUsage(r) && NonNegativePrices(pricing) ==> CostWithModel(r, newModel, pricing) >= 0.0
  {
    if newModel in pricing {
      PriceNonNegative(pricing, newModel, PromptTokensOf(r), CompletionTokensOf(r));
    }
  }

  /** The savings are the larger of zero and the cost difference: never
      negative, zero or the difference itself, and no more than the current
      cost when the cheaper cost is not negative. */
  lemma SavingsFacts(currentCost: real, cheaperCost: real)
    ensures Savings(currentCost, cheaperCost) >= 0.0
    ensures Savings(currentCost, cheaperCost) >= currentCost - cheaperCost
    ensures Savings(currentCost, cheaperCost) == 0.0 || Savings(currentCost, cheaperCost) == currentCost - cheaperCost
    ensures cheaperCost >= 0.0 && currentCost >= 0.0 ==> Savings(currentCost, cheaperCost) <= currentCost
  {
  }

  /** The detection emitted for one record of an expensive model with a
      short prompt. */
  function ShortDetection(traceId: string, r: Record, model: string, suggestedModel: string,
                          promptTokens: int, wasteCost: real): Detection
  {
    Detection(
      traceId := Some(traceId),
      kind := ShortKind,
      severity := Some("medium"),
      wasteTokens := Some(CompletionTokensOf(r)),
      wasteCost := Some(wasteCost),
      samplePrompt := Some(SamplePrompt(PromptOf(r))),
      modelUsed := Some(model),
      suggestedModel := Some(suggestedModel),
      details := ShortPromptDetails(promptTokens, [r]),
      suppressedBy := Unset,
      suppressionReason := None,
      detector := None)
  }

  // ---------------------------------------------------------------------
  // The verdict on one record, with the record's own token count
  // ---------------------------------------------------------------------

  /** `record.get('prompt_tokens', len(prompt.split()))` */
  function PromptTokenCount(r: Record): int {
    r.promptTokens.GetOr(WordCount(PromptOf(r)))
  }

  /** The verdict on one record of `detect_expensive_model_waste` and of
      `ShortModelDetector.detect`, which decide a record the same way. */
  function WasteFlag(minTokensForGpt4: int, pricing: Pricing, traceId: string, r: Record): Option<Detection> {
    var model := ModelKey(r);
    if model in ExpensiveModels && PromptTokenCount(r) < minTokensForGpt4 then
      var suggestedModel := ExpensiveModels[model];
      Some(ShortDetection(traceId, r, model, suggestedModel, PromptTokenCount(r),
                          Savings(RecordCost(r, pricing), CostWithModel(r, suggestedModel, pricing))))
    else None
  }

  function WasteRule(minTokensForGpt4: int, pricing: Pricing): (string, Record) -> Option<Detection> {
    (traceId, r) => WasteFlag(minTokensForGpt4, pricing, traceId, r)
  }

  /** A record is flagged exactly when its lower-cased model is in the
      table and its prompt token count is below the threshold. The
      detection then names that model and the table's suggestion for it,
      wraps the one record, reports the token count, and its waste cost is
      the clamped savings, never negative (and no more than the record's
      cost when the usage and prices are not negative). */
  lemma WasteFlagFacts(minTokensForGpt4: int, pricing: Pricing, traceId: string, r: Record)
    ensures WasteFlag(minTokensForGpt4, pricing, traceId, r).Some? <==>
      ModelKey(r) in ExpensiveModels && PromptTokenCount(r) < minTokensForGpt4
    ensures WasteFlag(minTokensForGpt4, pricing, traceId, r).Some? ==>
      var d := WasteFlag(minTokensForGpt4, pricing, traceId, r).value;
      && d.traceId == Some(traceId) && d.kind == ShortKind && d.severity == Some("medium")
      && d.modelUsed == Some(ModelKey(r))
      && d.suggestedModel == Some(ExpensiveModels[ModelKey(r)])
      && d.details == ShortPromptDetails(PromptTokenCount(r), [r])
      && d.wasteTokens == Some(CompletionTokensOf(r))
      && d.wasteCost.Some? && d.wasteCost.value >= 0.0
      && d.wasteCost.value >= RecordCost(r, pricing) - CostWithModel(r, d.suggestedModel.value, pricing)
      && (NonNegativeUsage(r) && NonNegativePrices(pricing) ==> d.wasteCost.value <= RecordCost(r, pricing))
  {
    var model := ModelKey(r);
    if model in ExpensiveModels {
      var suggestedModel := ExpensiveModels[model];
      RecordCostFacts(r, pricing);
      CostWithModelFacts(r, suggestedModel, pricing);
      SavingsFacts(RecordCost(r, pricing), CostWithModel(r, suggestedModel, pricing));
    }
  }

  /** `d` is the detection of record `r` of trace `traceId`: an expensive
      model with a short prompt, the suggestion from the table, and a
      non-negative waste cost. */
  predicate FlaggedAs(minTokensForGpt4: int, traceId: string, r: Record, d: Detection) {
    && ModelKey(r) in ExpensiveModels && PromptTokenCount(r) < minTokensForGpt4
    && d.traceId == Some(traceId) && d.kind == ShortKind && d.details == ShortPromptDetails(PromptTokenCount(r), [r])
    && d.modelUsed == Some(ModelKey(r))
    && d.suggestedModel == Some(ExpensiveModels[ModelKey(r)])
    && d.wasteCost.Some? && d.wasteCost.value >= 0.0
  }

  /** The detections of `detect_expensive_model_waste` and of
      `ShortModelDetector.detect`: every detection comes
      from one record of one trace, of an expensive model with a short
      prompt, with a non-negative waste cost; every such record yields
      one; and there is at most one per record. */
  lemma DetectWasteFacts(minTokensForGpt4: int, pricing: Pricing, traces: seq<TraceEntry>)
    ensures |CollectAll(traces, WasteRule(minTokensForGpt4, pricing))| <= RecordCount(traces)
    ensures forall d :: d in CollectAll(traces, WasteRule(minTokensForGpt4, pricing)) ==>
      exists i, j :: 0 <= i < |traces| && 0 <= j < |traces[i].records| && FlaggedAs(minTokensForGpt4, traces[i].traceId, traces[i].records[j], d)
    ensures forall i, j :: (0 <= i < |traces| && 0 <= j < |traces[i].records| &&
      ModelKey(traces[i].records[j]) in ExpensiveModels && PromptTokenCount(traces[i].records[j]) < minTokensForGpt4) ==>
        WasteFlag(minTokensForGpt4, pricing, traces[i].traceId, traces[i].records[j]).value
          in CollectAll(traces, WasteRule(minTokensForGpt4, pricing))
  {
    var rule := WasteRule(minTokensForGpt4, pricing);
    CollectAllFacts(traces, rule);
    forall d | d in CollectAll(traces, rule)
      ensures exists i, j :: 0 <= i < |traces| && 0 <= j < |traces[i].records| && FlaggedAs(minTokensForGpt4, traces[i].traceId, traces[i].records[j], d)
    {
      var i, j :| 0 <= i < |traces| && 0 <= j < |traces[i].records| && rule(traces[i].traceId, traces[i].records[j]) == Some(d);
      WasteFlagFacts(minTokensForGpt4, pricing, traces[i].traceId, traces[i].records[j]);
    }
    forall i, j | (0 <= i < |traces| && 0 <= j < |traces[i].records| &&
      ModelKey(traces[i].records[j]) in ExpensiveModels && PromptTokenCount(traces[i].records[j]) < minTokensForGpt4)
      ensures WasteFlag(minTokensForGpt4, pricing, traces[i].traceId, traces[i].records[j]).value in CollectAll(traces, rule)
    {
      WasteFlagFacts(minTokensForGpt4, pricing, traces[i].traceId, traces[i].records[j]);
    }
  }

  /** The body of the record loop of `detect_expensive_model_waste` and of
      `ShortModelDetector.detect`: the detection for one record, if it is
      flagged. */
  method CheckRecord(traceId: string, record: Record, minTokensForGpt4: int, pricing: Pricing)
    returns (detection: Option<Detection>)
    ensures detection == WasteRule(minTokensForGpt4, pricing)(traceId, record)
  {
    var model := Lower(record.model.GetOr(""));
    var prompt := PromptOf(record);
    detection := None;
    if model in ExpensiveModels {
      var promptTokens := record.promptTokens.GetOr(WordCount(prompt));
      if promptTokens < minTokensForGpt4 {
        var currentCost := RecordCost(record, pricing);
        var suggestedModel := ExpensiveModels[model];
        var cheaperCost := CostWithModel(record, suggestedModel, pricing);
        var potentialSavings := if 0.0 < currentCost - cheaperCost then currentCost - cheaperCost else 0.0;
        detection := Some(ShortDetection(traceId, record, model, suggestedModel, promptTokens, potentialSavings));
      }
    }
  }

  /** The record loop of `detect_expensive_model_waste` and of
      `ShortModelDetector.detect` for one trace. */
  method CheckTrace(traceId: string, records: seq<Record>, minTokensForGpt4: int, pricing: Pricing)
    returns (found: seq<Detection>)
    ensures found == CollectTrace(traceId, records, WasteRule(minTokensForGpt4, pricing))
  {
    found := [];
    for j := 0 to |records|
      invariant found == CollectTrace(traceId, records[..j], WasteRule(minTokensForGpt4, pricing))
    {
      var detection := CheckRecord(traceId, records[j], minTokensForGpt4, pricing);
      CollectTraceSnoc(traceId, records, j, WasteRule(minTokensForGpt4, pricing), detection);
      if detection.Some? {
        found := found + [detection.value];
      }
    }
    assert records[..|records|] == records;
  }

  // ---------------------------------------------------------------------
  // One detection at most per record
  // ---------------------------------------------------------------------

  /** The detections of one trace's records, in order, where `flag` decides
      each record. */
  function CollectTrace(traceId: string, records: seq<Record>, flag: (string, Record) -> Option<Detection>): seq<Detection> {
    if records == [] then []
    else
      var init := CollectTrace(traceId, records[..|records| - 1], flag);
      match flag(traceId, records[|records| - 1])
      case None => init
      case Some(d) => init + [d]
  }

  /** The detections of all traces, trace by trace. */
  function CollectAll(traces: seq<TraceEntry>, flag: (string, Record) -> Option<Detection>): seq<Detection> {
    if traces == [] then []
    else CollectAll(traces[..|traces| - 1], flag) + CollectTrace(traces[|traces| - 1].traceId, traces[|traces| - 1].records, flag)
  }

  /** The number of records over all traces. */
  function RecordCount(traces: seq<TraceEntry>): nat {
    if traces == [] then 0 else RecordCount(traces[..|traces| - 1]) + |traces[|traces| - 1].records|
  }

  lemma {:induction false} CollectTraceFacts(traceId: string, records: seq<Record>, flag: (string, Record) -> Option<Detection>)
    ensures |CollectTrace(traceId, records, flag)| <= |records|
    ensures forall d :: d in CollectTrace(traceId, records, flag) ==>
      exists j :: 0 <= j < |records| && flag(traceId, records[j]) == Some(d)
    ensures forall j :: 0 <= j < |records| && flag(traceId, records[j]).Some? ==>
      flag(traceId, records[j]).value in CollectTrace(traceId, records, flag)
  {
    if records != [] {
      var init := records[..|records| - 1];
      CollectTraceFacts(traceId, init, flag);
      forall d | d in CollectTrace(traceId, records, flag)
        ensures exists j :: 0 <= j < |records| && flag(traceId, records[j]) == Some(d)
      {
        if d in CollectTrace(traceId, init, flag) {
          var j :| 0 <= j < |init| && flag(traceId, init[j]) == Some(d);
          assert records[j] == init[j];
        }
      }
      forall j | 0 <= j < |records| && flag(traceId, records[j]).Some?
        ensures flag(traceId, records[j]).value in CollectTrace(traceId, records, flag)
      {
        if j < |init| {
          assert records[j] == init[j];
        }
      }
    }
  }

  /** Every record is decided once: there are no more detections than
      records, each detection is the verdict on one record of one trace,
      and every record that is flagged contributes its detection. */
  lemma {:induction false} CollectAllFacts(traces: seq<TraceEntry>, flag: (string, Record) -> Option<Detection>)
    ensures |CollectAll(traces, flag)| <= RecordCount(traces)
    ensures forall d :: d in CollectAll(traces, flag) ==>
      exists i, j :: 0 <= i < |traces| && 0 <= j < |traces[i].records| && flag(traces[i].traceId, traces[i].records[j]) == Some(d)
    ensures forall i, j :: 0 <= i < |traces| && 0 <= j < |traces[i].records| && flag(traces[i].traceId, traces[i].records[j]).Some? ==>
      flag(traces[i].traceId, traces[i].records[j]).value in CollectAll(traces, flag)
  {
    CollectAllBound(traces, flag);
    CollectAllSound(traces, flag);
    CollectAllComplete(traces, flag);
  }

  lemma {:induction false} CollectAllBound(traces: seq<TraceEntry>, flag: (string, Record) -> Option<Detection>)
    ensures |CollectAll(traces, flag)| <= RecordCount(traces)
  {
    if traces != [] {
      var t := traces[|traces| - 1];
      CollectAllBound(traces[..|traces| - 1], flag);
      CollectTraceFacts(t.traceId, t.records, flag);
    }
  }

  lemma {:induction false} CollectAllSound(traces: seq<TraceEntry>, flag: (string, Record) -> Option<Detection>)
    ensures forall d :: d in CollectAll(traces, flag) ==>
      exists i, j :: 0 <= i < |traces| && 0 <= j < |traces[i].records| && flag(traces[i].traceId, traces[i].records[j]) == Some(d)
  {
    if traces != [] {
      var init := traces[..|traces| - 1];
      var t := traces[|traces| - 1];
      CollectAllSound(init, flag);
      CollectTraceFacts(t.traceId, t.records, flag);
      forall d | d in CollectAll(traces, flag)
        ensures exists i, j :: 0 <= i < |traces| && 0 <= j < |traces[i].records| && flag(traces[i].traceId, traces[i].records[j]) == Some(d)
      {
        if d in CollectAll(init, flag) {
          var i, j :| 0 <= i < |init| && 0 <= j < |init[i].records| && flag(init[i].traceId, init[i].records[j]) == Some(d);
          assert traces[i] == init[i];
        } else {
          var j :| 0 <= j < |t.records| && flag(t.traceId, t.records[j]) == Some(d);
          assert traces[|traces| - 1] == t;
        }
      }
    }
  }

  lemma {:induction false} CollectAllComplete(traces: seq<TraceEntry>, flag: (string, Record) -> Option<Detection>)
    ensures forall i, j :: 0 <= i < |traces| && 0 <= j < |traces[i].records| && flag(traces[i].traceId, traces[i].records[j]).Some? ==>
      flag(traces[i].traceId, traces[i].records[j]).value in CollectAll(traces, flag)
  {
    if traces != [] {
      var init := traces[..|traces| - 1];
      var t := traces[|traces| - 1];
      CollectAllComplete(init, flag);
      CollectTraceFacts(t.traceId, t.records, flag);
      forall i, j | 0 <= i < |traces| && 0 <= j < |traces[i].records| && flag(traces[i].traceId, traces[i].records[j]).Some?
        ensures flag(traces[i].traceId, traces[i].records[j]).value in CollectAll(traces, flag)
      {
        if i < |init| {
          assert traces[i] == init[i];
        }
      }
    }
  }


  lemma CollectTraceSnoc(traceId: string, records: seq<Record>, j: nat, flag: (string, Record) -> Option<Detection>,
                         verdict: Option<Detection>)
    requires j < |records| && flag(traceId, records[j]) == verdict
    ensures CollectTrace(traceId, records[..j + 1], flag) ==
      CollectTrace(traceId, records[..j], flag) + (if verdict.Some? then [verdict.value] else [])
  {
    assert records[..j + 1][..j] == records[..j];
  }

  lemma CollectAllSnoc(traces: seq<TraceEntry>, i: nat, flag: (string, Record) -> Option<Detection>)
    requires i < |traces|
    ensures CollectAll(traces[..i + 1], flag) == CollectAll(traces[..i], flag) + CollectTrace(traces[i].traceId, traces[i].records, flag)
  {
    assert traces[..i + 1][..i] == traces[..i];
  }
}
