/** The short-model detector (crashlens/detectors/short_model_detector.py).
    It decides every record exactly as `detect_expensive_model_waste` does,
    with the same cost helpers; `gpt4_cost_multiplier` is stored and never
    read. */
module ShortModel {
  import opened Common
  import opened Records
  import opened Detections
  import opened ExpensiveModelShort

  /** `ShortModelDetector(min_tokens_for_gpt4=100, gpt4_cost_multiplier=20.0)`. */
  datatype ShortModelDetector = ShortModelDetector(minTokensForGpt4: int, gpt4CostMultiplier: real)
  {
    /** `detect(traces, model_pricing)`: for every record of every trace, in
        order, an expensive model with a short prompt yields one detection
        with the clamped savings of the suggested model. */
    method Detect(traces: seq<TraceEntry>, pricing: Pricing) returns (detections: seq<Detection>)
      ensures detections == CollectAll(traces, WasteRule(minTokensForGpt4, pricing))
    {
      ghost var rule := WasteRule(minTokensForGpt4, pricing);
      detections := [];
      for i := 0 to |traces|
        invariant detections == CollectAll(traces[..i], rule)
      {
        CollectAllSnoc(traces, i, rule);
        var traceId := traces[i].traceId;
        var records := traces[i].records;
        var found := CheckTrace(traceId, records, minTokensForGpt4, pricing);
        detections := detections + found;
      }
      assert traces[..|traces|] == traces;
    }
  }
}
