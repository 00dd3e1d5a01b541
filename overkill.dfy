/** The overkill-model detector (crashlens/detectors/overkill_model_detector.py):
    a record of an expensive model whose prompt is shorter than
    `min_tokens_for_gpt4` tokens is flagged, with the savings of the
    suggested cheaper model under the pricing config. */
module OverkillModel {
  import opened Common
  import opened Records
  import opened Detections
  import opened ExpensiveModelShort

  /** `detect_expensive_model_waste`: for every record of every trace, in
      order, an expensive model with a short prompt yields one detection.
      `prompt_token_threshold` and `completion_token_threshold` are accepted
      and never read. */
  method DetectExpensiveModelWaste(traces: seq<TraceEntry>, promptTokenThreshold: int, completionTokenThreshold: int,
                                   minTokensForGpt4: int, pricing: Pricing)
    returns (detections: seq<Detection>)
    ensures detections == CollectAll(traces, WasteRule(minTokensForGpt4, pricing))
  {
    ghost var rule := WasteRule(minTokensForGpt4, pricing);
    detections := [];
    for i := 0 to |traces|
      invariant detections == CollectAll(traces[..i], rule)
    {
      CollectAllSnoc(traces, i, rule);
      var traceId := traces[i].traceId;
      var records := traces[i].records;
      var found := CheckTrace(traceId, records, minTokensForGpt4, pricing);
      detections := detections + found;
    }
    assert traces[..|traces|] == traces;
  }

  /** `OverkillModelDetector(prompt_token_threshold=50,
      completion_token_threshold=100, min_tokens_for_gpt4=100)`. */
  datatype OverkillModelDetector = OverkillModelDetector(
    promptTokenThreshold: int, completionTokenThreshold: int, minTokensForGpt4: int)
  {
    /** `detect(traces, model_pricing)` forwards to
        `detect_expensive_model_waste` with the stored thresholds. */
    method Detect(traces: seq<TraceEntry>, pricing: Pricing) returns (detections: seq<Detection>)
      ensures detections == CollectAll(traces, WasteRule(minTokensForGpt4, pricing))
    {
      detections := DetectExpensiveModelWaste(traces, promptTokenThreshold, completionTokenThreshold, minTokensForGpt4, pricing);
    }
  }
}
