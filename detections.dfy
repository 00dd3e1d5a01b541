/** The detection record every detector emits and the suppression engine and
    the report aggregation consume. In the source it is a dict; here the
    keys that some component reads are fields, `None` standing for a missing
    key, and the detector-specific part is a variant. */
module Detections {
  import opened Common
  import opened Records

  /** The `suppressed_by` key: never set, set to `None` on acceptance, or set
      to a detector name on suppression. */
  datatype Mark = Unset | Cleared | SuppressedBy(name: string)

  /** The keys only one detector writes. Time spans are whole seconds. */
  datatype Details =
    | RetryLoopDetails(retryCount: nat, timeSpan: int, records: seq<Record>)
    | FallbackStormDetails(fallbackCount: nat, modelsSequence: seq<string>, timeSpan: int, records: seq<Record>)
    | ShortPromptDetails(promptLength: int, records: seq<Record>)
    | OtherDetails

  datatype Detection = Detection(
    traceId: Option<string>,
    kind: string,                   // the `type` key
    severity: Option<string>,
    wasteTokens: Option<int>,
    wasteCost: Option<real>,
    samplePrompt: Option<string>,
    modelUsed: Option<string>,
    suggestedModel: Option<string>,
    details: Details,
    suppressedBy: Mark,
    suppressionReason: Option<string>,
    detector: Option<string>)

  /** `detection.get('trace_id')` is truthy: present and non-empty. */
  predicate HasTrace(d: Detection) {
    d.traceId.Some? && d.traceId.value != ""
  }

  /** The detection as the detector produced it, without the keys the
      suppression engine adds. */
  function Base(d: Detection): Detection {
    d.(suppressedBy := Unset, suppressionReason := None, detector := None)
  }

  /** `'high' if len(group) > 5 else 'medium'` */
  function Severity(groupSize: int): string {
    if groupSize > 5 then "high" else "medium"
  }

  /** `prompt[:100] + '...' if len(prompt) > 100 else prompt` */
  function SamplePrompt(prompt: string): string {
    if |prompt| > 100 then prompt[..100] + "..." else prompt
  }

  /** A sample prompt is the prompt itself when it has at most 100
      characters, and otherwise its first 100 characters followed by an
      ellipsis (103 characters). */
  lemma SamplePromptShape(prompt: string)
    ensures |SamplePrompt(prompt)| <= 103
    ensures IsPrefix(Take(prompt, 100), SamplePrompt(prompt))
    ensures |prompt| <= 100 ==> SamplePrompt(prompt) == prompt
    ensures |prompt| > 100 ==> |SamplePrompt(prompt)| == 103 && SamplePrompt(prompt)[100..] == "..."
  {
    if |prompt| > 100 {
      assert SamplePrompt(prompt)[..100] == prompt[..100];
    }
  }
}
