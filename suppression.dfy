/** The suppression and ownership engine (`SuppressionEngine` in
    crashlens/cli_new.py) and the detector priority table.

    Detectors hand their detections to the engine one batch at a time. The
    engine remembers which detector owns each trace, keeps the accepted
    detections in an active list and the rejected ones, annotated with the
    reason, in a suppressed list. For each detection, in order:
      1. no trace id: accepted as is;
      2. the detector's configuration entry asks to stay quiet on traces the
         retry-loop detector owns, and it does: suppressed, `disabled_by_config`;
      3. the trace's owner has a strictly better (smaller) rank: suppressed,
         `higher_priority_detector:<owner>`;
      4. the owner has a strictly worse rank: the owner's active detections on
         the trace move to the suppressed list, `superseded_by:<detector>`;
      5. accepted: the detector becomes the trace's owner.

    The behaviour is first given as functions on values (`Step`, `Run`,
    `Process`) about which the lemmas are proved; the class
    `SuppressionEngine` then updates its fields in place and is proved to
    follow those functions. */
module Suppression {
  import opened Common
  import opened Detections
  import opened Grouping

  // ---------------------------------------------------------------------
  // Priority table and configuration
  // ---------------------------------------------------------------------

  const RetryLoopDetector: string := "RetryLoopDetector"

  /** `DETECTOR_PRIORITY`: a smaller rank is a higher priority. */
  const DetectorPriority: map<string, int> := map[
    "RetryLoopDetector" := 1,
    "FallbackStormDetector" := 2,
    "FallbackFailureDetector" := 3,
    "OverkillModelDetector" := 4]

  /** `DETECTOR_PRIORITY.get(name, 999)` */
  function Priority(name: string): int {
    if name in DetectorPriority then DetectorPriority[name] else 999
  }

  /** The table is a strict order over the four known detectors, retry loop
      first and overkill model last, and every other name ranks below all of
      them. */
  lemma PriorityOrder()
    ensures Priority("RetryLoopDetector") < Priority("FallbackStormDetector")
              < Priority("FallbackFailureDetector") < Priority("OverkillModelDetector") < 999
    ensures forall a, b :: a in DetectorPriority && b in DetectorPriority && a != b ==> Priority(a) != Priority(b)
    ensures forall n :: n !in DetectorPriority ==> Priority(n) == 999
    ensures forall n :: 1 <= Priority(n) <= 4 || Priority(n) == 999
  {
  }

  /** The retry-loop detector outranks every other name. */
  lemma RetryLoopRanksFirst(name: string)
    requires name != RetryLoopDetector
    ensures Priority(RetryLoopDetector) == 1 < Priority(name)
  {
    if name in DetectorPriority {
      assert name == "FallbackStormDetector" || name == "FallbackFailureDetector" || name == "OverkillModelDetector";
    }
  }

  /** One entry of the already-parsed suppression configuration; a missing
      `suppress_if_retry_loop` key reads as false. */
  datatype Rule = Rule(suppressIfRetryLoop: bool)

  type Config = map<string, Rule>

  /** The configuration key of a detector:
      `detector_name.lower().replace('detector', '')`. */
  function ConfigKey(name: string): string {
    RemoveAll(Lower(name), "detector")
  }

  /** `_is_detector_suppressed`: the detector's entry sets
      `suppress_if_retry_loop` and the trace is owned by the retry-loop
      detector. */
  predicate ConfigSuppresses(cfg: Config, ownership: map<string, string>, name: string, traceId: string) {
    var key := ConfigKey(name);
    key in cfg && cfg[key].suppressIfRetryLoop
    && traceId in ownership && ownership[traceId] == RetryLoopDetector
  }

  // ---------------------------------------------------------------------
  // Suppression metadata
  // ---------------------------------------------------------------------

  const DisabledByConfig: string := "disabled_by_config"

  function HigherPriorityReason(owner: string): string { "higher_priority_detector:" + owner }

  function SupersededReason(newOwner: string): string { "superseded_by:" + newOwner }

  /** `_add_suppressed_detection`: a copy of the detection carrying who
      suppressed it and why. */
  function Suppress(d: Detection, name: string, reason: string): Detection {
    d.(suppressedBy := SuppressedBy(name), suppressionReason := Some(reason), detector := Some(name))
  }

  /** An accepted detection gets `suppressed_by = None`. */
  function Accept(d: Detection): Detection {
    d.(suppressedBy := Cleared)
  }

  /** The copies of `ds` that a transfer adds to the suppressed list. */
  function SuppressAll(ds: seq<Detection>, name: string, reason: string): (r: seq<Detection>)
    ensures |r| == |ds|
  {
    if ds == [] then [] else SuppressAll(ds[..|ds| - 1], name, reason) + [Suppress(ds[|ds| - 1], name, reason)]
  }

  /** The detections with the keys the engine adds removed. */
  function Bases(ds: seq<Detection>): (r: seq<Detection>)
    ensures |r| == |ds|
  {
    if ds == [] then [] else Bases(ds[..|ds| - 1]) + [Base(ds[|ds| - 1])]
  }

  /** The (non-empty) trace ids that occur in a list of detections. */
  function TraceIds(ds: seq<Detection>): set<string> {
    set d | d in ds && HasTrace(d) :: d.traceId.value
  }

  predicate IsReason(reason: string) {
    reason == DisabledByConfig
    || IsPrefix("higher_priority_detector:", reason)
    || IsPrefix("superseded_by:", reason)
  }

  /** A suppressed entry: it has a trace, and `detector` and `suppressed_by`
      name the same detector, and the reason is one of the three kinds. */
  predicate Annotated(d: Detection) {
    && HasTrace(d)
    && d.suppressedBy.SuppressedBy?
    && d.detector == Some(d.suppressedBy.name)
    && d.suppressionReason.Some? && IsReason(d.suppressionReason.value)
  }

  predicate AllAnnotated(ds: seq<Detection>) {
    forall d :: d in ds ==> Annotated(d)
  }

  /** Every accepted detection with a trace has `suppressed_by = None`. */
  predicate AllCleared(ds: seq<Detection>) {
    forall d :: d in ds && HasTrace(d) ==> d.suppressedBy == Cleared
  }

  lemma BasesSnoc(ds: seq<Detection>, d: Detection)
    ensures Bases(ds + [d]) == Bases(ds) + [Base(d)]
  {
    assert (ds + [d])[..|ds|] == ds;
  }

  lemma {:induction false} BasesAppend(a: seq<Detection>, b: seq<Detection>)
    ensures Bases(a + b) == Bases(a) + Bases(b)
    decreases |b|
  {
    if b == [] {
      assert a + b == a;
    } else {
      assert (a + b)[..|a + b| - 1] == a + b[..|b| - 1];
      BasesAppend(a, b[..|b| - 1]);
    }
  }

  lemma TraceIdsAppend(a: seq<Detection>, b: seq<Detection>)
    ensures TraceIds(a + b) == TraceIds(a) + TraceIds(b)
  {
    forall x | x in TraceIds(a + b) ensures x in TraceIds(a) + TraceIds(b) {
      var d :| d in a + b && HasTrace(d) && d.traceId.value == x;
    }
  }

  lemma TraceIdsOne(d: Detection)
    ensures TraceIds([d]) == if HasTrace(d) then {d.traceId.value} else {}
  {
  }

  lemma TraceIdsSnoc(ds: seq<Detection>, d: Detection)
    ensures TraceIds(ds + [d]) == TraceIds(ds) + if HasTrace(d) then {d.traceId.value} else {}
  {
    TraceIdsAppend(ds, [d]);
    TraceIdsOne(d);
  }

  // ---------------------------------------------------------------------
  // Transfer
  // ---------------------------------------------------------------------

  /** `detection.get('type', '').replace('_', '').replace(' ', '').lower()` */
  function NormalizedType(kind: string): string {
    Lower(RemoveAll(RemoveAll(kind, "_"), " "))
  }

  /** The test `_transfer_ownership` uses to recognise the old owner's
      detections: same trace, and the normalised type occurs inside the old
      owner's lower-cased name. */
  predicate OwnedBy(d: Detection, traceId: string, owner: string) {
    d.traceId == Some(traceId) && IsSubstring(NormalizedType(d.kind), Lower(owner))
  }

  /** `to_suppress`: the active detections the test picks, in order. */
  function Moved(active: seq<Detection>, traceId: string, owner: string): (r: seq<Detection>)
    ensures |r| <= |active|
  {
    if active == [] then [] else
      var init := Moved(active[..|active| - 1], traceId, owner);
      if OwnedBy(active[|active| - 1], traceId, owner) then init + [active[|active| - 1]] else init
  }

  /** `remaining_active`: the other active detections, in order. */
  function Remaining(active: seq<Detection>, traceId: string, owner: string): (r: seq<Detection>)
    ensures |r| <= |active|
  {
    if active == [] then [] else
      var init := Remaining(active[..|active| - 1], traceId, owner);
      if OwnedBy(active[|active| - 1], traceId, owner) then init else init + [active[|active| - 1]]
  }

  lemma {:induction false} SuppressAllFacts(ds: seq<Detection>, name: string, reason: string)
    ensures Bases(SuppressAll(ds, name, reason)) == Bases(ds)
    ensures TraceIds(SuppressAll(ds, name, reason)) == TraceIds(ds)
    ensures forall i :: 0 <= i < |ds| ==> SuppressAll(ds, name, reason)[i] == Suppress(ds[i], name, reason)
  {
    if ds != [] {
      var init := ds[..|ds| - 1];
      var last := ds[|ds| - 1];
      SuppressAllFacts(init, name, reason);
      BasesSnoc(SuppressAll(init, name, reason), Suppress(last, name, reason));
      TraceIdsSnoc(SuppressAll(init, name, reason), Suppress(last, name, reason));
      assert ds == init + [last];
      TraceIdsSnoc(init, last);
    }
  }

  /** A transfer splits the active list in two: the detections that move are
      exactly those the ownership test accepts and those that stay are
      exactly the others, each part in its original order (both are built
      by scanning the list once); together they hold the same detections and
      the same traces as the list. */
  lemma {:induction false} TransferSplits(active: seq<Detection>, traceId: string, owner: string)
    ensures multiset(Remaining(active, traceId, owner)) + multiset(Moved(active, traceId, owner)) == multiset(active)
    ensures forall d :: d in Moved(active, traceId, owner) <==> d in active && OwnedBy(d, traceId, owner)
    ensures forall d :: d in Remaining(active, traceId, owner) <==> d in active && !OwnedBy(d, traceId, owner)
  {
    if active != [] {
      var init := active[..|active| - 1];
      var last := active[|active| - 1];
      TransferSplits(init, traceId, owner);
      assert active == init + [last];
    }
  }

  lemma {:induction false} TransferSplitsBases(active: seq<Detection>, traceId: string, owner: string)
    ensures multiset(Bases(Remaining(active, traceId, owner))) + multiset(Bases(Moved(active, traceId, owner)))
         == multiset(Bases(active))
  {
    if active != [] {
      var init := active[..|active| - 1];
      var last := active[|active| - 1];
      TransferSplitsBases(init, traceId, owner);
      if OwnedBy(last, traceId, owner) {
        BasesSnoc(Moved(init, traceId, owner), last);
      } else {
        BasesSnoc(Remaining(init, traceId, owner), last);
      }
    }
  }

  lemma {:induction false} TransferSplitsTraces(active: seq<Detection>, traceId: string, owner: string)
    ensures TraceIds(Remaining(active, traceId, owner)) + TraceIds(Moved(active, traceId, owner)) == TraceIds(active)
  {
    if active != [] {
      var init := active[..|active| - 1];
      var last := active[|active| - 1];
      TransferSplitsTraces(init, traceId, owner);
      assert active == init + [last];
      TraceIdsSnoc(init, last);
      if OwnedBy(last, traceId, owner) {
        TraceIdsSnoc(Moved(init, traceId, owner), last);
      } else {
        TraceIdsSnoc(Remaining(init, traceId, owner), last);
      }
    }
  }

  /** `str.replace` with a one-character pattern keeps every other
      character. */
  lemma {:induction false} RemoveAllKeeps(s: string, pat: string, c: char)
    requires |pat| == 1 && c in s && c != pat[0]
    ensures c in RemoveAll(s, pat)
    decreases |s|
  {
    if s[0] == c {
      assert s[..1] != pat;
    } else {
      assert c in s[1..];
      RemoveAllKeeps(s[1..], pat, c);
    }
  }

  lemma LowerKeeps(s: string, c: char)
    requires c in s && !('A' <= c <= 'Z')
    ensures c in Lower(s)
  {
    var i :| 0 <= i < |s| && s[i] == c;
    assert Lower(s)[i] == c;
  }

  lemma LowerAvoids(s: string, c: char)
    requires 'a' <= c <= 'z' && c !in s && (c as int - 32) as char !in s
    ensures c !in Lower(s)
  {
  }

  /** A pattern containing a character the text lacks does not occur in it. */
  lemma NotSubstringByChar(a: string, b: string, c: char)
    requires c in a && c !in b
    ensures !IsSubstring(a, b)
  {
    SubstringAt(a, b);
  }

  /** The type test keeps a detection whose type contains a letter the old
      owner's name lacks, whatever the detector that produced it. The
      overkill-model detector's `expensive_model_short` detections (with an
      `x`) are therefore never moved out of the active list when a
      higher-priority detector takes their trace over. */
  lemma TypeWithForeignLetterStays(d: Detection, traceId: string, owner: string, c: char)
    requires 'a' <= c <= 'z' && c in d.kind
    requires c !in owner && (c as int - 32) as char !in owner
    ensures !OwnedBy(d, traceId, owner)
  {
    RemoveAllKeeps(d.kind, "_", c);
    RemoveAllKeeps(RemoveAll(d.kind, "_"), " ", c);
    LowerKeeps(RemoveAll(RemoveAll(d.kind, "_"), " "), c);
    LowerAvoids(owner, c);
    NotSubstringByChar(NormalizedType(d.kind), Lower(owner), c);
  }

  /** An empty type normalises to the empty string, which occurs in every
      name: a transfer moves every active detection of the trace whose type
      is empty or missing. */
  lemma EmptyTypeAlwaysMoves(d: Detection, traceId: string, owner: string)
    requires d.traceId == Some(traceId) && d.kind == ""
    ensures OwnedBy(d, traceId, owner)
  {
    assert NormalizedType("") == "";
    EmptyIsSubstring(Lower(owner));
  }

  // ---------------------------------------------------------------------
  // The engine on values
  // ---------------------------------------------------------------------

  /** `trace_ownership`, `active_detections`, `suppressed_detections`. */
  datatype EngineState = EngineState(
    ownership: map<string, string>,
    active: seq<Detection>,
    suppressed: seq<Detection>)

  /** The state in the middle of `process_detections`: the engine's fields,
      and `batch`, the local list of detections accepted so far in this call
      (added to the stored active list only at the end of the call). */
  datatype Work = Work(
    ownership: map<string, string>,
    stored: seq<Detection>,
    suppressed: seq<Detection>,
    batch: seq<Detection>)

  /** What `process_detections` leaves behind and what it returns. */
  datatype Processed = Processed(state: EngineState, accepted: seq<Detection>)

  /** What happens to one detection. */
  datatype Verdict =
    | NoTrace                      // accepted, ownership untouched
    | ByConfig                     // suppressed: disabled_by_config
    | Outranked(owner: string)     // suppressed: higher_priority_detector
    | Supersedes(owner: string)    // the owner's detections move, then accepted
    | Claims                       // accepted, the detector owns the trace

  /** The decision in the loop body of `process_detections`, in its order:
      trace id, configuration, then the two rank comparisons. */
  function Decide(cfg: Config, ownership: map<string, string>, name: string, d: Detection): (v: Verdict)
    ensures v == NoTrace <==> !HasTrace(d)
    ensures (v.Outranked? || v.Supersedes?) ==> HasTrace(d) && d.traceId.value in ownership && v.owner == ownership[d.traceId.value]
    ensures v.Outranked? ==> Priority(name) > Priority(v.owner)
    ensures v.Supersedes? ==> Priority(name) < Priority(v.owner)
    ensures v == Claims ==> HasTrace(d) && (d.traceId.value in ownership ==> Priority(name) == Priority(ownership[d.traceId.value]))
  {
    if !HasTrace(d) then NoTrace
    else
      var t := d.traceId.value;
      if ConfigSuppresses(cfg, ownership, name, t) then ByConfig
      else if t in ownership && Priority(name) > Priority(ownership[t]) then Outranked(ownership[t])
      else if t in ownership && Priority(name) < Priority(ownership[t]) then Supersedes(ownership[t])
      else Claims
  }

  /** `_transfer_ownership`: the old owner's detections on the trace leave
      the stored active list and their annotated copies are appended to the
      suppressed list. */
  function Transfer(w: Work, traceId: string, oldOwner: string, newOwner: string): Work {
    w.(stored := Remaining(w.stored, traceId, oldOwner),
       suppressed := w.suppressed + SuppressAll(Moved(w.stored, traceId, oldOwner), oldOwner, SupersededReason(newOwner)))
  }

  /** The detector claims the trace and the detection is accepted. */
  function Claim(w: Work, name: string, d: Detection): Work
    requires HasTrace(d)
  {
    w.(ownership := w.ownership[d.traceId.value := name], batch := w.batch + [Accept(d)])
  }

  /** One iteration of the loop in `process_detections`. */
  function Step(cfg: Config, name: string, w: Work, d: Detection): Work {
    match Decide(cfg, w.ownership, name, d)
    case NoTrace => w.(batch := w.batch + [d])
    case ByConfig => w.(suppressed := w.suppressed + [Suppress(d, name, DisabledByConfig)])
    case Outranked(owner) => w.(suppressed := w.suppressed + [Suppress(d, name, HigherPriorityReason(owner))])
    case Supersedes(owner) => Claim(Transfer(w, d.traceId.value, owner, name), name, d)
    case Claims => Claim(w, name, d)
  }

  /** The loop of `process_detections` over a prefix of the batch. */
  function Run(cfg: Config, name: string, w: Work, ds: seq<Detection>): Work {
    if ds == [] then w else Step(cfg, name, Run(cfg, name, w, ds[..|ds| - 1]), ds[|ds| - 1])
  }

  lemma RunOne(cfg: Config, name: string, w: Work, d: Detection)
    ensures Run(cfg, name, w, [d]) == Step(cfg, name, w, d)
  {
    assert [d][..0] == [];
  }

  function Begin(e: EngineState): Work {
    Work(e.ownership, e.active, e.suppressed, [])
  }

  function Finish(w: Work): Processed {
    Processed(EngineState(w.ownership, w.stored + w.batch, w.suppressed), w.batch)
  }

  /** `process_detections(detector_name, detections)`. */
  function Process(cfg: Config, name: string, e: EngineState, ds: seq<Detection>): Processed {
    Finish(Run(cfg, name, Begin(e), ds))
  }

  // ---------------------------------------------------------------------
  // One detection at a time
  // ---------------------------------------------------------------------

  /** A detection without a trace id is returned as active and appended to
      the active list unchanged; the ownership table is untouched. */
  lemma ProcessNoTrace(cfg: Config, name: string, e: EngineState, d: Detection)
    requires !HasTrace(d)
    ensures Process(cfg, name, e, [d]) == Processed(e.(active := e.active + [d]), [d])
  {
    RunOne(cfg, name, Begin(e), d);
  }

  /** Configuration suppression is decided before priority: the detection is
      suppressed with reason `disabled_by_config`, whatever the ranks, and
      nothing else changes. */
  lemma ProcessConfigSuppressed(cfg: Config, name: string, e: EngineState, d: Detection)
    requires HasTrace(d) && ConfigSuppresses(cfg, e.ownership, name, d.traceId.value)
    ensures Process(cfg, name, e, [d])
         == Processed(e.(suppressed := e.suppressed + [Suppress(d, name, DisabledByConfig)]), [])
  {
    RunOne(cfg, name, Begin(e), d);
  }

  /** A detector ranked strictly below the trace's owner is suppressed with
      reason `higher_priority_detector:<owner>`; the owner stays. */
  lemma ProcessOutranked(cfg: Config, name: string, e: EngineState, d: Detection)
    requires HasTrace(d) && !ConfigSuppresses(cfg, e.ownership, name, d.traceId.value)
    requires d.traceId.value in e.ownership
    requires Priority(name) > Priority(e.ownership[d.traceId.value])
    ensures Process(cfg, name, e, [d])
         == Processed(e.(suppressed := e.suppressed
                           + [Suppress(d, name, HigherPriorityReason(e.ownership[d.traceId.value]))]), [])
  {
    RunOne(cfg, name, Begin(e), d);
  }

  /** A detector ranked strictly above the trace's owner takes the trace
      over: the owner's matching active detections move, in order, to the
      suppressed list with reason `superseded_by:<detector>` (their
      `detector` and `suppressed_by` naming the old owner), every other
      active detection keeps its place, and the new detection is accepted. */
  lemma ProcessTakesOver(cfg: Config, name: string, e: EngineState, d: Detection)
    requires HasTrace(d) && d.traceId.value in e.ownership
    requires Priority(name) < Priority(e.ownership[d.traceId.value])
    ensures var t, owner := d.traceId.value, e.ownership[d.traceId.value];
      Process(cfg, name, e, [d])
        == Processed(EngineState(e.ownership[t := name],
                                 Remaining(e.active, t, owner) + [Accept(d)],
                                 e.suppressed + SuppressAll(Moved(e.active, t, owner), owner, SupersededReason(name))),
                     [Accept(d)])
  {
    var t, owner := d.traceId.value, e.ownership[d.traceId.value];
    var w := Begin(e);
    // An owner ranked below some detector is not the retry-loop detector,
    // so the configuration cannot silence the detection.
    assert owner != RetryLoopDetector by {
      PriorityOrder();
    }
    assert Decide(cfg, e.ownership, name, d) == Supersedes(owner);
    RunOne(cfg, name, w, d);
    var w1 := Transfer(w, t, owner, name);
    assert Step(cfg, name, w, d) == Claim(w1, name, d);
    assert Claim(w1, name, d) == Work(e.ownership[t := name], Remaining(e.active, t, owner),
      e.suppressed + SuppressAll(Moved(e.active, t, owner), owner, SupersededReason(name)), [Accept(d)]);
  }

  /** With no owner, or an owner of the same rank, the detection is accepted:
      the detector becomes the owner and the detection, with `suppressed_by`
      cleared, is appended to the active list. */
  lemma ProcessAccepts(cfg: Config, name: string, e: EngineState, d: Detection)
    requires HasTrace(d) && !ConfigSuppresses(cfg, e.ownership, name, d.traceId.value)
    requires d.traceId.value in e.ownership ==> Priority(name) == Priority(e.ownership[d.traceId.value])
    ensures Process(cfg, name, e, [d])
         == Processed(EngineState(e.ownership[d.traceId.value := name], e.active + [Accept(d)], e.suppressed),
                      [Accept(d)])
  {
    assert Decide(cfg, e.ownership, name, d) == Claims;
    RunOne(cfg, name, Begin(e), d);
  }

  // ---------------------------------------------------------------------
  // Whole batches
  // ---------------------------------------------------------------------

  /** The facts that hold of the engine between calls: the traces mentioned
      by the two lists are exactly the owned traces, accepted detections are
      marked not suppressed, and suppressed entries are annotated. */
  predicate Consistent(e: EngineState) {
    && TraceIds(e.active) + TraceIds(e.suppressed) == e.ownership.Keys
    && AllCleared(e.active)
    && AllAnnotated(e.suppressed)
  }

  predicate WorkConsistent(w: Work) {
    && TraceIds(w.stored) + TraceIds(w.batch) + TraceIds(w.suppressed) == w.ownership.Keys
    && AllCleared(w.stored) && AllCleared(w.batch)
    && AllAnnotated(w.suppressed)
  }

  lemma {:induction false} SuppressAllAnnotated(ds: seq<Detection>, name: string, reason: string)
    requires IsReason(reason) && forall d :: d in ds ==> HasTrace(d)
    ensures AllAnnotated(SuppressAll(ds, name, reason))
  {
    if ds != [] {
      SuppressAllAnnotated(ds[..|ds| - 1], name, reason);
      assert ds[|ds| - 1] in ds;
    }
  }

  lemma TransferConsistent(w: Work, t: string, oldOwner: string, newOwner: string)
    requires WorkConsistent(w) && t != ""
    ensures WorkConsistent(Transfer(w, t, oldOwner, newOwner))
  {
    var moved := Moved(w.stored, t, oldOwner);
    var reason := SupersededReason(newOwner);
    TransferSplits(w.stored, t, oldOwner);
    TransferKeepsTraces(w, t, oldOwner, newOwner);
    assert reason[..|"superseded_by:"|] == "superseded_by:";
    SuppressAllAnnotated(moved, oldOwner, reason);
    AnnotatedAppend(w.suppressed, SuppressAll(moved, oldOwner, reason));
  }

  /** A transfer moves detections between the lists without changing the
      set of trace ids they cover. */
  lemma TransferKeepsTraces(w: Work, t: string, oldOwner: string, newOwner: string)
    ensures var w' := Transfer(w, t, oldOwner, newOwner);
      TraceIds(w'.stored) + TraceIds(w'.batch) + TraceIds(w'.suppressed)
        == TraceIds(w.stored) + TraceIds(w.batch) + TraceIds(w.suppressed)
  {
    var moved := Moved(w.stored, t, oldOwner);
    var reason := SupersededReason(newOwner);
    TransferSplitsTraces(w.stored, t, oldOwner);
    SuppressAllFacts(moved, oldOwner, reason);
    TraceIdsAppend(w.suppressed, SuppressAll(moved, oldOwner, reason));
  }

  lemma AnnotatedAppend(a: seq<Detection>, b: seq<Detection>)
    requires AllAnnotated(a) && AllAnnotated(b)
    ensures AllAnnotated(a + b)
  {
  }

  lemma SuppressConsistent(w: Work, x: Detection)
    requires WorkConsistent(w) && Annotated(x) && x.traceId.value in w.ownership
    ensures WorkConsistent(w.(suppressed := w.suppressed + [x]))
  {
    TraceIdsSnoc(w.suppressed, x);
  }

  lemma ClaimConsistent(w: Work, name: string, d: Detection)
    requires WorkConsistent(w) && HasTrace(d)
    ensures WorkConsistent(Claim(w, name, d))
  {
    TraceIdsSnoc(w.batch, Accept(d));
  }

  lemma StepConsistent(cfg: Config, name: string, w: Work, d: Detection)
    requires WorkConsistent(w)
    ensures WorkConsistent(Step(cfg, name, w, d))
  {
    match Decide(cfg, w.ownership, name, d)
    case NoTrace =>
      TraceIdsSnoc(w.batch, d);
    case ByConfig =>
      SuppressConsistent(w, Suppress(d, name, DisabledByConfig));
    case Outranked(owner) =>
      var reason := HigherPriorityReason(owner);
      assert reason[..|"higher_priority_detector:"|] == "higher_priority_detector:";
      SuppressConsistent(w, Suppress(d, name, reason));
    case Supersedes(owner) =>
      TransferConsistent(w, d.traceId.value, owner, name);
      ClaimConsistent(Transfer(w, d.traceId.value, owner, name), name, d);
    case Claims =>
      ClaimConsistent(w, name, d);
  }

  lemma {:induction false} RunConsistent(cfg: Config, name: string, w: Work, ds: seq<Detection>)
    requires WorkConsistent(w)
    ensures WorkConsistent(Run(cfg, name, w, ds))
  {
    if ds != [] {
      RunConsistent(cfg, name, w, ds[..|ds| - 1]);
      StepConsistent(cfg, name, Run(cfg, name, w, ds[..|ds| - 1]), ds[|ds| - 1]);
    }
  }

  /** Processing a batch keeps the engine consistent: every owned trace is
      mentioned by some active or suppressed detection and every mentioned
      trace has exactly one owner, accepted detections are marked not
      suppressed, and every suppressed entry names its detector and one of
      the three reasons. */
  lemma ProcessConsistent(cfg: Config, name: string, e: EngineState, ds: seq<Detection>)
    requires Consistent(e)
    ensures Consistent(Process(cfg, name, e, ds).state)
  {
    assert TraceIds([]) == {};
    RunConsistent(cfg, name, Begin(e), ds);
    var w := Run(cfg, name, Begin(e), ds);
    TraceIdsAppend(w.stored, w.batch);
  }

  /** The multiset of base detections held by a work state. */
  function Held(w: Work): multiset<Detection> {
    multiset(Bases(w.stored)) + multiset(Bases(w.batch)) + multiset(Bases(w.suppressed))
  }

  lemma HeldAddBatch(w: Work, x: Detection)
    ensures Held(w.(batch := w.batch + [x])) == Held(w) + multiset{Base(x)}
  {
    BasesSnoc(w.batch, x);
  }

  lemma HeldAddSuppressed(w: Work, x: Detection)
    ensures Held(w.(suppressed := w.suppressed + [x])) == Held(w) + multiset{Base(x)}
  {
    BasesSnoc(w.suppressed, x);
  }

  lemma HeldTransfer(w: Work, t: string, oldOwner: string, newOwner: string)
    ensures Held(Transfer(w, t, oldOwner, newOwner)) == Held(w)
  {
    var moved := Moved(w.stored, t, oldOwner);
    var copies := SuppressAll(moved, oldOwner, SupersededReason(newOwner));
    TransferSplitsBases(w.stored, t, oldOwner);
    SuppressAllFacts(moved, oldOwner, SupersededReason(newOwner));
    BasesAppend(w.suppressed, copies);
  }

  lemma StepPartition(cfg: Config, name: string, w: Work, d: Detection)
    ensures Held(Step(cfg, name, w, d)) == Held(w) + multiset{Base(d)}
  {
    match Decide(cfg, w.ownership, name, d)
    case NoTrace =>
      HeldAddBatch(w, d);
    case ByConfig =>
      HeldAddSuppressed(w, Suppress(d, name, DisabledByConfig));
    case Outranked(owner) =>
      HeldAddSuppressed(w, Suppress(d, name, HigherPriorityReason(owner)));
    case Supersedes(owner) =>
      var w1 := Transfer(w, d.traceId.value, owner, name);
      HeldTransfer(w, d.traceId.value, owner, name);
      HeldAddBatch(w1, Accept(d));
      assert Claim(w1, name, d).batch == w1.(batch := w1.batch + [Accept(d)]).batch;
    case Claims =>
      HeldAddBatch(w, Accept(d));
      assert Claim(w, name, d).batch == w.(batch := w.batch + [Accept(d)]).batch;
  }

  lemma StepGrows(cfg: Config, name: string, w: Work, d: Detection)
    ensures w.suppressed <= Step(cfg, name, w, d).suppressed
    ensures w.batch <= Step(cfg, name, w, d).batch
  {
  }

  lemma {:induction false} RunPartition(cfg: Config, name: string, w: Work, ds: seq<Detection>)
    ensures Held(Run(cfg, name, w, ds)) == Held(w) + multiset(Bases(ds))
  {
    if ds != [] {
      var init, last := ds[..|ds| - 1], ds[|ds| - 1];
      var w0 := Run(cfg, name, w, init);
      RunPartition(cfg, name, w, init);
      StepPartition(cfg, name, w0, last);
    }
  }

  lemma {:induction false} RunGrows(cfg: Config, name: string, w: Work, ds: seq<Detection>)
    ensures w.suppressed <= Run(cfg, name, w, ds).suppressed
    ensures w.batch <= Run(cfg, name, w, ds).batch
  {
    if ds != [] {
      var init, last := ds[..|ds| - 1], ds[|ds| - 1];
      RunGrows(cfg, name, w, init);
      StepGrows(cfg, name, Run(cfg, name, w, init), last);
    }
  }

  lemma StepOwnership(cfg: Config, name: string, w: Work, d: Detection)
    ensures var o := Step(cfg, name, w, d).ownership;
      && w.ownership.Keys <= o.Keys <= w.ownership.Keys + TraceIds([d])
      && (forall t :: t in w.ownership ==> Priority(o[t]) <= Priority(w.ownership[t]))
      && (forall t :: t in o ==> (t in w.ownership && o[t] == w.ownership[t]) || o[t] == name)
  {
    TraceIdsOne(d);
  }

  lemma {:induction false} RunOwnership(cfg: Config, name: string, w: Work, ds: seq<Detection>)
    ensures var o := Run(cfg, name, w, ds).ownership;
      && w.ownership.Keys <= o.Keys <= w.ownership.Keys + TraceIds(ds)
      && (forall t :: t in w.ownership ==> Priority(o[t]) <= Priority(w.ownership[t]))
      && (forall t :: t in o ==> (t in w.ownership && o[t] == w.ownership[t]) || o[t] == name)
  {
    if ds != [] {
      var init := ds[..|ds| - 1];
      RunOwnership(cfg, name, w, init);
      StepOwnership(cfg, name, Run(cfg, name, w, init), ds[|ds| - 1]);
      assert ds == init + [ds[|ds| - 1]];
      TraceIdsAppend(init, [ds[|ds| - 1]]);
    }
  }

  /** No detection is lost or duplicated: after a call the active and
      suppressed lists hold, with the engine's keys removed, exactly what
      they held before plus the batch, so together they grow by the batch
      size. The suppressed list only grows (nothing is ever reactivated), and
      the returned detections are the tail of the new active list. */
  lemma ProcessConserves(cfg: Config, name: string, e: EngineState, ds: seq<Detection>)
    ensures var r := Process(cfg, name, e, ds);
      && multiset(Bases(r.state.active)) + multiset(Bases(r.state.suppressed))
           == multiset(Bases(e.active)) + multiset(Bases(e.suppressed)) + multiset(Bases(ds))
      && |r.state.active| + |r.state.suppressed| == |e.active| + |e.suppressed| + |ds|
      && e.suppressed <= r.state.suppressed
      && |r.accepted| <= |r.state.active|
      && r.state.active[|r.state.active| - |r.accepted|..] == r.accepted
  {
    var w0 := Begin(e);
    RunPartition(cfg, name, w0, ds);
    RunGrows(cfg, name, w0, ds);
    FinishConserves(e, ds, Run(cfg, name, w0, ds));
  }

  /** The bookkeeping step of `ProcessConserves`, on the final work state. */
  lemma FinishConserves(e: EngineState, ds: seq<Detection>, w: Work)
    requires Held(w) == Held(Begin(e)) + multiset(Bases(ds))
    requires e.suppressed <= w.suppressed
    ensures var r := Finish(w);
      && multiset(Bases(r.state.active)) + multiset(Bases(r.state.suppressed))
           == multiset(Bases(e.active)) + multiset(Bases(e.suppressed)) + multiset(Bases(ds))
      && |r.state.active| + |r.state.suppressed| == |e.active| + |e.suppressed| + |ds|
      && e.suppressed <= r.state.suppressed
      && |r.accepted| <= |r.state.active|
      && r.state.active[|r.state.active| - |r.accepted|..] == r.accepted
  {
    FinishBases(e, ds, w);
    FinishSize(e, ds, w);
    BatchIsSuffix(w);
  }

  lemma BatchIsSuffix(w: Work)
    ensures var active := w.stored + w.batch; active[|active| - |w.batch|..] == w.batch
  {
    var active := w.stored + w.batch;
    assert active[|active| - |w.batch|..] == active[|w.stored|..];
  }

  lemma FinishBases(e: EngineState, ds: seq<Detection>, w: Work)
    requires Held(w) == Held(Begin(e)) + multiset(Bases(ds))
    ensures multiset(Bases(w.stored + w.batch)) + multiset(Bases(w.suppressed))
         == multiset(Bases(e.active)) + multiset(Bases(e.suppressed)) + multiset(Bases(ds))
  {
    BasesAppend(w.stored, w.batch);
    assert Held(Begin(e)) == multiset(Bases(e.active)) + multiset(Bases(e.suppressed));
  }

  lemma FinishSize(e: EngineState, ds: seq<Detection>, w: Work)
    requires Held(w) == Held(Begin(e)) + multiset(Bases(ds))
    ensures |w.stored + w.batch| + |w.suppressed| == |e.active| + |e.suppressed| + |ds|
  {
    HeldSize(w);
    HeldSize(Begin(e));
    BasesCount(ds);
  }

  lemma BasesCount(ds: seq<Detection>)
    ensures |multiset(Bases(ds))| == |ds|
  {
  }

  lemma HeldSize(w: Work)
    ensures |Held(w)| == |w.stored| + |w.batch| + |w.suppressed|
  {
    BasesCount(w.stored);
    BasesCount(w.batch);
    BasesCount(w.suppressed);
  }

  /** Ownership after a call: no trace loses its owner, new owners appear only
      on traces of the batch, every changed entry names the calling detector,
      and a trace's owner never gets a worse rank. */
  lemma ProcessOwnership(cfg: Config, name: string, e: EngineState, ds: seq<Detection>)
    ensures var o := Process(cfg, name, e, ds).state.ownership;
      && e.ownership.Keys <= o.Keys <= e.ownership.Keys + TraceIds(ds)
      && (forall t :: t in e.ownership ==> Priority(o[t]) <= Priority(e.ownership[t]))
      && (forall t :: t in o ==> (t in e.ownership && o[t] == e.ownership[t]) || o[t] == name)
  {
    RunOwnership(cfg, name, Begin(e), ds);
  }

  // ---------------------------------------------------------------------
  // Configuration keys
  // ---------------------------------------------------------------------

  lemma {:induction false} RemoveAllChars(s: string, pat: string)
    requires pat != []
    ensures forall c :: c in RemoveAll(s, pat) ==> c in s
    decreases |s|
  {
    if |s| >= |pat| {
      if s[..|pat|] == pat {
        RemoveAllChars(s[|pat|..], pat);
      } else {
        RemoveAllChars(s[1..], pat);
      }
    }
  }

  /** A detector's configuration key never contains a character its name
      lacks (other than lower-cased letters), so a configuration entry keyed
      with an underscore, such as `fallback_storm`, never applies to a
      detector whose name has none, such as `FallbackStormDetector` (whose
      key is `fallbackstorm`). */
  lemma UnderscoreKeyNeverMatches(name: string, key: string)
    requires '_' in key && '_' !in name
    ensures ConfigKey(name) != key
  {
    RemoveAllChars(Lower(name), "detector");
  }

  // ---------------------------------------------------------------------
  // Summary
  // ---------------------------------------------------------------------

  /** `suppression_reason`, or `'unknown'` when absent. */
  function ReasonOf(d: Detection): string {
    d.suppressionReason.GetOr("unknown")
  }

  /** The reasons of the suppressed entries, in order. */
  function Reasons(suppressed: seq<Detection>): seq<string> {
    if suppressed == [] then [] else Reasons(suppressed[..|suppressed| - 1]) + [ReasonOf(suppressed[|suppressed| - 1])]
  }

  /** `suppression_breakdown`: the number of suppressed entries per reason,
      reasons in order of first appearance. */
  function Breakdown(suppressed: seq<Detection>): Tally<string> {
    TallyOf(Reasons(suppressed))
  }

  /** The number of entries with a given reason. */
  function CountReason(suppressed: seq<Detection>, reason: string): nat {
    if suppressed == [] then 0
    else CountReason(suppressed[..|suppressed| - 1], reason) + if ReasonOf(suppressed[|suppressed| - 1]) == reason then 1 else 0
  }

  lemma {:induction false} CountReasonOccurrences(suppressed: seq<Detection>, reason: string)
    ensures CountReason(suppressed, reason) == Occurrences(Reasons(suppressed), reason)
    ensures |Reasons(suppressed)| == |suppressed|
  {
    if suppressed != [] {
      var init := suppressed[..|suppressed| - 1];
      CountReasonOccurrences(init, reason);
      var rs := Reasons(suppressed);
      assert rs[..|rs| - 1] == Reasons(init);
    }
  }

  /** The breakdown lists each reason that occurs once, with the number of
      suppressed entries giving it, and its counts add up to the number of
      suppressed entries. */
  lemma BreakdownCounts(suppressed: seq<Detection>)
    ensures var t := Breakdown(suppressed);
      && Distinct(t.order)
      && (forall r :: r in t.counts <==> r in t.order)
      && (forall r :: r in t.counts ==> t.counts[r] == CountReason(suppressed, r) > 0)
      && (forall r :: r !in t.counts ==> CountReason(suppressed, r) == 0)
      && CountsSum(t.order, t.counts) == |suppressed|
  {
    TallyOfFacts(Reasons(suppressed));
    forall r ensures CountReason(suppressed, r) == Occurrences(Reasons(suppressed), r) {
      CountReasonOccurrences(suppressed, r);
    }
    CountReasonOccurrences(suppressed, "");
  }

  /** `get_suppression_summary()`. */
  datatype Summary = Summary(
    totalTracesAnalyzed: nat,
    activeIssues: nat,
    suppressedIssues: nat,
    suppressionBreakdown: Tally<string>,
    traceOwnership: map<string, string>)

  // ---------------------------------------------------------------------
  // The retry-loop detector and the type test
  // ---------------------------------------------------------------------

  /** Once the retry-loop detector owns a trace, every other detector's
      detection on it is suppressed, by configuration or with reason
      `higher_priority_detector:RetryLoopDetector`, and the trace keeps its
      owner. */
  lemma ProcessRetryOwned(cfg: Config, name: string, e: EngineState, d: Detection)
    requires HasTrace(d) && d.traceId.value in e.ownership && e.ownership[d.traceId.value] == RetryLoopDetector
    requires name != RetryLoopDetector
    ensures Process(cfg, name, e, [d])
         == Processed(e.(suppressed := e.suppressed + [Suppress(d, name,
              if ConfigSuppresses(cfg, e.ownership, name, d.traceId.value) then DisabledByConfig
              else HigherPriorityReason(RetryLoopDetector))]), [])
  {
    RetryLoopRanksFirst(name);
    if !ConfigSuppresses(cfg, e.ownership, name, d.traceId.value) {
      ProcessOutranked(cfg, name, e, d);
    } else {
      ProcessConfigSuppressed(cfg, name, e, d);
    }
  }

  lemma RetryLoopOwnershipIsFinal(cfg: Config, name: string, e: EngineState, d: Detection)
    requires HasTrace(d) && d.traceId.value in e.ownership && e.ownership[d.traceId.value] == RetryLoopDetector
    requires name != RetryLoopDetector
    ensures var r := Process(cfg, name, e, [d]);
      && r.accepted == []
      && r.state.ownership == e.ownership
      && r.state.active == e.active
      && (r.state.suppressed == e.suppressed + [Suppress(d, name, DisabledByConfig)]
          || r.state.suppressed == e.suppressed + [Suppress(d, name, "higher_priority_detector:RetryLoopDetector")])
  {
    ProcessRetryOwned(cfg, name, e, d);
    assert HigherPriorityReason(RetryLoopDetector) == "higher_priority_detector:RetryLoopDetector";
  }

  /** The retry-loop detector takes over any trace another detector owns:
      configuration never stops it (configuration only silences detectors on
      traces it already owns), the trace becomes its own, and the previous
      owner's matching active detections are suppressed with reason
      `superseded_by:RetryLoopDetector`. */
  lemma RetryLoopTakesOver(cfg: Config, name: string, e: EngineState, d: Detection)
    requires name == RetryLoopDetector
    requires HasTrace(d) && d.traceId.value in e.ownership && e.ownership[d.traceId.value] != name
    ensures var t, owner := d.traceId.value, e.ownership[d.traceId.value];
      var r := Process(cfg, name, e, [d]);
      && r.accepted == [Accept(d)]
      && r.state.ownership == e.ownership[t := name]
      && r.state.active == Remaining(e.active, t, owner) + [Accept(d)]
      && r.state.suppressed
           == e.suppressed + SuppressAll(Moved(e.active, t, owner), owner, SupersededReason(name))
  {
    RetryLoopRanksFirst(e.ownership[d.traceId.value]);
    ProcessTakesOver(cfg, name, e, d);
  }

  /** The type test does not recognise the overkill-model detector's own
      `expensive_model_short` detections: the normalised type
      `expensivemodelshort` has an `x`, which `overkillmodeldetector` lacks. */
  lemma ShortModelTypeNotRecognised(x: Detection, traceId: string, owner: string)
    requires owner == "OverkillModelDetector" && x.kind == "expensive_model_short"
    ensures !OwnedBy(x, traceId, owner)
  {
    assert x.kind[1] == 'x';
    forall i | 0 <= i < |owner| ensures owner[i] != 'x' && owner[i] != 'X' {
    }
    TypeWithForeignLetterStays(x, traceId, owner, 'x');
  }

  /** An active detection on the trace that the type test does not
      recognise outlives a takeover by the retry-loop detector. With
      `ShortModelTypeNotRecognised`: when the retry-loop detector takes over
      a trace the overkill-model detector owns, the overkill detection stays
      active beside the retry-loop one, so the trace then has active
      detections from two detectors. */
  lemma UnrecognisedDetectionSurvivesTakeover(cfg: Config, name: string, owner: string, e: EngineState,
                                              d: Detection, x: Detection)
    requires name == RetryLoopDetector
    requires HasTrace(d) && d.traceId.value in e.ownership && e.ownership[d.traceId.value] == owner && owner != name
    requires x in e.active && x.traceId == d.traceId && !OwnedBy(x, d.traceId.value, owner)
    ensures var r := Process(cfg, name, e, [d]);
      && r.state.ownership[d.traceId.value] == name
      && x in r.state.active && Accept(d) in r.state.active
  {
    TransferSplits(e.active, d.traceId.value, owner);
    RetryLoopTakesOver(cfg, name, e, d);
  }

  lemma ProcessKeepsValid(cfg: Config, name: string, e: EngineState, received: seq<Detection>, ds: seq<Detection>)
    requires Consistent(e)
    requires multiset(Bases(e.active)) + multiset(Bases(e.suppressed)) == multiset(Bases(received))
    ensures var r := Process(cfg, name, e, ds).state;
      && Consistent(r)
      && multiset(Bases(r.active)) + multiset(Bases(r.suppressed)) == multiset(Bases(received + ds))
  {
    ProcessConsistent(cfg, name, e, ds);
    ProcessConserves(cfg, name, e, ds);
    BasesAppend(received, ds);
  }

  /** The reason-counting loop of `get_suppression_summary`. */
  method CountReasons(suppressed: seq<Detection>) returns (breakdown: Tally<string>)
    ensures breakdown == Breakdown(suppressed)
  {
    var order: seq<string> := [];
    var counts: map<string, nat> := map[];
    for i := 0 to |suppressed|
      invariant Tally(order, counts) == Breakdown(suppressed[..i])
    {
      assert suppressed[..i + 1][..i] == suppressed[..i];
      var reason := suppressed[i].suppressionReason.GetOr("unknown");
      TallyOfSnoc(Reasons(suppressed[..i]), reason);
      if reason in counts {
        counts := counts[reason := counts[reason] + 1];
      } else {
        order := order + [reason];
        counts := counts[reason := 1];
      }
    }
    assert suppressed[..|suppressed|] == suppressed;
    breakdown := Tally(order, counts);
  }

  // ---------------------------------------------------------------------
  // The engine object
  // ---------------------------------------------------------------------

  /** `SuppressionEngine`: the ownership table and the two lists are fields
      that the methods update in place. */
  class SuppressionEngine {
    const suppressionConfig: Config
    const includeSuppressed: bool
    var traceOwnership: map<string, string>
    var suppressedDetections: seq<Detection>
    var activeDetections: seq<Detection>
    /** Every detection handed to the engine so far, in order. */
    ghost var received: seq<Detection>

    function State(): EngineState
      reads this
    {
      EngineState(traceOwnership, activeDetections, suppressedDetections)
    }

    /** The engine is consistent, and its two lists hold exactly the
        detections it received (with the keys it adds removed). */
    ghost predicate Valid()
      reads this
    {
      && Consistent(State())
      && multiset(Bases(activeDetections)) + multiset(Bases(suppressedDetections)) == multiset(Bases(received))
    }

    /** `__init__`: an absent configuration is an empty one. */
    constructor(config: Config, includeSuppressed: bool)
      ensures Valid()
      ensures suppressionConfig == config && this.includeSuppressed == includeSuppressed
      ensures State() == EngineState(map[], [], []) && received == []
    {
      suppressionConfig := config;
      this.includeSuppressed := includeSuppressed;
      traceOwnership := map[];
      suppressedDetections := [];
      activeDetections := [];
      received := [];
      assert TraceIds([]) == {};
    }

    /** `_is_detector_suppressed`. */
    predicate IsDetectorSuppressed(detectorName: string, traceId: string)
      reads this
    {
      ConfigSuppresses(suppressionConfig, traceOwnership, detectorName, traceId)
    }

    /** `_add_suppressed_detection`. */
    method AddSuppressedDetection(detection: Detection, detectorName: string, reason: string)
      modifies this`suppressedDetections
      ensures suppressedDetections == old(suppressedDetections) + [Suppress(detection, detectorName, reason)]
    {
      var suppressed := detection.(suppressedBy := SuppressedBy(detectorName),
                                   suppressionReason := Some(reason),
                                   detector := Some(detectorName));
      suppressedDetections := suppressedDetections + [suppressed];
    }

    /** `_transfer_ownership`: one pass splits the active list, then the
        old owner's detections are added to the suppressed list in order. */
    method TransferOwnership(traceId: string, oldOwner: string, newOwner: string)
      modifies this`activeDetections, this`suppressedDetections
      ensures activeDetections == Remaining(old(activeDetections), traceId, oldOwner)
      ensures suppressedDetections
           == old(suppressedDetections)
              + SuppressAll(Moved(old(activeDetections), traceId, oldOwner), oldOwner, SupersededReason(newOwner))
    {
      var toSuppress: seq<Detection> := [];
      var remainingActive: seq<Detection> := [];
      for i := 0 to |activeDetections|
        invariant toSuppress == Moved(activeDetections[..i], traceId, oldOwner)
        invariant remainingActive == Remaining(activeDetections[..i], traceId, oldOwner)
      {
        var detection := activeDetections[i];
        assert activeDetections[..i + 1][..i] == activeDetections[..i];
        if detection.traceId == Some(traceId)
           && IsSubstring(NormalizedType(detection.kind), Lower(oldOwner)) {
          toSuppress := toSuppress + [detection];
        } else {
          remainingActive := remainingActive + [detection];
        }
      }
      assert activeDetections[..|activeDetections|] == activeDetections;
      for i := 0 to |toSuppress|
        invariant activeDetections == old(activeDetections)
        invariant suppressedDetections
               == old(suppressedDetections) + SuppressAll(toSuppress[..i], oldOwner, SupersededReason(newOwner))
      {
        assert toSuppress[..i + 1][..i] == toSuppress[..i];
        AddSuppressedDetection(toSuppress[i], oldOwner, SupersededReason(newOwner));
      }
      assert toSuppress[..|toSuppress|] == toSuppress;
      activeDetections := remainingActive;
    }

    /** One iteration of the loop of `process_detections`: `active` is the
        list of detections accepted so far in the call. */
    method ProcessOne(detectorName: string, detection: Detection, active: seq<Detection>)
      returns (active': seq<Detection>)
      modifies this`traceOwnership, this`activeDetections, this`suppressedDetections
      ensures Work(traceOwnership, activeDetections, suppressedDetections, active')
           == Step(suppressionConfig, detectorName,
                   Work(old(traceOwnership), old(activeDetections), old(suppressedDetections), active), detection)
    {
      active' := active;
      if !(detection.traceId.Some? && detection.traceId.value != "") {
        assert Decide(suppressionConfig, traceOwnership, detectorName, detection) == NoTrace;
        active' := active + [detection];
        return;
      }
      var traceId := detection.traceId.value;
      if IsDetectorSuppressed(detectorName, traceId) {
        assert Decide(suppressionConfig, traceOwnership, detectorName, detection) == ByConfig;
        AddSuppressedDetection(detection, detectorName, DisabledByConfig);
        return;
      }
      if traceId in traceOwnership {
        var currentOwner := traceOwnership[traceId];
        var currentPriority := Priority(detectorName);
        var ownerPriority := Priority(currentOwner);
        if currentPriority > ownerPriority {
          assert Decide(suppressionConfig, traceOwnership, detectorName, detection) == Outranked(currentOwner);
          AddSuppressedDetection(detection, detectorName, HigherPriorityReason(currentOwner));
          return;
        } else if currentPriority < ownerPriority {
          assert Decide(suppressionConfig, traceOwnership, detectorName, detection) == Supersedes(currentOwner);
          TransferOwnership(traceId, currentOwner, detectorName);
          traceOwnership := traceOwnership[traceId := detectorName];
          active' := active + [detection.(suppressedBy := Cleared)];
          return;
        }
      }
      assert Decide(suppressionConfig, traceOwnership, detectorName, detection) == Claims;
      traceOwnership := traceOwnership[traceId := detectorName];
      active' := active + [detection.(suppressedBy := Cleared)];
    }

    /** `process_detections`: the detections are handled in order as `Step`
        describes, the accepted ones are collected in `active`, appended to
        the stored active list at the end and returned. */
    method ProcessDetections(detectorName: string, detections: seq<Detection>) returns (active: seq<Detection>)
      requires Valid()
      modifies this
      ensures Valid()
      ensures received == old(received) + detections
      ensures Processed(State(), active) == Process(suppressionConfig, detectorName, old(State()), detections)
    {
      active := [];
      for i := 0 to |detections|
        invariant Work(traceOwnership, activeDetections, suppressedDetections, active)
               == Run(suppressionConfig, detectorName, Begin(old(State())), detections[..i])
        invariant received == old(received)
      {
        assert detections[..i + 1][..i] == detections[..i];
        active := ProcessOne(detectorName, detections[i], active);
      }
      assert detections[..|detections|] == detections;
      ghost var r := Process(suppressionConfig, detectorName, old(State()), detections);
      ProcessKeepsValid(suppressionConfig, detectorName, old(State()), old(received), detections);
      activeDetections := activeDetections + active;
      received := received + detections;
      assert r.state == State();
    }

    /** `get_suppression_summary`. */
    method GetSuppressionSummary() returns (summary: Summary)
      requires Valid()
      ensures summary.totalTracesAnalyzed == |TraceIds(activeDetections + suppressedDetections)|
      ensures summary.totalTracesAnalyzed == |traceOwnership.Keys|
      ensures summary.activeIssues == |activeDetections|
      ensures summary.suppressedIssues == |suppressedDetections|
      ensures summary.suppressionBreakdown == Breakdown(suppressedDetections)
      ensures CountsSum(summary.suppressionBreakdown.order, summary.suppressionBreakdown.counts)
           == summary.suppressedIssues
      ensures summary.traceOwnership == traceOwnership
    {
      var traces := set d | d in activeDetections + suppressedDetections && d.traceId.Some? && d.traceId.value != "" :: d.traceId.value;
      assert traces == TraceIds(activeDetections + suppressedDetections);
      var breakdown := CountReasons(suppressedDetections);
      BreakdownCounts(suppressedDetections);
      TraceIdsAppend(activeDetections, suppressedDetections);
      summary := Summary(|traces|, |activeDetections|, |suppressedDetections|, breakdown, traceOwnership);
    }
  }
}
