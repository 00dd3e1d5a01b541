/** The grouping step of the Slack-style report
    (`SlackFormatter._aggregate_detections`,
    crashlens/reporters/slack_formatter.py): detections are collected, in
    order, into one group per key, each group counting its members, summing
    their waste and keeping up to three distinct sample prompts. The text
    layout that follows is not part of this model. */
module SlackAggregation {
  import opened Common
  import opened Detections
  import opened Grouping
  import ExpensiveModelShort

  /** At most this many sample prompts are kept per group. */
  const MaxSamples := 3

  /** `detection.get('model_used', 'unknown')` */
  function ModelUsedOf(d: Detection): string { d.modelUsed.GetOr("unknown") }

  /** `detection.get('suggested_model', 'unknown')` */
  function SuggestedOf(d: Detection): string { d.suggestedModel.GetOr("unknown") }

  /** `detection.get('severity', 'medium')` */
  function SeverityOf(d: Detection): string { d.severity.GetOr("medium") }

  /** `detection.get('waste_cost', 0)` */
  function WasteCostOf(d: Detection): real { d.wasteCost.GetOr(0.0) }

  /** `detection.get('waste_tokens', 0)` */
  function WasteTokensOf(d: Detection): int { d.wasteTokens.GetOr(0) }

  /** `detection.get('sample_prompt', '')` */
  function SampleOf(d: Detection): string { d.samplePrompt.GetOr("") }

  /** The aggregation key: the detection type, refined by the used and the
      suggested model for expensive-model detections only. */
  function KeyOf(d: Detection): string {
    if d.kind == ExpensiveModelShort.ShortKind then d.kind + "_" + ModelUsedOf(d) + "_" + SuggestedOf(d)
    else d.kind
  }

  function GroupKey(): Detection -> Option<string> {
    d => Some(KeyOf(d))
  }

  /** One entry of the `aggregated` dict. */
  datatype Group = Group(
    kind: string,
    count: int,
    totalWasteCost: real,
    totalWasteTokens: int,
    samplePrompts: seq<string>,
    modelUsed: string,
    suggestedModel: string,
    severity: string,
    detections: seq<Detection>)

  /** The `aggregated` dict: keys in insertion order and their groups. */
  datatype Aggregated = Aggregated(order: seq<string>, groups: map<string, Group>)

  // ---------------------------------------------------------------------
  // The aggregation, one detection at a time
  // ---------------------------------------------------------------------

  /** A fresh group, its descriptive fields taken from the detection that
      opens it. */
  function NewGroup(d: Detection): Group {
    Group(d.kind, 0, 0.0, 0, [], ModelUsedOf(d), SuggestedOf(d), SeverityOf(d), [])
  }

  /** A prompt is kept when it is non-empty, not yet kept, and fewer than
      three are kept. */
  function AddSample(samples: seq<string>, prompt: string): seq<string> {
    if prompt != "" && prompt !in samples && |samples| < MaxSamples then samples + [prompt] else samples
  }

  /** The updates one detection makes to its group. */
  function Absorb(g: Group, d: Detection): Group {
    g.(count := g.count + 1,
       totalWasteCost := g.totalWasteCost + WasteCostOf(d),
       totalWasteTokens := g.totalWasteTokens + WasteTokensOf(d),
       detections := g.detections + [d],
       samplePrompts := AddSample(g.samplePrompts, SampleOf(d)))
  }

  function Step(agg: Aggregated, d: Detection): Aggregated {
    var k := KeyOf(d);
    if k in agg.groups then Aggregated(agg.order, agg.groups[k := Absorb(agg.groups[k], d)])
    else Aggregated(agg.order + [k], agg.groups[k := Absorb(NewGroup(d), d)])
  }

  /** The result of `_aggregate_detections(detections)`. */
  function Aggregate(ds: seq<Detection>): Aggregated {
    if ds == [] then Aggregated([], map[]) else Step(Aggregate(ds[..|ds| - 1]), ds[|ds| - 1])
  }

  // ---------------------------------------------------------------------
  // A closed form of each group
  // ---------------------------------------------------------------------

  /** The non-empty sample prompts of `ds`, in order. */
  function Prompts(ds: seq<Detection>): seq<string> {
    if ds == [] then [] else
      var init := Prompts(ds[..|ds| - 1]);
      if SampleOf(ds[|ds| - 1]) != "" then init + [SampleOf(ds[|ds| - 1])] else init
  }

  /** The first three distinct non-empty sample prompts of `ds`. */
  function Samples(ds: seq<Detection>): seq<string> {
    var distinct := Dedup(Prompts(ds));
    if |distinct| <= MaxSamples then distinct else distinct[..MaxSamples]
  }

  /** What a group holding the detections `ds` should say: the first
      detection's type, models and severity, the number of detections,
      their summed waste, and the first three distinct prompts. */
  function Summary(ds: seq<Detection>): Group
    requires ds != []
  {
    Group(ds[0].kind, |ds|, SumReal(ds, WasteCostOf), SumOf(ds, WasteTokensOf), Samples(ds),
          ModelUsedOf(ds[0]), SuggestedOf(ds[0]), SeverityOf(ds[0]), ds)
  }

  lemma PromptsSnoc(ds: seq<Detection>, d: Detection)
    ensures Prompts(ds + [d]) == Prompts(ds) + (if SampleOf(d) != "" then [SampleOf(d)] else [])
  {
    assert (ds + [d])[..|ds + [d]| - 1] == ds;
  }

  /** Keeping prompts one detection at a time keeps the first three distinct
      non-empty ones. */
  lemma SamplesSnoc(ds: seq<Detection>, d: Detection)
    ensures Samples(ds + [d]) == AddSample(Samples(ds), SampleOf(d))
  {
    PromptsSnoc(ds, d);
    var p := SampleOf(d);
    var ps := Prompts(ds);
    var u := Dedup(ps);
    if p != "" {
      assert (ps + [p])[..|ps + [p]| - 1] == ps;
      if p !in u {
        assert Dedup(ps + [p]) == u + [p];
        if |u| >= MaxSamples {
          assert (u + [p])[..MaxSamples] == u[..MaxSamples];
        }
      }
    } else {
      assert Prompts(ds + [d]) == ps;
    }
  }

  /** A group built by absorbing detections one at a time is the summary of
      those detections. */
  lemma AbsorbSummary(ds: seq<Detection>, d: Detection)
    ensures Absorb(if ds == [] then NewGroup(d) else Summary(ds), d) == Summary(ds + [d])
  {
    var ds' := ds + [d];
    assert ds'[..|ds'| - 1] == ds;
    SamplesSnoc(ds, d);
    assert SumReal(ds', WasteCostOf) == SumReal(ds, WasteCostOf) + WasteCostOf(d);
    assert SumOf(ds', WasteTokensOf) == SumOf(ds, WasteTokensOf) + WasteTokensOf(d);
    if ds == [] {
      assert ds'[0] == d;
      assert Samples(ds) == [] by {
        assert Prompts(ds) == [];
      }
    } else {
      assert ds'[0] == ds[0];
    }
  }

  /** The distinct-prompt list holds at most three distinct non-empty prompts
      of the group's detections; when it holds fewer than three, every
      non-empty prompt of the group is in it. */
  lemma {:induction false} SamplesFacts(ds: seq<Detection>)
    ensures |Samples(ds)| <= MaxSamples
    ensures Distinct(Samples(ds))
    ensures forall p :: p in Samples(ds) ==> p != "" && exists d :: d in ds && SampleOf(d) == p
    ensures |Samples(ds)| < MaxSamples ==> forall d :: d in ds && SampleOf(d) != "" ==> SampleOf(d) in Samples(ds)
  {
    PromptsMembers(ds);
    var u := Dedup(Prompts(ds));
    DedupFacts(Prompts(ds));
    if |u| > MaxSamples {
      forall p | p in Samples(ds) ensures p in u {
      }
    }
  }

  /** The prompts list holds exactly the non-empty prompts of `ds`. */
  lemma {:induction false} PromptsMembers(ds: seq<Detection>)
    ensures forall p :: p in Prompts(ds) <==> p != "" && exists d :: d in ds && SampleOf(d) == p
  {
    if ds != [] {
      var init := ds[..|ds| - 1];
      var last := ds[|ds| - 1];
      assert ds == init + [last];
      PromptsMembers(init);
      PromptsSnoc(init, last);
      forall p ensures p in Prompts(ds) <==> p != "" && exists d :: d in ds && SampleOf(d) == p {
        if p != "" && exists d :: d in ds && SampleOf(d) == p {
          var d :| d in ds && SampleOf(d) == p;
          if d != last {
            assert d in init;
          }
        }
      }
    }
  }

  // ---------------------------------------------------------------------
  // The aggregation is a grouping
  // ---------------------------------------------------------------------

  /** The aggregated dict has the keys of the detections in order of first
      appearance, and each group is the summary of exactly the detections
      with its key, in input order. */
  lemma {:induction false} AggregateIsGrouping(ds: seq<Detection>)
    ensures Aggregate(ds).order == GroupBy(ds, GroupKey()).order
    ensures forall k :: k in Aggregate(ds).groups <==> k in GroupBy(ds, GroupKey()).members
    ensures forall k :: k in Aggregate(ds).groups ==>
      GroupBy(ds, GroupKey()).members[k] != [] &&
      Aggregate(ds).groups[k] == Summary(GroupBy(ds, GroupKey()).members[k])
  {
    GroupByMembers(ds, GroupKey());
    if ds != [] {
      var init := ds[..|ds| - 1];
      var d := ds[|ds| - 1];
      AggregateIsGrouping(init);
      GroupByMembers(init, GroupKey());
      var k := KeyOf(d);
      var g0 := GroupBy(init, GroupKey());
      assert GroupKey()(d) == Some(k);
      if k in g0.members {
        AbsorbSummary(g0.members[k], d);
      } else {
        AbsorbSummary([], d);
      }
    }
  }

  /** Every detection lands in exactly one group, the one of its key. */
  lemma AggregateMembers(ds: seq<Detection>)
    ensures forall d :: d in ds ==> KeyOf(d) in Aggregate(ds).groups
    ensures forall k, d :: k in Aggregate(ds).groups ==>
      (d in Aggregate(ds).groups[k].detections <==> d in ds && KeyOf(d) == k)
  {
    var agg := Aggregate(ds);
    var g := GroupBy(ds, GroupKey());
    AggregateIsGrouping(ds);
    GroupByMembers(ds, GroupKey());
    forall k | k in agg.groups
      ensures forall d :: d in agg.groups[k].detections <==> d in ds && KeyOf(d) == k
    {
      assert agg.groups[k].detections == Keyed(ds, GroupKey(), k);
      KeyedMembers(ds, GroupKey(), k);
    }
    forall d | d in ds ensures KeyOf(d) in agg.groups {
      var k := KeyOf(d);
      KeyedMembers(ds, GroupKey(), k);
      assert GroupKey()(d) == Some(k);
      assert d in Keyed(ds, GroupKey(), k);
    }
  }

  /** The group counts, over the keys in order, add up to the number of
      detections. */
  lemma AggregateTotal(ds: seq<Detection>)
    ensures SumOf(Aggregate(ds).order, k => if k in Aggregate(ds).groups then Aggregate(ds).groups[k].count else 0) == |ds|
  {
    var agg := Aggregate(ds);
    var g := GroupBy(ds, GroupKey());
    AggregateIsGrouping(ds);
    GroupByTotal(ds, GroupKey());
    KeySeqTotal(ds);
    var counts := k => if k in agg.groups then agg.groups[k].count else 0;
    var sizes := k => if k in g.members then |g.members[k]| else 0;
    forall k | k in agg.order ensures counts(k) == sizes(k) {
      if k in agg.groups {
        assert agg.groups[k].count == Summary(g.members[k]).count;
      }
    }
    SumOfSame(agg.order, counts, sizes);
  }

  lemma {:induction false} KeySeqTotal(ds: seq<Detection>)
    ensures |KeySeq(ds, GroupKey())| == |ds|
  {
    if ds != [] {
      KeySeqTotal(ds[..|ds| - 1]);
    }
  }

  /** Each group's fixed fields come from its first detection, its count
      and sums cover all of its detections, and its prompts obey the
      three-sample rule. */
  lemma AggregateGroupFacts(ds: seq<Detection>, k: string)
    requires k in Aggregate(ds).groups
    ensures var grp := Aggregate(ds).groups[k];
      && grp.detections != []
      && grp.count == |grp.detections|
      && grp.kind == grp.detections[0].kind
      && grp.modelUsed == ModelUsedOf(grp.detections[0])
      && grp.suggestedModel == SuggestedOf(grp.detections[0])
      && grp.severity == SeverityOf(grp.detections[0])
      && grp.totalWasteTokens == SumOf(grp.detections, WasteTokensOf)
      && grp.totalWasteCost == SumReal(grp.detections, WasteCostOf)
      && |grp.samplePrompts| <= MaxSamples && Distinct(grp.samplePrompts)
      && (forall p :: p in grp.samplePrompts ==> p != "")
  {
    AggregateIsGrouping(ds);
    SamplesFacts(GroupBy(ds, GroupKey()).members[k]);
  }

  // ---------------------------------------------------------------------
  // `_aggregate_detections`
  // ---------------------------------------------------------------------

  /** The body of the loop of `_aggregate_detections`: one detection added
      to the dict. */
  method AggregateOne(aggregated: Aggregated, detection: Detection) returns (next: Aggregated)
    ensures next == Step(aggregated, detection)
  {
    var detType := detection.kind;
    var modelUsed := detection.modelUsed.GetOr("unknown");
    var suggestedModel := detection.suggestedModel.GetOr("unknown");
    var key := if detType == ExpensiveModelShort.ShortKind then detType + "_" + modelUsed + "_" + suggestedModel else detType;
    next := aggregated;
    if key !in next.groups {
      var newGroup := Group(detType, 0, 0.0, 0, [], modelUsed, suggestedModel, detection.severity.GetOr("medium"), []);
      next := Aggregated(next.order + [key], next.groups[key := newGroup]);
    }
    var group := next.groups[key];
    group := group.(count := group.count + 1);
    group := group.(totalWasteCost := group.totalWasteCost + detection.wasteCost.GetOr(0.0));
    group := group.(totalWasteTokens := group.totalWasteTokens + detection.wasteTokens.GetOr(0));
    group := group.(detections := group.detections + [detection]);
    var samplePrompt := detection.samplePrompt.GetOr("");
    if samplePrompt != "" && samplePrompt !in group.samplePrompts && |group.samplePrompts| < MaxSamples {
      group := group.(samplePrompts := group.samplePrompts + [samplePrompt]);
    }
    next := next.(groups := next.groups[key := group]);
  }

  method AggregateDetections(detections: seq<Detection>) returns (aggregated: Aggregated)
    ensures aggregated == Aggregate(detections)
  {
    aggregated := Aggregated([], map[]);
    for i := 0 to |detections|
      invariant aggregated == Aggregate(detections[..i])
    {
      assert detections[..i + 1][..i] == detections[..i];
      aggregated := AggregateOne(aggregated, detections[i]);
    }
    assert detections[..|detections|] == detections;
  }
}
