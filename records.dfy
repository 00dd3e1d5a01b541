/** The call records the pattern detectors read, one per LLM request, and
    the helpers two detectors share: the time span of a group of records and
    the ordering of a trace's records by start time.

    Records are Python dicts in the source; here each key a detector reads
    is a field, `None` standing for a key that is missing. Timestamps are
    whole seconds instead of ISO-8601 strings. */
module Records {
  import opened Common

  datatype Record = Record(
    model: Option<string>,
    prompt: Option<string>,
    promptTokens: Option<int>,
    completionTokens: Option<int>,
    cost: Option<real>,
    startTime: Option<int>,
    timestamp: Option<int>)

  /** One entry of the `traces` dict handed to every detector: a trace id
      and its records, entries in the dict's iteration order. */
  datatype TraceEntry = TraceEntry(traceId: string, records: seq<Record>)

  /** `record.get('prompt', '')` */
  function PromptOf(r: Record): string { r.prompt.GetOr("") }

  /** `record.get('completion_tokens', 0)` */
  function CompletionTokensOf(r: Record): int { r.completionTokens.GetOr(0) }

  /** `record.get('cost', 0.0)` */
  function CostOf(r: Record): real { r.cost.GetOr(0.0) }

  /** `sum(r.get('completion_tokens', 0) for r in group)` */
  function TotalCompletionTokens(group: seq<Record>): int {
    SumOf(group, CompletionTokensOf)
  }

  /** `sum(r.get('cost', 0.0) for r in group)` */
  function TotalCost(group: seq<Record>): real {
    SumReal(group, CostOf)
  }

  // ---------------------------------------------------------------------
  // Time span of a group
  // ---------------------------------------------------------------------

  /** The timestamps that could be read, in order. */
  function Present(ts: seq<Option<int>>): seq<int> {
    if ts == [] then [] else
      var init := Present(ts[..|ts| - 1]);
      if ts[|ts| - 1].Some? then init + [ts[|ts| - 1].value] else init
  }

  function MaxOf(s: seq<int>): int
    requires s != []
  {
    if |s| == 1 then s[0] else Max(MaxOf(s[..|s| - 1]), s[|s| - 1])
  }

  function MinOf(s: seq<int>): int
    requires s != []
  {
    if |s| == 1 then s[0] else Min(MinOf(s[..|s| - 1]), s[|s| - 1])
  }

  /** The span, in seconds, that `_get_time_span` reports for a group whose
      timestamps (one per record, `None` when missing or unreadable) are
      `ts`: zero for fewer than two records or fewer than two readable
      timestamps, otherwise latest minus earliest. */
  function Span(ts: seq<Option<int>>): int {
    if |ts| < 2 then 0
    else
      var p := Present(ts);
      if |p| < 2 then 0 else MaxOf(p) - MinOf(p)
  }

  lemma {:induction false} MaxMinBounds(s: seq<int>)
    requires s != []
    ensures forall x :: x in s ==> MinOf(s) <= x <= MaxOf(s)
    ensures MaxOf(s) in s && MinOf(s) in s
  {
    if |s| > 1 {
      var init := s[..|s| - 1];
      MaxMinBounds(init);
      assert forall x :: x in s ==> x in init || x == s[|s| - 1];
    }
  }

  lemma {:induction false} PresentMembers(ts: seq<Option<int>>)
    ensures forall x :: x in Present(ts) <==> Some(x) in ts
    ensures |Present(ts)| <= |ts|
  {
    if ts != [] {
      var init := ts[..|ts| - 1];
      PresentMembers(init);
      assert forall o :: o in ts <==> o in init || o == ts[|ts| - 1];
    }
  }

  /** The span is the widest gap between two readable timestamps of the
      group: it is never negative, every pair of readable timestamps lies
      within it, and it is attained by some pair (zero when there are fewer
      than two). */
  lemma SpanIsWidestGap(ts: seq<Option<int>>)
    ensures Span(ts) >= 0
    ensures forall a, b :: Some(a) in ts && Some(b) in ts ==> a - b <= Span(ts)
    ensures |Present(ts)| >= 2 ==> exists a, b :: Some(a) in ts && Some(b) in ts && a - b == Span(ts)
    ensures |Present(ts)| < 2 ==> Span(ts) == 0
  {
    var p := Present(ts);
    PresentMembers(ts);
    if |p| >= 2 {
      MaxMinBounds(p);
      assert Some(MaxOf(p)) in ts && Some(MinOf(p)) in ts;
    } else if p != [] {
      assert p == [p[0]];
      forall a, b | Some(a) in ts && Some(b) in ts ensures a == b {
        assert a in p && b in p;
      }
    }
  }

  /** `_get_time_span` of the fallback-storm and retry-loop detectors: it
      collects the readable timestamps of the group and reports the span
      between the earliest and the latest. */
  method TimeSpan(ts: seq<Option<int>>) returns (span: int)
    ensures span == Span(ts)
  {
    if |ts| < 2 {
      return 0;
    }
    var count := 0;
    var hi, lo := 0, 0;
    for i := 0 to |ts|
      invariant count == |Present(ts[..i])|
      invariant count > 0 ==> hi == MaxOf(Present(ts[..i])) && lo == MinOf(Present(ts[..i]))
    {
      assert ts[..i + 1][..i] == ts[..i];
      if ts[i].Some? {
        var t := ts[i].value;
        var p := Present(ts[..i + 1]);
        assert p[..|p| - 1] == Present(ts[..i]);
        if count == 0 {
          hi, lo := t, t;
        } else {
          hi, lo := Max(hi, t), Min(lo, t);
        }
        count := count + 1;
      }
    }
    assert ts[..|ts|] == ts;
    span := if count < 2 then 0 else hi - lo;
  }

  // ---------------------------------------------------------------------
  // Ordering by start time
  // ---------------------------------------------------------------------

  /** The start time of a record that has one. */
  function StartOf(r: Record): int { r.startTime.GetOr(0) }

  predicate SortedByStart(s: seq<Record>) {
    forall i, j :: 0 <= i < j < |s| ==> StartOf(s[i]) <= StartOf(s[j])
  }

  /** Place `x` before the first record that does not start earlier. */
  function InsertByStart(x: Record, s: seq<Record>): seq<Record> {
    if s == [] then [x]
    else if StartOf(x) <= StartOf(s[0]) then [x] + s
    else [s[0]] + InsertByStart(x, s[1..])
  }

  /** `sorted(records, key=lambda r: r.get('startTime', ''))` for records that
      all have a start time: a stable insertion sort (an earlier record goes in
      front of later records with the same start time). */
  function SortByStart(s: seq<Record>): seq<Record> {
    if s == [] then [] else InsertByStart(s[0], SortByStart(s[1..]))
  }

  lemma {:induction false} InsertByStartCount(x: Record, s: seq<Record>)
    ensures multiset(InsertByStart(x, s)) == multiset(s) + multiset{x}
    ensures |InsertByStart(x, s)| == |s| + 1
  {
    if s != [] && StartOf(x) > StartOf(s[0]) {
      InsertByStartCount(x, s[1..]);
      assert s == [s[0]] + s[1..];
    }
  }

  /** A record no later than any of a sorted list's keeps it sorted in front. */
  lemma SortedCons(h: Record, r: seq<Record>)
    requires SortedByStart(r)
    requires forall y :: y in r ==> StartOf(h) <= StartOf(y)
    ensures SortedByStart([h] + r)
  {
    var t := [h] + r;
    forall i, j | 0 <= i < j < |t| ensures StartOf(t[i]) <= StartOf(t[j]) {
      assert t[j] == r[j - 1];
      if i > 0 {
        assert t[i] == r[i - 1];
      }
    }
  }

  lemma {:induction false} InsertByStartFacts(x: Record, s: seq<Record>)
    requires SortedByStart(s)
    ensures SortedByStart(InsertByStart(x, s))
    ensures multiset(InsertByStart(x, s)) == multiset(s) + multiset{x}
    ensures |InsertByStart(x, s)| == |s| + 1
  {
    InsertByStartCount(x, s);
    if s != [] && StartOf(x) > StartOf(s[0]) {
      InsertByStartFacts(x, s[1..]);
      var r := InsertByStart(x, s[1..]);
      forall y | y in r ensures StartOf(s[0]) <= StartOf(y) {
        assert y in multiset(r);
        if y != x {
          assert y in multiset(s[1..]);
          var k :| 0 <= k < |s[1..]| && s[1..][k] == y;
          assert s[k + 1] == y;
        }
      }
      SortedCons(s[0], r);
    }
  }

  /** The sorted records are the input records, rearranged into start-time
      order. */
  lemma {:induction false} SortByStartFacts(s: seq<Record>)
    ensures SortedByStart(SortByStart(s))
    ensures multiset(SortByStart(s)) == multiset(s)
    ensures |SortByStart(s)| == |s|
  {
    if s != [] {
      SortByStartFacts(s[1..]);
      InsertByStartFacts(s[0], SortByStart(s[1..]));
      assert s == [s[0]] + s[1..];
    }
  }
}
