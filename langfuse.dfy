/** The Langfuse log parser (`LangfuseParser`, crashlens/parsers/langfuse.py).

    Each line of a JSONL log is stripped; a blank line is skipped, a line
    that does not decode is skipped (with a warning), and a decoded object of
    type `generation` with a truthy `traceId` is flattened into a fixed set
    of dotted keys and appended to its trace's list, traces in order of first
    appearance. Anything else a line can do raises and ends the parse.

    JSON decoding itself is a parameter: `decode(text)` is `None` exactly
    when `json.loads(text)` raises `JSONDecodeError`. */
module Langfuse {
  import opened Common
  import opened Grouping

  /** A decoded JSON value, as Python holds it; `JNull` is `None`. Numbers
      are integers here. */
  datatype Json =
    | JNull
    | JBool(b: bool)
    | JNumber(n: int)
    | JString(s: string)
    | JArray(items: seq<Json>)
    | JObject(fields: map<string, Json>)

  /** A Python dict with string keys. */
  type Dict = map<string, Json>

  /** The parser's state: trace id to records, trace ids in insertion order. */
  type Traces = Groups<Json, Generation>

  const AttributeError := "AttributeError: object has no attribute 'get'"
  const UnhashableTraceId := "TypeError: unhashable trace id"
  const UnsupportedOperand := "TypeError: unsupported operand type for +="

  /** `bool(value)` */
  predicate Truthy(j: Json) {
    match j
    case JNull => false
    case JBool(b) => b
    case JNumber(n) => n != 0
    case JString(s) => s != ""
    case JArray(items) => items != []
    case JObject(fields) => fields != map[]
  }

  /** Lists and dicts cannot be dict keys. */
  predicate Hashable(j: Json) {
    !j.JArray? && !j.JObject?
  }

  /** `d.get(key)`: a missing key reads as `None`. */
  function Get(d: Dict, key: string): Json {
    if key in d then d[key] else JNull
  }

  /** `record.get(outer, {})` can be read with `.get` only when the key is
      missing or holds an object. */
  predicate Nestable(record: Dict, outer: string) {
    outer !in record || record[outer].JObject?
  }

  /** `record.get(outer, {})`, when `Nestable`. */
  function Sub(record: Dict, outer: string): Dict
    requires Nestable(record, outer)
  {
    if outer in record then record[outer].fields else map[]
  }

  const GenerationType := JString("generation")

  /** The record `_extract_fields` builds from a generation; each field is
      one key of the returned dict. */
  datatype Generation = Generation(
    traceId: Json,                  // 'traceId'
    kind: Json,                     // 'type'
    startTime: Json,                // 'startTime'
    endTime: Json,                  // 'endTime'
    level: Json,                    // 'level'
    inputModel: Json,               // 'input.model'
    inputPrompt: Json,              // 'input.prompt'
    promptTokens: Json,             // 'usage.prompt_tokens'
    completionTokens: Json,         // 'usage.completion_tokens'
    fallbackAttempted: Json,        // 'metadata.fallback_attempted'
    fallbackReason: Json,           // 'metadata.fallback_reason'
    name: Json,                     // 'name'
    metadataSource: Json)           // 'metadata.source'

  /** The dict a `Generation` stands for. */
  function AsDict(g: Generation): Dict {
    map[
      "traceId" := g.traceId, "type" := g.kind, "startTime" := g.startTime, "endTime" := g.endTime,
      "level" := g.level, "input.model" := g.inputModel, "input.prompt" := g.inputPrompt,
      "usage.prompt_tokens" := g.promptTokens, "usage.completion_tokens" := g.completionTokens,
      "metadata.fallback_attempted" := g.fallbackAttempted, "metadata.fallback_reason" := g.fallbackReason,
      "name" := g.name, "metadata.source" := g.metadataSource]
  }

  /** `_extract_fields(record)`: `None` for anything but a generation; a
      generation's nested `input`, `usage` and `metadata` lookups raise
      when one of those keys holds something other than an object. */
  function ExtractFields(record: Dict): Result<Option<Generation>> {
    if Get(record, "type") != GenerationType then Ok(None)
    else if !(Nestable(record, "input") && Nestable(record, "usage") && Nestable(record, "metadata")) then
      Err(AttributeError)
    else
      var input, usage, metadata := Sub(record, "input"), Sub(record, "usage"), Sub(record, "metadata");
      Ok(Some(Generation(
        Get(record, "traceId"), Get(record, "type"), Get(record, "startTime"), Get(record, "endTime"),
        Get(record, "level"), Get(input, "model"), Get(input, "prompt"),
        Get(usage, "prompt_tokens"), Get(usage, "completion_tokens"),
        Get(metadata, "fallback_attempted"), Get(metadata, "fallback_reason"),
        Get(record, "name"), Get(metadata, "source"))))
  }

  /** `_extract_fields` skips everything that is not a generation, fails only
      on a generation whose `input`, `usage` or `metadata` is not an object,
      and otherwise copies the top-level values, reads each nested value from
      its outer object, and reads a nested value whose outer object is
      missing as `None`. */
  lemma ExtractFieldsFacts(record: Dict)
    ensures ExtractFields(record) == Ok(None) <==> Get(record, "type") != GenerationType
    ensures ExtractFields(record).Err? <==>
      Get(record, "type") == GenerationType &&
      !(Nestable(record, "input") && Nestable(record, "usage") && Nestable(record, "metadata"))
    ensures ExtractFields(record).Ok? && ExtractFields(record).value.Some? ==>
      var g := ExtractFields(record).value.value;
      && g.kind == GenerationType
      && g.traceId == Get(record, "traceId")
      && g.startTime == Get(record, "startTime") && g.endTime == Get(record, "endTime")
      && g.level == Get(record, "level") && g.name == Get(record, "name")
      && ("input" !in record ==> g.inputModel == JNull && g.inputPrompt == JNull)
      && ("usage" !in record ==> g.promptTokens == JNull && g.completionTokens == JNull)
      && ("metadata" !in record ==> g.fallbackAttempted == JNull && g.fallbackReason == JNull && g.metadataSource == JNull)
      && Nestable(record, "input") && Nestable(record, "usage") && Nestable(record, "metadata")
      && ("input" in record ==>
            var input := record["input"].fields;
            g.inputModel == Get(input, "model") && g.inputPrompt == Get(input, "prompt"))
      && ("usage" in record ==>
            var usage := record["usage"].fields;
            g.promptTokens == Get(usage, "prompt_tokens") && g.completionTokens == Get(usage, "completion_tokens"))
      && ("metadata" in record ==>
            var metadata := record["metadata"].fields;
            && g.fallbackAttempted == Get(metadata, "fallback_attempted")
            && g.fallbackReason == Get(metadata, "fallback_reason")
            && g.metadataSource == Get(metadata, "source"))
  {
  }

  // ---------------------------------------------------------------------
  // Lines
  // ---------------------------------------------------------------------

  /** What one line does: nothing (`Ok(None)`), store a record
      (`Ok(Some(parsed))`, filed under its `traceId`), or raise. */
  function LineVerdict(line: string, decode: string -> Option<Json>): Result<Option<Generation>> {
    var text := Strip(line);
    if text == "" then Ok(None)
    else match decode(text)
      case None => Ok(None)
      case Some(value) =>
        if !value.JObject? then Err(AttributeError)
        else
          var traceId := Get(value.fields, "traceId");
          match ExtractFields(value.fields)
          case Err(e) => Err(e)
          case Ok(None) => Ok(None)
          case Ok(Some(parsed)) =>
            if !Truthy(traceId) then Ok(None)
            else if !Hashable(traceId) then Err(UnhashableTraceId)
            else Ok(Some(parsed))
  }

  /** The parser state after one line, or the exception it raises. */
  function ParseStep(traces: Traces, line: string, decode: string -> Option<Json>): Result<Traces> {
    match LineVerdict(line, decode)
    case Err(e) => Err(e)
    case Ok(None) => Ok(traces)
    case Ok(Some(parsed)) => Ok(Add(traces, parsed.traceId, parsed))
  }

  /** Where `_parse_lines` leaves the state, and the exception that stopped
      it, if one did. */
  datatype Outcome = Outcome(traces: Traces, error: Option<string>)

  /** `_parse_lines(lines)` from the state `start`: lines in order, stopping
      at the first exception with the records of the earlier lines kept. */
  function ParseFrom(start: Traces, lines: seq<string>, decode: string -> Option<Json>): Outcome {
    if lines == [] then Outcome(start, None)
    else
      var o := ParseFrom(start, lines[..|lines| - 1], decode);
      if o.error.Some? then o
      else match ParseStep(o.traces, lines[|lines| - 1], decode)
        case Err(e) => Outcome(o.traces, Some(e))
        case Ok(t) => Outcome(t, None)
  }

  const NoTraces: Traces := Groups([], map[])

  /** The records the lines store, in order. */
  function Stored(lines: seq<string>, decode: string -> Option<Json>): seq<Generation> {
    if lines == [] then [] else
      var init := Stored(lines[..|lines| - 1], decode);
      match LineVerdict(lines[|lines| - 1], decode)
      case Ok(Some(parsed)) => init + [parsed]
      case _ => init
  }

  /** A stored record is filed under its own `traceId`. */
  function TraceKey(): Generation -> Option<Json> {
    (parsed: Generation) => Some(parsed.traceId)
  }

  /** A line stores a record only when it is a generation with a truthy,
      hashable trace id; blank lines and lines that do not decode store
      nothing. */
  lemma LineVerdictFacts(line: string, decode: string -> Option<Json>)
    ensures LineVerdict(line, decode) == Ok(None) || LineVerdict(line, decode).Err? ||
      var parsed := LineVerdict(line, decode).value.value;
      parsed.kind == GenerationType && Truthy(parsed.traceId) && Hashable(parsed.traceId)
    ensures AllSpace(line) ==> LineVerdict(line, decode) == Ok(None)
    ensures !AllSpace(line) && decode(Strip(line)).None? ==> LineVerdict(line, decode) == Ok(None)
  {
    var text := Strip(line);
    if text != "" && decode(text).Some? && decode(text).value.JObject? {
      ExtractFieldsFacts(decode(text).value.fields);
    }
  }

  /** Conversely, a non-blank line that decodes to a generation object whose
      `input`, `usage` and `metadata` can be read and whose trace id is truthy
      and hashable stores exactly the record `_extract_fields` builds from it;
      no other line stores a record. */
  lemma LineVerdictStores(line: string, decode: string -> Option<Json>)
    ensures var j := decode(Strip(line));
      (LineVerdict(line, decode).Ok? && LineVerdict(line, decode).value.Some?) <==>
        && !AllSpace(line) && j.Some? && j.value.JObject?
        && Get(j.value.fields, "type") == GenerationType
        && Nestable(j.value.fields, "input") && Nestable(j.value.fields, "usage")
        && Nestable(j.value.fields, "metadata")
        && Truthy(Get(j.value.fields, "traceId")) && Hashable(Get(j.value.fields, "traceId"))
    ensures var j := decode(Strip(line));
      (&& !AllSpace(line) && j.Some? && j.value.JObject?
       && Get(j.value.fields, "type") == GenerationType
       && Nestable(j.value.fields, "input") && Nestable(j.value.fields, "usage")
       && Nestable(j.value.fields, "metadata")
       && Truthy(Get(j.value.fields, "traceId")) && Hashable(Get(j.value.fields, "traceId"))) ==>
        LineVerdict(line, decode) == Ok(Some(ExtractFields(j.value.fields).value.value))
  {
    var text := Strip(line);
    if text != "" && decode(text).Some? && decode(text).value.JObject? {
      ExtractFieldsFacts(decode(text).value.fields);
    }
  }

  /** The parse stops at an exception exactly when some line raises one,
      and the exception it reports is that of a line. */
  lemma {:induction false} ParseErrors(start: Traces, lines: seq<string>, decode: string -> Option<Json>)
    ensures ParseFrom(start, lines, decode).error.None? <==> forall i :: 0 <= i < |lines| ==> LineVerdict(lines[i], decode).Ok?
    ensures ParseFrom(start, lines, decode).error.Some? ==>
      exists i :: 0 <= i < |lines| && LineVerdict(lines[i], decode) == Err(ParseFrom(start, lines, decode).error.value)
  {
    if lines != [] {
      var init := lines[..|lines| - 1];
      ParseErrors(start, init, decode);
      assert forall i :: 0 <= i < |init| ==> init[i] == lines[i];
    }
  }

  /** Without an exception, parsing from an empty state groups the stored
      records by trace id. */
  lemma {:induction false} ParseGroups(lines: seq<string>, decode: string -> Option<Json>)
    requires ParseFrom(NoTraces, lines, decode).error.None?
    ensures ParseFrom(NoTraces, lines, decode).traces == GroupBy(Stored(lines, decode), TraceKey())
  {
    if lines != [] {
      var init := lines[..|lines| - 1];
      var line := lines[|lines| - 1];
      ParseGroups(init, decode);
      var stored := Stored(lines, decode);
      var v := LineVerdict(line, decode);
      if v.Ok? && v.value.Some? {
        LineVerdictFacts(line, decode);
        var parsed := v.value.value;
        assert stored == Stored(init, decode) + [parsed];
        assert stored[..|stored| - 1] == Stored(init, decode);
        assert TraceKey()(parsed) == Some(parsed.traceId);
      }
    }
  }

  /** After a parse from an empty state that raises nothing: the trace ids
      are the distinct trace ids of the stored records in order of first
      appearance; each trace holds exactly the stored records with its id,
      in line order, and is never empty; and no stored record is lost. */
  lemma ParseFacts(lines: seq<string>, decode: string -> Option<Json>)
    requires ParseFrom(NoTraces, lines, decode).error.None?
    ensures var t := ParseFrom(NoTraces, lines, decode).traces;
      var stored := Stored(lines, decode);
      && t.order == Dedup(KeySeq(stored, TraceKey()))
      && Distinct(t.order)
      && (forall k :: k in t.members <==> k in t.order)
      && (forall k :: k in t.members ==> t.members[k] == Keyed(stored, TraceKey(), k) && t.members[k] != [])
      && TotalSize(t) == |KeySeq(stored, TraceKey())|
  {
    ParseGroups(lines, decode);
    var stored := Stored(lines, decode);
    GroupByOrder(stored, TraceKey());
    GroupByMembers(stored, TraceKey());
    GroupByTotal(stored, TraceKey());
  }

  /** Every trace is non-empty, and every record of it is a generation
      carrying the trace's id, which is truthy. */
  ghost predicate WellShaped(t: Traces) {
    && (forall k :: k in t.members ==> t.members[k] != [])
    && (forall k, m :: k in t.members && m in t.members[k] ==> m.kind == GenerationType && m.traceId == k && Truthy(k))
  }

  /** Storing a generation with a truthy trace id under that id keeps the
      shape. */
  lemma AddKeepsShape(t: Traces, parsed: Generation)
    requires WellShaped(t) && parsed.kind == GenerationType && Truthy(parsed.traceId)
    ensures WellShaped(Add(t, parsed.traceId, parsed))
  {
    var t' := Add(t, parsed.traceId, parsed);
    forall k, m | k in t'.members && m in t'.members[k]
      ensures m.kind == GenerationType && m.traceId == k && Truthy(k)
    {
      if k == parsed.traceId && !(k in t.members && m in t.members[k]) {
        assert m == parsed;
      }
    }
  }

  /** Parsing keeps every trace well shaped, whether or not it stops at an
      exception. */
  lemma {:induction false} ParseKeepsShape(start: Traces, lines: seq<string>, decode: string -> Option<Json>)
    requires WellShaped(start)
    ensures WellShaped(ParseFrom(start, lines, decode).traces)
  {
    if lines != [] {
      var init := lines[..|lines| - 1];
      var line := lines[|lines| - 1];
      ParseKeepsShape(start, init, decode);
      var o := ParseFrom(start, init, decode);
      var v := LineVerdict(line, decode);
      if o.error.None? && v.Ok? && v.value.Some? {
        LineVerdictFacts(line, decode);
        AddKeepsShape(o.traces, v.value.value);
      }
    }
  }

  // ---------------------------------------------------------------------
  // `get_trace_summary`
  // ---------------------------------------------------------------------

  /** The running totals of `get_trace_summary`. */
  datatype Totals = Totals(tokens: int, cost: real, modelUsage: Tally<Json>)

  /** `get_trace_summary(trace_id)` on a known trace. */
  datatype TraceSummary = TraceSummary(
    traceId: string,
    totalRecords: nat,
    totalTokens: int,
    totalCost: real,
    modelUsage: Tally<Json>,
    records: seq<Dict>)

  /** `n + value` for an integer `n`: booleans count as 0 and 1. */
  function AsInt(j: Json): Option<int> {
    match j
    case JNumber(n) => Some(n)
    case JBool(b) => Some(if b then 1 else 0)
    case _ => None
  }

  /** `record.get('model', 'unknown')` */
  function ModelOf(record: Dict): Json {
    if "model" in record then record["model"] else JString("unknown")
  }

  /** One record's contribution to the totals, or the exception it raises:
      a present `completion_tokens` or `cost` must be a number, and the
      model must be hashable. */
  function AddRecord(t: Totals, record: Dict): Result<Totals> {
    var tokens := if "completion_tokens" in record then AsInt(record["completion_tokens"]) else Some(0);
    var cost := if "cost" in record then AsInt(record["cost"]) else Some(0);
    if tokens.None? || cost.None? then Err(UnsupportedOperand)
    else if !Hashable(ModelOf(record)) then Err(UnhashableTraceId)
    else Ok(Totals(t.tokens + tokens.value, t.cost + cost.value as real, Bump(t.modelUsage, ModelOf(record))))
  }

  /** The totals over `records`, in order, or the first exception. */
  function Totalize(records: seq<Dict>): Result<Totals> {
    if records == [] then Ok(Totals(0, 0.0, Tally([], map[])))
    else match Totalize(records[..|records| - 1])
      case Err(e) => Err(e)
      case Ok(t) => AddRecord(t, records[|records| - 1])
  }

  /** The stored records as the dicts they are. */
  function Dicts(gs: seq<Generation>): seq<Dict> {
    seq(|gs|, i requires 0 <= i < |gs| => AsDict(gs[i]))
  }

  /** `get_trace_summary(trace_id)`: `{}` (here `None`) for an unknown trace. */
  function Summarize(traces: Traces, traceId: string): Result<Option<TraceSummary>> {
    if JString(traceId) !in traces.members then Ok(None)
    else
      var records := Dicts(traces.members[JString(traceId)]);
      match Totalize(records)
      case Err(e) => Err(e)
      case Ok(t) => Ok(Some(TraceSummary(traceId, |records|, t.tokens, t.cost, t.modelUsage, records)))
  }

  /** The model of each record, in order. */
  function Models(records: seq<Dict>): seq<Json> {
    if records == [] then [] else Models(records[..|records| - 1]) + [ModelOf(records[|records| - 1])]
  }

  /** When the totals exist, the model usage is the count of each record's
      model, in order of first appearance. */
  lemma {:induction false} TotalizeUsage(records: seq<Dict>)
    ensures Totalize(records).Ok? ==> Totalize(records).value.modelUsage == TallyOf(Models(records))
    ensures |Models(records)| == |records|
  {
    if records != [] {
      var init := records[..|records| - 1];
      TotalizeUsage(init);
      var ms := Models(records);
      assert ms[..|ms| - 1] == Models(init);
    }
  }

  /** An unknown trace has the empty summary; a known one reports its
      records and their number, every model among them counted once per
      record, the counts adding up to the number of records. */
  lemma SummarizeFacts(traces: Traces, traceId: string)
    ensures JString(traceId) !in traces.members ==> Summarize(traces, traceId) == Ok(None)
    ensures Summarize(traces, traceId).Ok? && Summarize(traces, traceId).value.Some? ==>
      var sum := Summarize(traces, traceId).value.value;
      var u := sum.modelUsage;
      && sum.records == Dicts(traces.members[JString(traceId)])
      && sum.totalRecords == |traces.members[JString(traceId)]|
      && u == TallyOf(Models(sum.records))
      && Distinct(u.order)
      && (forall k :: k in u.counts <==> k in u.order)
      && (forall k :: k in u.counts ==> u.counts[k] == Occurrences(Models(sum.records), k) > 0)
      && CountsSum(u.order, u.counts) == sum.totalRecords
  {
    if JString(traceId) in traces.members {
      var records := Dicts(traces.members[JString(traceId)]);
      TotalizeUsage(records);
      TallyOfFacts(Models(records));
    }
  }

  /** None of the keys the summary reads is a key of a parsed record, so
      a parsed record adds nothing but one use of the model `unknown`. */
  lemma AddParsed(t: Totals, g: Generation)
    ensures AddRecord(t, AsDict(g)) == Ok(Totals(t.tokens, t.cost, Bump(t.modelUsage, JString("unknown"))))
  {
    var d := AsDict(g);
    assert "completion_tokens" !in d && "cost" !in d && "model" !in d;
  }

  /** The summary reads the keys `completion_tokens`, `cost` and `model`,
      which the parser never writes: on the records the parser stores it
      never raises, reports zero tokens and zero cost, and counts every
      record under the model `unknown`. */
  lemma {:induction false} TotalizeParsed(gs: seq<Generation>)
    ensures Totalize(Dicts(gs)).Ok?
    ensures Totalize(Dicts(gs)).value.tokens == 0 && Totalize(Dicts(gs)).value.cost == 0.0
    ensures Totalize(Dicts(gs)).value.modelUsage ==
      if gs == [] then Tally([], map[]) else Tally([JString("unknown")], map[JString("unknown") := |gs|])
  {
    if gs != [] {
      var init := gs[..|gs| - 1];
      TotalizeParsed(init);
      var ds := Dicts(gs);
      assert ds[..|ds| - 1] == Dicts(init);
      var t := Totalize(Dicts(init)).value;
      AddParsed(t, gs[|gs| - 1]);
      var u := JString("unknown");
      if init != [] {
        assert map[u := |init|][u := |init| + 1] == map[u := |gs|];
      }
    }
  }

  /** Every known trace's summary has zero tokens, zero cost and all its
      records under `unknown`. */
  lemma SummarizeParsed(traces: Traces, traceId: string)
    requires JString(traceId) in traces.members && traces.members[JString(traceId)] != []
    ensures var records := traces.members[JString(traceId)];
      Summarize(traces, traceId) == Ok(Some(TraceSummary(traceId, |records|, 0, 0.0,
        Tally([JString("unknown")], map[JString("unknown") := |records|]), Dicts(records))))
  {
    TotalizeParsed(traces.members[JString(traceId)]);
  }

  /** The record loop of `get_trace_summary`. */
  /** The body of the loop of `get_trace_summary`: one record added to the
      running totals, or the exception it raises. */
  method AddRecordTo(totals: Totals, record: Dict) returns (r: Result<Totals>)
    ensures r == AddRecord(totals, record)
  {
    var totalTokens := totals.tokens;
    var totalCost := totals.cost;
    var modelUsage := totals.modelUsage;
    if "completion_tokens" in record {
      var n := AsInt(record["completion_tokens"]);
      if n.None? {
        return Err(UnsupportedOperand);
      }
      totalTokens := totalTokens + n.value;
    }
    if "cost" in record {
      var c := AsInt(record["cost"]);
      if c.None? {
        return Err(UnsupportedOperand);
      }
      totalCost := totalCost + c.value as real;
    }
    var model := if "model" in record then record["model"] else JString("unknown");
    if !Hashable(model) {
      return Err(UnhashableTraceId);
    }
    assert model == ModelOf(record);
    if model !in modelUsage.counts {
      modelUsage := Tally(modelUsage.order + [model], modelUsage.counts[model := 0]);
    }
    modelUsage := Tally(modelUsage.order, modelUsage.counts[model := modelUsage.counts[model] + 1]);
    assert modelUsage == Bump(totals.modelUsage, model);
    r := Ok(Totals(totalTokens, totalCost, modelUsage));
  }

  method TotalizeRecords(traceRecords: seq<Dict>) returns (r: Result<Totals>)
    ensures r == Totalize(traceRecords)
  {
    var totals := Totals(0, 0.0, Tally([], map[]));
    for i := 0 to |traceRecords|
      invariant Totalize(traceRecords[..i]) == Ok(totals)
    {
      assert traceRecords[..i + 1][..i] == traceRecords[..i];
      r := AddRecordTo(totals, traceRecords[i]);
      if r.Err? {
        TotalizeStopped(traceRecords, i + 1);
        return;
      }
      totals := r.value;
    }
    assert traceRecords[..|traceRecords|] == traceRecords;
    r := Ok(totals);
  }

  // ---------------------------------------------------------------------
  // The parser object
  // ---------------------------------------------------------------------

  /** `LangfuseParser`: the `traces` dict is a field the parse methods
      update in place. */
  class LangfuseParser {
    var traces: Traces

    constructor()
      ensures traces == NoTraces
    {
      traces := NoTraces;
    }

    /** `_parse_lines(lines)`: on an exception the records of the earlier
        lines stay in `traces`; otherwise the result is the state. */
    method ParseLines(lines: seq<string>, decode: string -> Option<Json>) returns (r: Result<Traces>)
      modifies this
      ensures var o := ParseFrom(old(traces), lines, decode);
        traces == o.traces && r == (if o.error.Some? then Err(o.error.value) else Ok(o.traces))
    {
      ghost var start := traces;
      for i := 0 to |lines|
        invariant ParseFrom(start, lines[..i], decode) == Outcome(traces, None)
      {
        assert lines[..i + 1][..i] == lines[..i];
        var line := Strip(lines[i]);
        if line == "" {
          continue;
        }
        var decoded := decode(line);
        if decoded.None? {
          continue;
        }
        var record := decoded.value;
        if !record.JObject? {
          assert ParseFrom(start, lines[..i + 1], decode).error == Some(AttributeError);
          ParseStopped(start, lines, i + 1, decode);
          return Err(AttributeError);
        }
        var traceId := Get(record.fields, "traceId");
        var parsed := ExtractFields(record.fields);
        if parsed.Err? {
          ParseStopped(start, lines, i + 1, decode);
          return Err(parsed.error);
        }
        if Truthy(traceId) && parsed.value.Some? {
          if !Hashable(traceId) {
            ParseStopped(start, lines, i + 1, decode);
            return Err(UnhashableTraceId);
          }
          ExtractFieldsFacts(record.fields);
          traces := Add(traces, traceId, parsed.value.value);
        }
      }
      assert lines[..|lines|] == lines;
      r := Ok(traces);
    }

    /** `parse_file`, `parse_string` and `parse_stdin`: the state is cleared
        first, so the result depends on the given lines alone. */
    method Parse(lines: seq<string>, decode: string -> Option<Json>) returns (r: Result<Traces>)
      modifies this
      ensures var o := ParseFrom(NoTraces, lines, decode);
        traces == o.traces && r == (if o.error.Some? then Err(o.error.value) else Ok(o.traces))
    {
      traces := NoTraces;
      r := ParseLines(lines, decode);
    }

    /** `get_trace_summary(trace_id)` */
    method GetTraceSummary(traceId: string) returns (r: Result<Option<TraceSummary>>)
      ensures r == Summarize(traces, traceId)
    {
      if JString(traceId) !in traces.members {
        return Ok(None);
      }
      var traceRecords := Dicts(traces.members[JString(traceId)]);
      var totals := TotalizeRecords(traceRecords);
      if totals.Err? {
        return Err(totals.error);
      }
      var t := totals.value;
      r := Ok(Some(TraceSummary(traceId, |traceRecords|, t.tokens, t.cost, t.modelUsage, traceRecords)));
    }
  }

  /** Once a prefix of the lines stops the parse, the rest changes nothing. */
  lemma {:induction false} ParseStopped(start: Traces, lines: seq<string>, n: nat, decode: string -> Option<Json>)
    requires n <= |lines| && ParseFrom(start, lines[..n], decode).error.Some?
    ensures ParseFrom(start, lines, decode) == ParseFrom(start, lines[..n], decode)
    decreases |lines| - n
  {
    if n < |lines| {
      assert lines[..n + 1][..n] == lines[..n];
      ParseStopped(start, lines, n + 1, decode);
    } else {
      assert lines[..n] == lines;
    }
  }

  /** Once a prefix of the records raises, so does the whole sequence. */
  lemma {:induction false} TotalizeStopped(records: seq<Dict>, n: nat)
    requires n <= |records| && Totalize(records[..n]).Err?
    ensures Totalize(records) == Totalize(records[..n])
    decreases |records| - n
  {
    if n < |records| {
      assert records[..n + 1][..n] == records[..n];
      TotalizeStopped(records, n + 1);
    } else {
      assert records[..n] == records;
    }
  }
}
