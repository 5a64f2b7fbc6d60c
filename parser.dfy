/** The two stage-output parsers, `parse_agent_response_to_triage` and
    `parse_agent_response_to_plan`. Both try the same shapes in the same order
    and fall back to a fixed record whenever nothing applies or decoding fails,
    so they are modelled by one generic `Parse` instantiated twice. */
module ResultParser {
  import opened Wrappers
  import opened Models

  /** The run-time shapes a stage output is told apart by: a list, an object
      carrying an `agent_response` whose text is JSON, a value that already has
      the target record type, a dict of keyword arguments, a raw JSON string,
      or anything else (including a record of the other type). */
  datatype Shape<T, V> =
    | List(items: seq<Shape<T, V>>)
    | WithAgentResponse(text: string)
    | Typed(value: T)
    | Dict(entries: map<string, V>)
    | Str(raw: string)
    | Other

  /** The record class's own validation, left uninterpreted: decoding a JSON
      text (`model_validate_json`) and constructing from keyword arguments
      (`T(**d)`). `None` stands for the exception either may raise. */
  datatype Decoder<T, -V> = Decoder(
    validateJson: string -> Option<T>,
    fromFields: map<string, V> -> Option<T>)

  /** The one-time rebind `response = response[0]` for a non-empty list. */
  function Unwrap<T, V>(response: Shape<T, V>): (s: Shape<T, V>)
    ensures !(response.List? && |response.items| > 0) ==> s == response
    ensures response.List? && |response.items| > 0 ==> s == response.items[0]
  {
    if response.List? && |response.items| > 0 then response.items[0] else response
  }

  /** `s` yields the fully validated record `r` by one of the four branches. */
  predicate Yields<T(==), V>(s: Shape<T, V>, dec: Decoder<T, V>, r: T)
  {
    match s
    case WithAgentResponse(text) => dec.validateJson(text) == Some(r)
    case Typed(v) => v == r
    case Dict(entries) => dec.fromFields(entries) == Some(r)
    case Str(raw) => dec.validateJson(raw) == Some(r)
    case List(_) => false
    case Other => false
  }

  /** No branch applies to `s`, or the one that applies fails to validate. */
  predicate Fails<T, V>(s: Shape<T, V>, dec: Decoder<T, V>)
  {
    match s
    case WithAgentResponse(text) => dec.validateJson(text).None?
    case Typed(_) => false
    case Dict(entries) => dec.fromFields(entries).None?
    case Str(raw) => dec.validateJson(raw).None?
    case List(_) => true
    case Other => true
  }

  /** The branch chain after the unwrap: `agent_response`, typed value, dict,
      string; every other shape and every failure gives `fallback`. */
  function Dispatch<T, V>(s: Shape<T, V>, dec: Decoder<T, V>, fallback: T): T
  {
    match s
    case WithAgentResponse(text) => dec.validateJson(text).GetOr(fallback)
    case Typed(v) => v
    case Dict(entries) => dec.fromFields(entries).GetOr(fallback)
    case Str(raw) => dec.validateJson(raw).GetOr(fallback)
    case List(_) => fallback
    case Other => fallback
  }

  /** Total parse: the unwrapped shape either yields a complete record or the
      result is exactly the fallback; nothing in between. */
  function Parse<T(==), V>(response: Shape<T, V>, dec: Decoder<T, V>, fallback: T): (r: T)
    ensures Fails(Unwrap(response), dec) ==> r == fallback
    ensures !Fails(Unwrap(response), dec) ==> Yields(Unwrap(response), dec, r)
  {
    Dispatch(Unwrap(response), dec, fallback)
  }

  /** The record returned when the classifier output cannot be parsed. */
  function TriageFallback(): TriageResult
  {
    TriageResult("Incident", "Sev2", 0.5, "Manual review required", false, None)
  }

  /** The record returned when the writer output cannot be parsed. */
  function PlanFallback(): FinalPlan
  {
    FinalPlan(
      "Plan parsing failed - manual review required",
      ["Review incident manually", "Contact on-call engineer"],
      "We are investigating your issue and will update you shortly.",
      "Auto-plan failed")
  }

  /** `parse_agent_response_to_triage`. */
  function ParseTriage<V>(response: Shape<TriageResult, V>, dec: Decoder<TriageResult, V>): (r: TriageResult)
    ensures Fails(Unwrap(response), dec) ==> r == TriageFallback()
    ensures !Fails(Unwrap(response), dec) ==> Yields(Unwrap(response), dec, r)
  {
    Parse(response, dec, TriageFallback())
  }

  /** `parse_agent_response_to_plan`. */
  function ParsePlan<V>(response: Shape<FinalPlan, V>, dec: Decoder<FinalPlan, V>): (r: FinalPlan)
    ensures Fails(Unwrap(response), dec) ==> r == PlanFallback()
    ensures !Fails(Unwrap(response), dec) ==> Yields(Unwrap(response), dec, r)
  {
    Parse(response, dec, PlanFallback())
  }

  // ---------------------------------------------------------------------------
  // Lemmas

  /** The triage fallback field by field. */
  lemma TriageFallbackFields<V>(response: Shape<TriageResult, V>, dec: Decoder<TriageResult, V>)
    requires Fails(Unwrap(response), dec)
    ensures var r := ParseTriage(response, dec);
      r.category == "Incident" && r.severity == "Sev2" && r.confidence == 0.5
      && r.nextAction == "Manual review required" && !r.needsApproval
  {
  }

  /** The plan fallback field by field. */
  lemma PlanFallbackFields<V>(response: Shape<FinalPlan, V>, dec: Decoder<FinalPlan, V>)
    requires Fails(Unwrap(response), dec)
    ensures var r := ParsePlan(response, dec);
      r.summary == "Plan parsing failed - manual review required"
      && r.steps == ["Review incident manually", "Contact on-call engineer"]
      && r.customerMessage == "We are investigating your issue and will update you shortly."
      && r.internalNote == "Auto-plan failed"
  {
  }

  /** A value that already has the target type is returned unchanged, on its
      own or as the first element of a list. */
  lemma TypedIsIdentity<T, V>(v: T, rest: seq<Shape<T, V>>, dec: Decoder<T, V>, fallback: T)
    ensures Parse(Typed(v), dec, fallback) == v
    ensures Parse(List([Typed(v)] + rest), dec, fallback) == v
  {
  }

  /** A list is unwrapped exactly once: an empty list, or one whose first
      element is again a list, gives the fallback; otherwise the first element
      is parsed as if it had arrived alone and the rest is ignored. */
  lemma ListUnwrappedOnce<T, V>(items: seq<Shape<T, V>>, dec: Decoder<T, V>, fallback: T)
    ensures |items| == 0 ==> Parse(List(items), dec, fallback) == fallback
    ensures |items| > 0 && items[0].List? ==> Parse(List(items), dec, fallback) == fallback
    ensures |items| > 0 && !items[0].List? ==>
      Parse(List(items), dec, fallback) == Parse(items[0], dec, fallback)
  {
  }

  /** An `agent_response` is decoded from its text: a successful decode is the
      result, a failed one gives the fallback; the dict constructor is never
      consulted. */
  lemma AgentResponseDecoded<T, V>(text: string, dec: Decoder<T, V>, fallback: T)
    ensures dec.validateJson(text).Some? ==>
      Parse(WithAgentResponse(text), dec, fallback) == dec.validateJson(text).value
    ensures dec.validateJson(text).None? ==>
      Parse(WithAgentResponse(text), dec, fallback) == fallback
    ensures forall f: map<string, V> -> Option<T> ::
      Parse(WithAgentResponse(text), Decoder(dec.validateJson, f), fallback)
        == Parse(WithAgentResponse(text), dec, fallback)
  {
  }

  /** Unrecognised shapes, failed decodes and failed constructions all give the
      fallback. */
  lemma FailuresGiveFallback<T, V>(text: string, entries: map<string, V>, dec: Decoder<T, V>, fallback: T)
    ensures Parse(Other, dec, fallback) == fallback
    ensures dec.validateJson(text).None? ==> Parse(Str(text), dec, fallback) == fallback
    ensures dec.fromFields(entries).None? ==> Parse(Dict(entries), dec, fallback) == fallback
  {
  }
}
