/** The three prompt builders of the workflow: `to_classifier_request`,
    `process_triage_and_enrich` and `triage_incident`. Each f-string template
    is written as its list of lines joined by newlines (the templates end with
    a newline, hence the final empty line). The enrichment lookups are passed
    in as functions. */
module Prompts {
  import opened Wrappers
  import opened Text
  import opened Models
  import ResultParser

  /** The enrichment lookups: service health, runbook by (service, category),
      known issues by (service, query). */
  datatype Tools = Tools(
    health: string -> string,
    runbook: (string, string) -> string,
    knownIssues: (string, string) -> string)

  /** `severity_hint or 'Not provided'`: an absent or empty hint reads as
      "Not provided", any other hint is shown as given. */
  function SeverityHintText(hint: Option<string>): (r: string)
    ensures hint.Some? && hint.value != "" ==> r == hint.value
    ensures hint.None? || hint.value == "" ==> r == "Not provided"
  {
    if hint.Some? && hint.value != "" then hint.value else "Not provided"
  }

  /** Python's `str(b)` for a boolean. */
  function PyBool(b: bool): string
  {
    if b then "True" else "False"
  }

  /** The six incident lines both incident templates share, each after
      `bullet` ("" in the classifier prompt, "- " in the combined one). */
  function DetailLines(bullet: string, incident: Incident): (lines: seq<string>)
    ensures |lines| == 6
  {
    [bullet + "ID: " + incident.id,
     bullet + "Title: " + incident.title,
     bullet + "Description: " + incident.description,
     bullet + "Service: " + incident.service,
     bullet + "Customer: " + incident.customer,
     bullet + "Severity Hint: " + SeverityHintText(incident.severityHint)]
  }

  // ---------------------------------------------------------------------------
  // to_classifier_request

  function ClassifierLines(incident: Incident): (lines: seq<string>)
    ensures |lines| == 19
  {
    ["Please triage the following incident:",
     ""]
    + DetailLines("", incident) +
    ["",
     "Classify this incident and determine the appropriate response.",
     "",
     "IMPORTANT: Return a valid JSON object with these exact fields:",
     "- category: one of \"Incident\", \"Question\", \"Change\", \"Security\"",
     "- severity: one of \"Sev1\", \"Sev2\", \"Sev3\"",
     "- confidence: a number between 0.0 and 1.0",
     "- next_action: string describing the recommended action",
     "- needs_approval: boolean (true if dangerous action needed)",
     "- approval_action: null or one of \"restart_service\", \"open_sev1_bridge\"",
     ""]
  }

  /** The classifier prompt for an incident. */
  function ClassifierPrompt(incident: Incident): string
  {
    Join(ClassifierLines(incident), "\n")
  }

  // ---------------------------------------------------------------------------
  // process_triage_and_enrich

  /** The service name the enrichment lookups use in this stage. */
  const PlaceholderService: string := "Unknown-Service"

  function PlanLines(triage: TriageResult, confidenceText: string,
                     health: string, runbook: string, knownIssues: string): (lines: seq<string>)
    ensures |lines| == 25
  {
    ["Create an incident response plan based on the following:",
     "",
     "## Triage Result",
     "- Category: " + triage.category,
     "- Severity: " + triage.severity,
     "- Confidence: " + confidenceText,
     "- Recommended Action: " + triage.nextAction,
     "- Needs Approval: " + PyBool(triage.needsApproval),
     "",
     "## Enrichment Data",
     "Service Health: " + health,
     "",
     "Runbook:",
     runbook,
     "",
     "Known Issues: " + knownIssues,
     "",
     "Please create a comprehensive response plan.",
     "",
     "IMPORTANT: Return a valid JSON object with these exact fields:",
     "- summary: 1-2 sentence summary",
     "- steps: array of 3-6 action strings",
     "- customer_message: professional message to the customer",
     "- internal_note: technical notes for ops team",
     ""]
  }

  /** The writer prompt: parse the classifier output, look up the enrichment
      data for the placeholder service, and fill the template. Python's
      rendering of the confidence float is the parameter `showConfidence`. */
  function EnrichedPlanPrompt<V>(response: ResultParser.Shape<TriageResult, V>,
                                 dec: ResultParser.Decoder<TriageResult, V>,
                                 tools: Tools, showConfidence: real -> string): string
  {
    var triage := ResultParser.ParseTriage(response, dec);
    Join(PlanLines(triage, showConfidence(triage.confidence),
                   tools.health(PlaceholderService),
                   tools.runbook(PlaceholderService, triage.category),
                   tools.knownIssues(PlaceholderService, triage.nextAction)), "\n")
  }

  // ---------------------------------------------------------------------------
  // triage_incident

  function TriageLines(incident: Incident, health: string, runbook: string, knownIssues: string): (lines: seq<string>)
    ensures |lines| == 30
  {
    ["You are an expert incident responder for cloud operations.",
     "",
     "## INCIDENT DETAILS"]
    + DetailLines("- ", incident) +
    ["",
     "## ENRICHMENT DATA (from monitoring systems)",
     "",
     "### Service Health",
     health,
     "",
     "### Relevant Runbook",
     runbook,
     "",
     "### Known Issues",
     knownIssues,
     "",
     "## YOUR TASK",
     "Create a comprehensive incident response plan.",
     "",
     "Return a valid JSON object with these exact fields:",
     "- summary: 1-2 sentence summary of the situation and recommended action",
     "- steps: array of 3-6 specific, actionable steps to resolve the issue",
     "- customer_message: professional message to send to the customer (empathetic and informative)",
     "- internal_note: technical notes for the ops team (can include caveats, risks, next steps)",
     ""]
  }

  /** The single combined prompt: enrichment for the incident's own service,
      the runbook for category "Incident", known issues searched by the
      lower-cased title. */
  function TriageIncidentPrompt(incident: Incident, tools: Tools): string
  {
    Join(TriageLines(incident,
                     tools.health(incident.service),
                     tools.runbook(incident.service, "Incident"),
                     tools.knownIssues(incident.service, Lower(incident.title))), "\n")
  }

  // ---------------------------------------------------------------------------
  // Lemmas

  /** A field placed after a label on one line of a template appears, with
      its label, verbatim in the joined prompt. */
  lemma FieldInPrompt(lines: seq<string>, k: nat, prefix: string, field: string)
    requires k < |lines| && lines[k] == prefix + field
    ensures IsInfix(prefix + field, Join(lines, "\n"))
    ensures IsInfix(field, Join(lines, "\n"))
  {
    JoinContainsPart(lines, "\n", k);
    InfixOfConcat(prefix, field, "");
    assert prefix + field + "" == lines[k];
    InfixTransitive(field, lines[k], Join(lines, "\n"));
  }

  /** A template whose lines hold the six incident lines carries every
      incident field verbatim after its label. */
  lemma DetailsInPrompt(before: seq<string>, bullet: string, incident: Incident, after: seq<string>)
    ensures var p := Join(before + DetailLines(bullet, incident) + after, "\n");
      IsInfix(bullet + "ID: " + incident.id, p)
      && IsInfix(bullet + "Title: " + incident.title, p)
      && IsInfix(bullet + "Description: " + incident.description, p)
      && IsInfix(bullet + "Service: " + incident.service, p)
      && IsInfix(bullet + "Customer: " + incident.customer, p)
      && IsInfix(bullet + "Severity Hint: " + SeverityHintText(incident.severityHint), p)
  {
    var lines := before + DetailLines(bullet, incident) + after;
    var b := |before|;
    FieldInPrompt(lines, b, bullet + "ID: ", incident.id);
    FieldInPrompt(lines, b + 1, bullet + "Title: ", incident.title);
    FieldInPrompt(lines, b + 2, bullet + "Description: ", incident.description);
    FieldInPrompt(lines, b + 3, bullet + "Service: ", incident.service);
    FieldInPrompt(lines, b + 4, bullet + "Customer: ", incident.customer);
    FieldInPrompt(lines, b + 5, bullet + "Severity Hint: ", SeverityHintText(incident.severityHint));
  }

  /** The classifier prompt carries id, title, description, service, customer
      and the severity hint text verbatim, each after its label. */
  lemma ClassifierPromptEmbedsIncident(incident: Incident)
    ensures var p := ClassifierPrompt(incident);
      IsInfix("ID: " + incident.id, p)
      && IsInfix("Title: " + incident.title, p)
      && IsInfix("Description: " + incident.description, p)
      && IsInfix("Service: " + incident.service, p)
      && IsInfix("Customer: " + incident.customer, p)
      && IsInfix("Severity Hint: " + SeverityHintText(incident.severityHint), p)
  {
    var lines := ClassifierLines(incident);
    DetailsInPrompt(lines[..2], "", incident, lines[8..]);
    assert lines == lines[..2] + DetailLines("", incident) + lines[8..];
    assert forall t: string :: "" + t == t;
  }

  /** The combined prompt embeds the incident fields verbatim, each as a
      "- " bullet after its label. */
  lemma TriageIncidentPromptShowsIncident(incident: Incident, tools: Tools)
    ensures var p := TriageIncidentPrompt(incident, tools);
      IsInfix("- " + "ID: " + incident.id, p)
      && IsInfix("- " + "Title: " + incident.title, p)
      && IsInfix("- " + "Description: " + incident.description, p)
      && IsInfix("- " + "Service: " + incident.service, p)
      && IsInfix("- " + "Customer: " + incident.customer, p)
      && IsInfix("- " + "Severity Hint: " + SeverityHintText(incident.severityHint), p)
  {
    var lines := TriageLines(incident,
                             tools.health(incident.service),
                             tools.runbook(incident.service, "Incident"),
                             tools.knownIssues(incident.service, Lower(incident.title)));
    DetailsInPrompt(lines[..3], "- ", incident, lines[9..]);
    assert lines == lines[..3] + DetailLines("- ", incident) + lines[9..];
  }

  /** The combined prompt embeds the results of exactly the three lookups
      for (service), (service, "Incident") and (service, lower(title)). */
  lemma TriageIncidentPromptShowsLookups(incident: Incident, tools: Tools)
    ensures var p := TriageIncidentPrompt(incident, tools);
      IsInfix(tools.health(incident.service), p)
      && IsInfix(tools.runbook(incident.service, "Incident"), p)
      && IsInfix(tools.knownIssues(incident.service, Lower(incident.title)), p)
  {
    var lines := TriageLines(incident,
                             tools.health(incident.service),
                             tools.runbook(incident.service, "Incident"),
                             tools.knownIssues(incident.service, Lower(incident.title)));
    assert TriageIncidentPrompt(incident, tools) == Join(lines, "\n");
    JoinContainsPart(lines, "\n", 13);
    JoinContainsPart(lines, "\n", 16);
    JoinContainsPart(lines, "\n", 19);
  }

  /** The combined prompt depends on the lookups only through those three
      calls: two tool sets that agree on them give the same prompt. */
  lemma TriageIncidentLookups(incident: Incident, t1: Tools, t2: Tools)
    requires t1.health(incident.service) == t2.health(incident.service)
    requires t1.runbook(incident.service, "Incident") == t2.runbook(incident.service, "Incident")
    requires t1.knownIssues(incident.service, Lower(incident.title))
          == t2.knownIssues(incident.service, Lower(incident.title))
    ensures TriageIncidentPrompt(incident, t1) == TriageIncidentPrompt(incident, t2)
  {
  }

  /** The writer prompt shows the parsed triage (category, severity, the
      rendered confidence, next action, approval flag) and the lookups for the
      placeholder service keyed by that triage's category and next action. */
  lemma EnrichedPlanPromptContents<V>(response: ResultParser.Shape<TriageResult, V>,
                                      dec: ResultParser.Decoder<TriageResult, V>,
                                      tools: Tools, showConfidence: real -> string)
    ensures var triage := ResultParser.ParseTriage(response, dec);
      var p := EnrichedPlanPrompt(response, dec, tools, showConfidence);
      IsInfix("- Category: " + triage.category, p)
      && IsInfix("- Severity: " + triage.severity, p)
      && IsInfix("- Confidence: " + showConfidence(triage.confidence), p)
      && IsInfix("- Recommended Action: " + triage.nextAction, p)
      && IsInfix("- Needs Approval: " + PyBool(triage.needsApproval), p)
      && IsInfix("Service Health: " + tools.health(PlaceholderService), p)
      && IsInfix(tools.runbook(PlaceholderService, triage.category), p)
      && IsInfix("Known Issues: " + tools.knownIssues(PlaceholderService, triage.nextAction), p)
  {
    var triage := ResultParser.ParseTriage(response, dec);
    var lines := PlanLines(triage, showConfidence(triage.confidence),
                           tools.health(PlaceholderService),
                           tools.runbook(PlaceholderService, triage.category),
                           tools.knownIssues(PlaceholderService, triage.nextAction));
    FieldInPrompt(lines, 3, "", lines[3]);
    FieldInPrompt(lines, 4, "", lines[4]);
    FieldInPrompt(lines, 5, "", lines[5]);
    FieldInPrompt(lines, 6, "", lines[6]);
    FieldInPrompt(lines, 7, "", lines[7]);
    FieldInPrompt(lines, 10, "", lines[10]);
    FieldInPrompt(lines, 13, "", lines[13]);
    FieldInPrompt(lines, 15, "", lines[15]);
  }

  /** When the classifier output cannot be parsed, the writer is told about
      the fallback triage and the runbook is looked up for category
      "Incident". */
  lemma EnrichedPlanPromptOnFallback<V>(response: ResultParser.Shape<TriageResult, V>,
                                        dec: ResultParser.Decoder<TriageResult, V>,
                                        tools: Tools, showConfidence: real -> string)
    requires ResultParser.Fails(ResultParser.Unwrap(response), dec)
    ensures var p := EnrichedPlanPrompt(response, dec, tools, showConfidence);
      var fallback := ResultParser.TriageFallback();
      IsInfix("- Category: " + fallback.category, p)
      && IsInfix("- Recommended Action: " + fallback.nextAction, p)
      && IsInfix("- Needs Approval: " + PyBool(false), p)
      && IsInfix(tools.runbook(PlaceholderService, "Incident"), p)
  {
    EnrichedPlanPromptContents(response, dec, tools, showConfidence);
    assert ResultParser.ParseTriage(response, dec) == ResultParser.TriageFallback();
  }
}
