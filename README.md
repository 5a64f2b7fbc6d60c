# OpsCopilot workflow core and memory provider in Dafny

OpsCopilot is a demo incident-response assistant. The workflow that
`build_workflow` wires has three stages: `triage_incident` builds one
combined prompt from the incident and the enrichment lookups, a writer agent
answers it, and `format_output` parses the answer into a plan and renders it
as a text report. The module also defines a two-agent variant, which
`build_workflow` does not connect: `to_classifier_request` builds a prompt
for a classifier agent, and `process_triage_and_enrich` parses the
classifier's answer and builds the writer's prompt from it. Alongside, the `OpsMemory` context provider
remembers three things: the preferred language, the last customer and the
last service mentioned by the user. It turns them into standing
instructions before an agent runs.

This project models that deterministic core:

- `Models` (models.dfy): the records `Incident`, `TriageResult` and `FinalPlan`.
- `ResultParser` (parser.dfy): `parse_agent_response_to_triage` and
  `parse_agent_response_to_plan`. They are one generic dispatch over a
  `Shape` datatype: a list, an object with an `agent_response`, an
  already-typed value, a dict, a raw string, or anything else. JSON
  validation and record construction are the two uninterpreted functions of
  a `Decoder`.
- `Report` (report.dfy): `format_output`. It is an imperative method that
  builds the segment list with one append per step, proved equal to a
  specification of the layout.
- `Prompts` (prompts.dfy): the three prompt templates `to_classifier_request`,
  `process_triage_and_enrich` and `triage_incident`. Each is written as the
  list of its lines joined by newlines. The enrichment tools are function
  parameters.
- `ContextPattern` (pattern.dfy): the two regular expressions
  `[Cc]ustomer[:\s]+([A-Za-z0-9_-]+)` and `[Ss]ervice[:\s]+([A-Za-z0-9_-]+)`
  with `re.search`, as an explicit scanner. It is proved to return the token
  of the leftmost greedy match.
- `Memory` (memory.dfy): the class `OpsMemory` with its three fields. Its
  methods are specified by functions on a `MemoryState` value.
- `Text` (text.dfy) and `Wrappers` (wrappers.dfy): helpers, namely join,
  split, ASCII lower-casing, decimal rendering, substring occurrence and
  `Option`.

## Model

| member | source | states |
|---|---|---|
| ResultParser.Unwrap | opscopilot-devui-demo/opscopilot/workflow.py:58-59 | A non-empty list is replaced by its first element; every other shape, and the empty list, is kept. |
| ResultParser.Parse | opscopilot-devui-demo/opscopilot/workflow.py:57-78 | Total: after unwrapping, a shape whose branch fails (failed decode, failed construction, empty list, nested list, unknown shape) gives the fallback; otherwise the result is what the first applicable branch yields, checked in the order agent_response, typed value, dict, string. |
| ResultParser.ParseTriage | opscopilot-devui-demo/opscopilot/workflow.py:55-78 | The same for `TriageResult`, with the fixed triage fallback. |
| ResultParser.ParsePlan | opscopilot-devui-demo/opscopilot/workflow.py:81-103 | The same for `FinalPlan`, with the fixed plan fallback. |
| ResultParser.TriageFallbackFields | opscopilot-devui-demo/opscopilot/workflow.py:72-78 | On failure the triage is category "Incident", severity "Sev2", confidence 0.5, next action "Manual review required", no approval. |
| ResultParser.PlanFallbackFields | opscopilot-devui-demo/opscopilot/workflow.py:98-103 | On failure the plan has the fixed summary, the two steps in order, the fixed customer message and internal note "Auto-plan failed". |
| ResultParser.TypedIsIdentity | opscopilot-devui-demo/opscopilot/workflow.py:58-64 | An already-typed value is returned unchanged, alone or as the first element of a list. |
| ResultParser.ListUnwrappedOnce | opscopilot-devui-demo/opscopilot/workflow.py:58-68 | An empty list or a list inside a list gives the fallback; otherwise the list parses exactly as its first element would. |
| ResultParser.AgentResponseDecoded | opscopilot-devui-demo/opscopilot/workflow.py:60-62 | The agent_response text is JSON-decoded: success is the result, failure the fallback, and the dict branch is never consulted. |
| ResultParser.FailuresGiveFallback | opscopilot-devui-demo/opscopilot/workflow.py:65-78 | An unrecognised shape, an undecodable string and a dict that cannot be constructed all give the fallback. |
| Report.ReportLines | opscopilot-devui-demo/opscopilot/workflow.py:203-234 | The report has 24 + n segments: the summary line at 7, "Steps:" at 9, step k as "  k. step" at 9 + k, and the customer message and internal note two lines below their headings. |
| Report.FormatOutput | opscopilot-devui-demo/opscopilot/workflow.py:196-236 | The response is parsed into a plan, and the header, the step appends and the footer joined by newlines give exactly the specified layout. |
| Report.StepNumberReadsBack | opscopilot-devui-demo/opscopilot/workflow.py:216-217 | A step line is two spaces, the decimal digits of n, ". " and the step; those digits read back as n. |
| Report.ReportShowsPlan | opscopilot-devui-demo/opscopilot/workflow.py:211-229 | Summary, every step, the customer message and the internal note appear verbatim in the report, whatever they contain. |
| Report.ReportSplitsIntoLines | opscopilot-devui-demo/opscopilot/workflow.py:203-236 | When no field contains a newline, splitting the report at newlines gives back exactly the segments. |
| Report.FallbackPlanRenders | opscopilot-devui-demo/opscopilot/workflow.py:98-103 | The fallback plan's two steps render as "  1. Review incident manually" and "  2. Contact on-call engineer", and its report has 26 segments. |
| Prompts.SeverityHintText | opscopilot-devui-demo/opscopilot/workflow.py:120 | The hint is shown when present and non-empty, otherwise "Not provided". |
| Prompts.ClassifierPrompt | opscopilot-devui-demo/opscopilot/workflow.py:110-137 | `to_classifier_request`: the template's segments for the incident joined by newlines; its contents are stated by `ClassifierPromptEmbedsIncident`. |
| Prompts.ClassifierLines | opscopilot-devui-demo/opscopilot/workflow.py:113-131 | The classifier prompt is 19 template segments joined by newlines. |
| Prompts.ClassifierPromptEmbedsIncident | opscopilot-devui-demo/opscopilot/workflow.py:113-120 | "ID: " + id, "Title: " + title, "Description: " + description, "Service: " + service, "Customer: " + customer and "Severity Hint: " + the hint text appear verbatim in the classifier prompt. |
| Prompts.EnrichedPlanPrompt | opscopilot-devui-demo/opscopilot/workflow.py:140-193 | `process_triage_and_enrich`: parses the classifier answer with `ParseTriage`, looks up health for "Unknown-Service", the runbook for ("Unknown-Service", category) and known issues for ("Unknown-Service", next action), and fills the writer template; its contents are stated by `EnrichedPlanPromptContents` and `EnrichedPlanPromptOnFallback`. |
| Prompts.PlanLines | opscopilot-devui-demo/opscopilot/workflow.py:163-187 | The writer prompt is 25 template segments joined by newlines. |
| Prompts.EnrichedPlanPromptContents | opscopilot-devui-demo/opscopilot/workflow.py:147-178 | The writer prompt shows the parsed triage's category, severity, rendered confidence, next action and approval flag. It also shows the three lookups for "Unknown-Service", keyed by that category and next action. |
| Prompts.EnrichedPlanPromptOnFallback | opscopilot-devui-demo/opscopilot/workflow.py:147-170 | When the classifier answer cannot be parsed, the writer sees the fallback triage, and the runbook is looked up for category "Incident". |
| Prompts.TriageIncidentPrompt | opscopilot-devui-demo/opscopilot/workflow.py:243-289 | `triage_incident`: looks up health for the incident's service, the runbook for (service, "Incident") and known issues for (service, lower-cased title), and fills the combined template; its contents are stated by `TriageIncidentPromptShowsIncident`, `TriageIncidentPromptShowsLookups` and `TriageIncidentLookups`. |
| Prompts.TriageLines | opscopilot-devui-demo/opscopilot/workflow.py:254-283 | The combined prompt is 30 template segments joined by newlines. |
| Prompts.TriageIncidentPromptShowsIncident | opscopilot-devui-demo/opscopilot/workflow.py:256-262 | The same six labelled fields, each after the "- " bullet, appear verbatim in the combined prompt. |
| Prompts.TriageIncidentPromptShowsLookups | opscopilot-devui-demo/opscopilot/workflow.py:250-273 | The combined prompt shows the health of the service, the runbook for (service, "Incident") and the known issues for (service, lower-cased title). |
| Prompts.TriageIncidentLookups | opscopilot-devui-demo/opscopilot/workflow.py:250-252 | The combined prompt depends on the tools only through those three calls. |
| ContextPattern.RunLength | opscopilot-devui-demo/opscopilot/memory.py:74 | The run is the longest stretch of characters from i on that satisfy the class, as a greedy `+`/`*` consumes it. |
| ContextPattern.FirstMatchFrom | opscopilot-devui-demo/opscopilot/memory.py:74 | The first start index from i on where the pattern matches, reported as the greedy match there; None exactly when no later start index matches. |
| ContextPattern.Search | opscopilot-devui-demo/opscopilot/memory.py:74-76 | The group-1 token is non-empty and made only of `[A-Za-z0-9_-]`; the result is None exactly when the pattern matches nowhere. |
| ContextPattern.MatchSpanFound | opscopilot-devui-demo/opscopilot/memory.py:74 | Any way of matching at a start index makes the scanner succeed there, with the same separators and a token at least as long. |
| ContextPattern.MatchAtCorrect | opscopilot-devui-demo/opscopilot/memory.py:74 | The scanner's attempt at one index is sound and complete for that index. |
| ContextPattern.GreedyMatchUnique | opscopilot-devui-demo/opscopilot/memory.py:74 | A greedy match is determined by its start index. |
| ContextPattern.SearchIsLeftmostGreedy | opscopilot-devui-demo/opscopilot/memory.py:74-76 | The search reports the token of the leftmost match, taken greedily. |
| ContextPattern.NoWordBoundary | opscopilot-devui-demo/opscopilot/memory.py:79-81 | Without a word boundary, "microservice: x" names the service "x". |
| ContextPattern.MatchAfter | opscopilot-devui-demo/opscopilot/memory.py:74-81 | Keyword, separators and a token after a prefix where no match can start: the search reports exactly that token. |
| Memory.OpsMemory.constructor | opscopilot-devui-demo/opscopilot/memory.py:20-23 | A fresh memory prefers "hebrew" and remembers no customer and no service. |
| Memory.OpsMemory.Invoking | opscopilot-devui-demo/opscopilot/memory.py:25-44 | Always returns instructions: the current state's parts joined by single spaces. |
| Memory.OpsMemory.Invoked | opscopilot-devui-demo/opscopilot/memory.py:46-69 | The new state is the old one after extracting, in order, from the text of each user message. |
| Memory.OpsMemory.ExtractContext | opscopilot-devui-demo/opscopilot/memory.py:71-81 | Each of the two searches overwrites its own field when it matches and leaves it otherwise. |
| Memory.OpsMemory.SetLanguage | opscopilot-devui-demo/opscopilot/memory.py:83-85 | Only the language preference changes. |
| Memory.OpsMemory.GetState | opscopilot-devui-demo/opscopilot/memory.py:87-93 | Reports exactly the three current field values and changes nothing. |
| Memory.OpsMemory.Clear | opscopilot-devui-demo/opscopilot/memory.py:95-98 | Customer and service become None; the language is kept. |
| Memory.UserMessages | opscopilot-devui-demo/opscopilot/memory.py:60 | Every kept message is a user message, every user message is kept, and the result is no longer than the input. |
| Memory.UserMessagesSingle | opscopilot-devui-demo/opscopilot/memory.py:59-60 | A single message is kept exactly when its role is "user". |
| Memory.UserMessagesInOrder | opscopilot-devui-demo/opscopilot/memory.py:59-60 | The filter distributes over concatenation, so the kept user messages stay in their original order. |
| Memory.InstructionPartsLayout | opscopilot-devui-demo/opscopilot/memory.py:29-41 | Language directive first, then the service note exactly when a service is set, then the customer note exactly when a customer is set. |
| Memory.InstructionsContents | opscopilot-devui-demo/opscopilot/memory.py:29-44 | Instructions are non-empty and start with the Hebrew directive when the lower-cased preference is "hebrew", otherwise with "Respond in {lang}. Keep answers concise."; the set notes appear verbatim. |
| Memory.InstructionsWithoutContext | opscopilot-devui-demo/opscopilot/memory.py:29-44 | With nothing remembered the instructions are the language directive alone. |
| Memory.FreshInstructions | opscopilot-devui-demo/opscopilot/memory.py:20-35 | A fresh memory's instructions are exactly the Hebrew directive. |
| Memory.RememberedTokensInInstructions | opscopilot-devui-demo/opscopilot/memory.py:37-41 | A remembered customer or service token appears verbatim in the instructions. |
| Memory.ExtractIndependent | opscopilot-devui-demo/opscopilot/memory.py:71-81 | Extraction never changes the language, and each field depends only on its own search and its own previous value. |
| Memory.ExtractCustomer | opscopilot-devui-demo/opscopilot/memory.py:73-76 | Without a customer match the customer is kept; with one it becomes the greedy token of the leftmost match. |
| Memory.ExtractService | opscopilot-devui-demo/opscopilot/memory.py:78-81 | The same rule for the service. |
| Memory.MessageTextShowsContents | opscopilot-devui-demo/opscopilot/memory.py:62-67 | Each text content appears in the message text followed by a space. |
| Memory.OnlyUserMessagesCount | opscopilot-devui-demo/opscopilot/memory.py:59-69 | Dropping every non-user message does not change the outcome. |
| Memory.MessagesKeepLanguage | opscopilot-devui-demo/opscopilot/memory.py:46-69 | Reading messages never changes the language preference. |
| Memory.LastCustomerWins | opscopilot-devui-demo/opscopilot/memory.py:59-76 | The remembered customer is the match of the last user message that has one. |
| Memory.LastServiceWins | opscopilot-devui-demo/opscopilot/memory.py:59-81 | The remembered service is the match of the last user message that has one. |
| Memory.SampleCustomer | opscopilot-devui-demo/opscopilot/memory.py:74-76 | For a non-empty `[A-Za-z0-9_-]` token c and any s, the customer search on "Customer: c Service: s " finds c. With c empty it would find "Service" instead. |
| Memory.SampleService | opscopilot-devui-demo/opscopilot/memory.py:79-81 | For a non-empty `[A-Za-z0-9_-]` token s, the service search on the same text finds s, provided no "s" or "S" in "Customer: c " is followed by "e" (so no service match can start before the real one; "acme-sales" qualifies). |
| Memory.RecordedFacts | opscopilot-devui-demo/opscopilot/memory.py:20-81 | For non-empty `[A-Za-z0-9_-]` tokens c and s, where no "s" or "S" in "Customer: c " is followed by "e", a fresh memory that reads the user message "Customer: c Service: s" remembers c and s and keeps "hebrew". Without that condition the service may be taken from inside c: "Customer: xservice Service: billing" remembers the service "Service". |
| Text.SplitJoin | opscopilot-devui-demo/opscopilot/workflow.py:236 | Splitting a newline-joined list of newline-free segments gives back the list. |
| Text.DecimalRoundTrip | opscopilot-devui-demo/opscopilot/workflow.py:217 | The decimal rendering of a step number reads back as that number. |

## Left out

- `agents.py`, `middleware.py`, `tools.py` and `models.py` are not part of
  this model. These are the agent and client setup, the logging middleware,
  the mock enrichment tools, and the pydantic records with their validation.
- The enrichment tools are function parameters (`Prompts.Tools`), and JSON
  and pydantic validation are the uninterpreted `Decoder` functions. No
  field constraint, such as confidence bounds, is modelled.
- `TriageResult.approval_action` is assumed to default to None in the
  fallback record; its declaration lives in `models.py`.
- `to_classifier_request` and `process_triage_and_enrich` are modelled
  (`Prompts.ClassifierPrompt`, `Prompts.EnrichedPlanPrompt`), but
  `build_workflow` does not connect them: the wired chain is
  `triage_incident`, then the writer, then `format_output`. No pipeline
  state machine or approval gate is modelled.
- `build_workflow`, the `WorkflowPayload` dataclass, the async
  `send_message`/`yield_output` calls and the `print` diagnostics are left
  out. They are SDK wiring, side effects and an unused type. The prompt
  builders return the prompt text instead of sending a request.
- `serialize`, the process-wide `_ops_memory` singleton and its sharing
  across agents are left out (JSON escaping and concurrency).
- `Text.Lower` and `ContextPattern.IsSpace` cover ASCII only. `str.lower`
  and `\s` on non-ASCII characters are not modelled. For the comparison with
  "hebrew" this makes no difference.
- `Prompts.EnrichedPlanPrompt`: Python's rendering of the float confidence
  is a parameter (`showConfidence`), not modelled.
- `Memory.OpsMemory.Invoked`: a single `ChatMessage` argument is modelled
  as a one-element list. The `hasattr` checks are modelled by the `Content`
  datatype (text or other content).
- `ResultParser.Parse`: a typed record of the other record type, and any
  value the two parsers do not recognise, are the `Other` shape. Any exception
  raised while constructing a record from a dict is a `fromFields` failure.
- The `invoking` parameters `messages` and `**kwargs` and the `invoked`
  parameters `response_messages` and `invoke_exception` are left out,
  because `invoking` and `invoked` never read them.
