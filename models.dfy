/** The typed records the workflow stages exchange. Their field validation
    (allowed categories, confidence bounds, ...) belongs to the record
    definitions, which are not part of this model. */
module Models {
  import opened Wrappers

  /** An incoming incident; `severityHint` is optional. */
  datatype Incident = Incident(
    id: string,
    title: string,
    description: string,
    service: string,
    customer: string,
    severityHint: Option<string>)

  /** The classifier's verdict. */
  datatype TriageResult = TriageResult(
    category: string,
    severity: string,
    confidence: real,
    nextAction: string,
    needsApproval: bool,
    approvalAction: Option<string>)

  /** The writer's response plan; `steps` are in execution order. */
  datatype FinalPlan = FinalPlan(
    summary: string,
    steps: seq<string>,
    customerMessage: string,
    internalNote: string)
}
