/** Hash texts.  A SHA-256 digest over canonical JSON is modelled as the term it digests, so two
    digests are equal exactly when the digested values are. */
module Digests {
  import opened Texts

  datatype Risk = LOW | MEDIUM | HIGH | CRITICAL

  datatype OperationStatus =
    | PLANNED | DRY_RUN | WAITING_APPROVAL | APPROVED | READY | EXECUTING | VALIDATING | MONITORING
    | COMPLETED | EXPIRED | INVALIDATED | REJECTED | BLOCKED | FAILED

  /** The members of an operation manifest that its hashes cover. */
  datatype Payload = Payload(
    operationId: string, project: string, server: string, environment: string, resource: string,
    requestedBy: string, requestedAction: string, agent: string, riskLevel: string, status: OperationStatus,
    lists: Lists, backupRequired: bool, approvalRequired: bool, backupId: Option<string>,
    branch: Option<string>, commit: Option<string>, rollbackPlan: string, expectedResult: string,
    downtimePossible: bool, dataRisk: string, createdAt: string,
    approvedAt: Option<string>, executedAt: Option<string>, completedAt: Option<string>)

  datatype Lists = Lists(
    commands: seq<string>, files: seq<string>, servicesAffected: seq<string>,
    dependencies: seq<string>, testsRequired: seq<string>, validationSteps: seq<string>)

  datatype ApprovalStatus = PENDING | APPROVED | DENIED | EXPIRED

  /** The text of a point in time, by what the ISO parser makes of it. */
  datatype Stamp = Aware(at: int) | Unusable

  /** The members of an approval request that are fixed when it is created. */
  datatype Snapshot = Snapshot(
    actorRole: string, policyVersion: string, permissions: set<string>, resource: string,
    planId: Option<string>, expiresAt: Option<Stamp>, operationId: Option<string>,
    branch: Option<string>, commit: Option<string>, backupId: Option<string>,
    commands: seq<string>, files: seq<string>, servicesAffected: seq<string>, impact: seq<string>,
    operationHash: Option<HashText>, planHash: Option<HashText>, executionHash: Option<HashText>)

  /** The members of an approval request that its approval hash covers; the plan id and the
      execution hash of the snapshot are blanked first. */
  datatype Seal = Seal(
    id: string, actor: string, action: string, risk: Risk, commandId: Option<string>, reason: string,
    status: ApprovalStatus, decidedBy: Option<string>, decidedByRole: Option<string>, snapshot: Snapshot)

  datatype Preimage =
    | OperationBody(payload: Payload)
    | PlanStage(operation: HashText, payload: Payload)
    | ApprovalStage(operation: HashText, plan: HashText)
    | ExecutionStage(operation: HashText, plan: HashText, approval: HashText)
    | ApprovalRecord(seal: Seal)

  /** A text in a hash field: empty, a digest, or anything else somebody wrote there. */
  datatype HashText = Empty | Digest(of: Preimage) | Written(text: string)

  /** The text of an enumeration member, or another text in its place. */
  datatype EnumText<T> = Known(value: T) | Unknown(text: string)
}
