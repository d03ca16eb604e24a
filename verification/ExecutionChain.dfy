/** From an approval to one provider call: planner, dry run, gate and controlled execution. */
module ExecutionChain {
  import opened Texts
  import opened Digests
  import opened Policy
  import opened Approvals

  // ----- the audit trail -----

  datatype PlanState = PlanBlocked | READY_TO_EXECUTE | PlanRejected

  datatype AuditStep =
    | PlanEvaluated(state: PlanState) | DryRunStarted | DryRunCompleted | DryRunBlocked
    | GateEvaluated | GateEligible | GateBlocked | GateRejected

  datatype AuditEvent = AuditEvent(step: AuditStep, actor: string, risk: Risk, commandId: string)

  /** A stage: the events that the audit bridge accepted, and its result unless it raised. */
  datatype Traced<T> = Traced(result: Option<T>, events: seq<AuditEvent>)

  /** A stage that appends its events one by one to a log that accepts `log` more of them: the first
      append that fails ends the run. */
  function Logged<T>(result: T, events: seq<AuditEvent>, log: nat): (t: Traced<T>)
    ensures t.result.Some? <==> |events| <= log
    ensures t.result.Some? ==> t == Traced(Some(result), events)
    ensures t.result == None ==> t.events == events[..log]
  {
    if |events| <= log then Traced(Some(result), events) else Traced(None, events[..log])
  }

  /** The application audit log refuses secret-like and raw-stream texts. */
  predicate Auditable(x: Screen, actor: string, commandId: string) {
    x.Clean(actor) && x.Clean(commandId)
  }

  function RiskOrder(r: Risk): nat {
    match r
    case LOW => 1
    case MEDIUM => 2
    case HIGH => 3
    case CRITICAL => 4
  }

  predicate RiskAllowed(actual: Risk, maximum: Risk) {
    RiskOrder(actual) <= RiskOrder(maximum)
  }

  // ----- the planner -----

  /** The plan carries the approval it was built from; None when there is none. */
  datatype Plan = Plan(
    state: PlanState, actor: string, action: string, commandId: string, risk: Risk, approvalId: string,
    approval: Option<Request>)

  /** What the pipeline tells the planner to expect. */
  datatype Expectation = Expectation(policyVersion: string, permissions: set<string>, resource: string)

  predicate Differ<T(==)>(expected: Option<T>, recorded: Option<T>) {
    expected.Some? && recorded.Some? && expected != recorded
  }

  /** The optional comparisons of two snapshots. */
  predicate SnapshotsDiffer(expected: Snapshot, recorded: Snapshot) {
    || Differ(expected.operationId, recorded.operationId) || Differ(expected.branch, recorded.branch)
    || Differ(expected.commit, recorded.commit) || Differ(expected.backupId, recorded.backupId)
    || Differ(expected.operationHash, recorded.operationHash) || Differ(expected.planHash, recorded.planHash)
    || (expected.commands != [] && expected.commands != recorded.commands)
    || (expected.files != [] && expected.files != recorded.files)
    || (expected.servicesAffected != [] && expected.servicesAffected != recorded.servicesAffected)
    || (expected.impact != [] && expected.impact != recorded.impact)
  }

  /** `_approval_mismatch_reason` has something to say. */
  predicate Mismatch(a: Request, actor: string, action: string, commandId: string, e: Expectation, expected: Snapshot) {
    || a.actor != actor || a.action != action || a.commandId != Some(commandId)
    || (a.snapshot.policyVersion != "legacy" &&
         (a.snapshot.policyVersion != e.policyVersion || a.snapshot.permissions != e.permissions
           || a.snapshot.resource != e.resource))
    || SnapshotsDiffer(expected, a.snapshot)
  }

  /** What the planner's READY means, on the redacted texts. */
  predicate PlanConditions(e: Engine, a: Option<Request>, actor: string, action: string, commandId: string,
      ex: Expectation, maximum: Risk) {
    && Evaluate(e, action, commandId).Some? && Evaluate(e, action, commandId).value.decision == ALLOW
    && a.Some? && a.value.status == ApprovalStatus.APPROVED
    && a.value.actor == actor && a.value.action == action && a.value.commandId == Some(commandId)
    && (a.value.snapshot.policyVersion != "legacy" ==>
          && a.value.snapshot.policyVersion == ex.policyVersion && a.value.snapshot.permissions == ex.permissions
          && a.value.snapshot.resource == ex.resource)
    && RiskAllowed(Evaluate(e, action, commandId).value.risk, maximum)
  }

  /** `build_plan`; `a` is what the store returns for the approval id.  A plan is ready exactly under the
      plan conditions, and no plan is returned without its own audit event. */
  function BuildPlan(
      x: Screen, e: Engine, a: Option<Request>, rawActor: string, rawAction: string, rawCommand: string,
      approvalId: string, ex: Expectation, maximum: Risk, log: nat): (t: Traced<Plan>)
    ensures t.result == None ==> t.events == []
    ensures t.result.Some? ==> (
      && x.Clean(t.result.value.actor) && x.Clean(t.result.value.commandId) && 0 < log
      && t.events == [AuditEvent(PlanEvaluated(t.result.value.state), t.result.value.actor, t.result.value.risk,
                                 t.result.value.commandId)]
      && t.result.value.actor == x.redact(rawActor) && t.result.value.action == x.redact(rawAction)
      && t.result.value.commandId == x.redact(rawCommand)
      && t.result.value.approvalId == approvalId && t.result.value.approval == a)
    ensures (t.result.Some? && t.result.value.state == READY_TO_EXECUTE) <==>
      && 0 < log && x.Clean(x.redact(rawActor)) && x.Clean(x.redact(rawCommand))
      && PlanConditions(e, a, x.redact(rawActor), x.redact(rawAction), x.redact(rawCommand), ex, maximum)
    ensures t.result.Some? ==> (
      && Evaluate(e, x.redact(rawAction), x.redact(rawCommand)).Some?
      && t.result.value.risk == Evaluate(e, x.redact(rawAction), x.redact(rawCommand)).value.risk
      && (t.result.value.state == PlanRejected <==>
            Evaluate(e, x.redact(rawAction), x.redact(rawCommand)).value.decision == DENY))
  {
    var actor, action, commandId := x.redact(rawActor), x.redact(rawAction), x.redact(rawCommand);
    var decision := Evaluate(e, action, commandId);
    if decision == None then Traced(None, [])
    else
      var d := decision.value;
      var state :=
        if d.decision == DENY then PlanRejected
        else if a == None then PlanBlocked
        else if Mismatch(a.value, actor, action, commandId, ex, a.value.snapshot) then PlanBlocked
        else if a.value.status != ApprovalStatus.APPROVED then PlanBlocked
        else if d.decision != ALLOW then PlanBlocked
        else if !RiskAllowed(d.risk, maximum) then PlanBlocked
        else READY_TO_EXECUTE;
      if !Auditable(x, actor, commandId) then Traced(None, [])
      else Logged(Plan(state, actor, action, commandId, d.risk, approvalId, a),
             [AuditEvent(PlanEvaluated(state), actor, d.risk, commandId)], log)
  }

  // ----- the dry run -----

  datatype DryRun = DryRun(completed: bool, actor: string, action: string, commandId: string, risk: Risk,
    approvalId: Option<string>, snapshot: Option<Snapshot>, approvalHash: Option<HashText>)

  function GivenText(x: Screen, id: string): Option<string> {
    if id == "" then None else Some(x.redact(id))
  }

  /** The policy with the fallback for unknown commands. */
  function Fallback(e: Engine, action: string, commandId: string): PolicyDecision {
    match Evaluate(e, action, commandId)
    case Some(d) => d
    case None => PolicyDecision(DENY, MEDIUM, UnknownClass)
  }

  predicate PlanTextsSecretFree(x: Screen, p: Plan) {
    !x.secret(p.actor) && !x.secret(p.action) && !x.secret(p.commandId) && !x.secret(p.approvalId)
  }

  /** The result of a dry run.  It completes exactly for a ready, secret-free plan that the policy still
      allows at the same risk. */
  function DryOutcome(x: Screen, e: Engine, p: Plan, maximum: Risk): (d: DryRun)
    requires Auditable(x, p.actor, p.commandId)
    ensures d.completed <==>
      && PlanTextsSecretFree(x, p) && p.state == READY_TO_EXECUTE
      && Fallback(e, p.action, p.commandId).decision == ALLOW
      && p.risk == Fallback(e, p.action, p.commandId).risk && RiskAllowed(p.risk, maximum)
    ensures d.completed ==> (d ==
      DryRun(true, p.actor, p.action, p.commandId, p.risk, GivenText(x, p.approvalId),
        if p.approval.Some? then Some(p.approval.value.snapshot) else None,
        if p.approval.Some? then p.approval.value.approvalHash else None))
    ensures d.actor == p.actor && d.commandId == p.commandId
  {
    var actor, action, commandId := x.redact(p.actor), x.redact(p.action), x.redact(p.commandId);
    var id := GivenText(x, p.approvalId);
    var d := Fallback(e, action, commandId);
    if !PlanTextsSecretFree(x, p) || p.state != READY_TO_EXECUTE then
      DryRun(false, actor, action, commandId, p.risk, id, None, None)
    else if d.decision != ALLOW || p.risk != d.risk || !RiskAllowed(p.risk, maximum) then
      DryRun(false, actor, action, commandId, d.risk, id, None, None)
    else
      DryRun(true, actor, action, commandId, p.risk, id,
        if p.approval.Some? then Some(p.approval.value.snapshot) else None,
        if p.approval.Some? then p.approval.value.approvalHash else None)
  }

  /** `dry_run` of a plan whose actor and command passed the audit: two events when it completes, one
      when it is blocked, and no result without them. */
  function RunDry(x: Screen, e: Engine, p: Plan, maximum: Risk, log: nat): (t: Traced<DryRun>)
    requires Auditable(x, p.actor, p.commandId)
    ensures t.result.Some? <==> (if DryOutcome(x, e, p, maximum).completed then 2 else 1) <= log
    ensures t.result.Some? ==> t.result.value == DryOutcome(x, e, p, maximum)
    ensures t.result.Some? && t.result.value.completed ==>
      t.events == [AuditEvent(DryRunStarted, p.actor, p.risk, p.commandId),
                   AuditEvent(DryRunCompleted, p.actor, p.risk, p.commandId)]
    ensures t.result.Some? && !t.result.value.completed ==>
      t.events == [AuditEvent(DryRunBlocked, p.actor, t.result.value.risk, p.commandId)]
  {
    var d := DryOutcome(x, e, p, maximum);
    Logged(d,
      if d.completed then
        [AuditEvent(DryRunStarted, d.actor, d.risk, d.commandId),
          AuditEvent(DryRunCompleted, d.actor, d.risk, d.commandId)]
      else [AuditEvent(DryRunBlocked, d.actor, d.risk, d.commandId)], log)
  }

  // ----- the gate -----

  datatype GateState = Eligible | GateIsBlocked | GateIsRejected

  datatype GateDecision = GateDecision(state: GateState, actor: string, action: string, commandId: string, risk: Risk,
      approvalId: Option<string>)

  predicate SecretFreeOption(x: Screen, t: Option<string>) {
    t.Some? ==> !x.secret(t.value)
  }

  /** The approval members that the gate screens. */
  predicate ApprovalSecretFree(x: Screen, a: Option<Request>) {
    a.Some? ==>
      && !x.secret(a.value.snapshot.actorRole) && SecretFreeOption(x, a.value.decidedBy)
      && SecretFreeOption(x, a.value.decidedByRole)
      && !x.secret(a.value.snapshot.policyVersion) && !x.secret(a.value.snapshot.resource)
      && SecretFreeOption(x, a.value.snapshot.planId)
      && (forall p | p in a.value.snapshot.permissions :: !x.secret(p))
  }

  predicate NonEmpty(t: Option<string>) {
    t.Some? && t.value != ""
  }

  predicate Versioned(a: Option<Request>) {
    a.Some? && a.value.snapshot.policyVersion != "legacy"
  }

  /** A versioned snapshot has every member the gate needs. */
  predicate SnapshotComplete(a: Request) {
    && NonEmpty(a.snapshot.planId) && a.snapshot.actorRole != "" && NonEmpty(a.decidedBy) && NonEmpty(a.decidedByRole)
    && a.snapshot.permissions != {} && a.snapshot.expiresAt.Some?
  }

  /** `_mismatch_reason` has something to say. */
  predicate GateMismatch(p: Plan, d: DryRun) {
    || p.actor != d.actor || p.action != d.action || p.commandId != d.commandId || Some(p.approvalId) != d.approvalId
    || p.risk != d.risk
    || (p.approval.Some? && p.approval.value.snapshot.operationId.Some?
        && (d.snapshot == None || d.snapshot.value.operationId != p.approval.value.snapshot.operationId))
    || (p.approval.Some? && p.approval.value.snapshot.operationHash.Some?
        && (d.snapshot == None || d.snapshot.value.operationHash != p.approval.value.snapshot.operationHash))
    || (p.approval.Some? && p.approval.value.snapshot.planHash.Some?
        && (d.snapshot == None || d.snapshot.value.planHash != p.approval.value.snapshot.planHash))
    || (p.approval.Some? && p.approval.value.approvalHash.Some? && d.approvalHash != p.approval.value.approvalHash)
  }

  predicate DryRunSecretFree(x: Screen, d: DryRun) {
    !x.secret(d.actor) && !x.secret(d.action) && !x.secret(d.commandId) && SecretFreeOption(x, d.approvalId)
  }

  /** Whose event closes the gate's evaluation. */
  function GateStep(s: GateState): AuditStep {
    match s
    case Eligible => GateEligible
    case GateIsBlocked => GateBlocked
    case GateIsRejected => GateRejected
  }

  function GateVerdict(x: Screen, e: Engine, p: Plan, d: DryRun, maximum: Risk, now: int): GateState {
    var decision := Fallback(e, x.redact(p.action), x.redact(p.commandId));
    if !PlanTextsSecretFree(x, p) || !DryRunSecretFree(x, d) || !ApprovalSecretFree(x, p.approval) then GateIsBlocked
    else if Versioned(p.approval) && !SnapshotComplete(p.approval.value) then GateIsBlocked
    else if Versioned(p.approval) && Expired(p.approval.value.snapshot.expiresAt, now) then GateIsBlocked
    else if !d.completed then GateIsBlocked
    else if p.state != READY_TO_EXECUTE then GateIsBlocked
    else if p.approvalId == "" then GateIsBlocked
    else if GateMismatch(p, d) then GateIsBlocked
    else if decision.decision == DENY then GateIsRejected
    else if decision.decision != ALLOW then GateIsBlocked
    else if p.risk != decision.risk || d.risk != decision.risk then GateIsBlocked
    else if !RiskAllowed(p.risk, maximum) then GateIsBlocked
    else Eligible
  }

  /** The dry run is about this plan: same actor, action, command, approval and risk, and every id and hash
      that the plan carries. */
  predicate SameRun(p: Plan, d: DryRun) {
    && d.actor == p.actor && d.action == p.action && d.commandId == p.commandId && d.approvalId == Some(p.approvalId)
    && d.risk == p.risk
    && (p.approval.Some? ==>
          var a := p.approval.value;
          && (a.snapshot.operationId.Some? ==>
                d.snapshot.Some? && d.snapshot.value.operationId == a.snapshot.operationId)
          && (a.snapshot.operationHash.Some? ==>
                d.snapshot.Some? && d.snapshot.value.operationHash == a.snapshot.operationHash)
          && (a.snapshot.planHash.Some? ==> d.snapshot.Some? && d.snapshot.value.planHash == a.snapshot.planHash)
          && (a.approvalHash.Some? ==> d.approvalHash == a.approvalHash))
  }

  /** The gate on any plan and any dry run, its own or not: it is eligible only for a completed dry run of
      this very plan that the policy still allows, and it rejects what the policy denies by then. */
  lemma GateVerdictExactly(x: Screen, e: Engine, p: Plan, d: DryRun, maximum: Risk, now: int)
    ensures var v := GateVerdict(x, e, p, d, maximum, now);
      var decision := Fallback(e, x.redact(p.action), x.redact(p.commandId));
      var comparable :=
        && PlanTextsSecretFree(x, p) && DryRunSecretFree(x, d) && ApprovalSecretFree(x, p.approval)
        && (p.approval.Some? && p.approval.value.snapshot.policyVersion != "legacy" ==>
              && SnapshotComplete(p.approval.value) && p.approval.value.snapshot.expiresAt.value.Aware?
              && now < p.approval.value.snapshot.expiresAt.value.at)
        && d.completed && p.state == READY_TO_EXECUTE && p.approvalId != "" && SameRun(p, d);
      && (v == Eligible <==>
            && comparable && decision.decision == ALLOW && decision.risk == p.risk
            && (p.risk == LOW || maximum == CRITICAL || (p.risk == MEDIUM && maximum != LOW)
                || (p.risk == HIGH && maximum == HIGH)))
      && (v == GateIsRejected <==> comparable && decision.decision == DENY)
  {
  }

  /** The gate on a plan and its own dry run: none of the comparison and policy branches can fire once
      the dry run completed, so only the approval's own texts, completeness and expiry decide; the
      decision is returned only after its two events. */
  function EvaluateGate(
      x: Screen, e: Engine, p: Plan, d: DryRun, maximum: Risk, now: int, log: nat): (t: Traced<GateDecision>)
    requires Auditable(x, p.actor, p.commandId) && d == DryOutcome(x, e, p, maximum)
    ensures t.result.Some? <==> 2 <= log
    ensures (t.result.Some? && t.result.value.state == Eligible) <==>
      && 2 <= log && d.completed && p.approvalId != "" && ApprovalSecretFree(x, p.approval)
      && (p.approval.Some? && p.approval.value.snapshot.policyVersion != "legacy" ==>
            && SnapshotComplete(p.approval.value) && p.approval.value.snapshot.expiresAt.value.Aware?
            && now < p.approval.value.snapshot.expiresAt.value.at)
    ensures t.result.Some? && t.result.value.state == Eligible ==>
      && t.result.value == GateDecision(Eligible, p.actor, p.action, p.commandId, p.risk, Some(p.approvalId))
      && t.events == [AuditEvent(GateEvaluated, p.actor, p.risk, p.commandId),
                      AuditEvent(GateEligible, p.actor, p.risk, p.commandId)]
  {
    var actor, action, commandId := x.redact(p.actor), x.redact(p.action), x.redact(p.commandId);
    var state := GateVerdict(x, e, p, d, maximum, now);
    Logged(GateDecision(state, actor, action, commandId, p.risk, GivenText(x, p.approvalId)),
      [AuditEvent(GateEvaluated, actor, p.risk, commandId), AuditEvent(GateStep(state), actor, p.risk, commandId)], log)
  }
}
