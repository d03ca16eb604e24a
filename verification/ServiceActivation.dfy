/** The fixed-service activation boundary. */
module ServiceActivation {
  import opened Texts

  datatype ActivationState = READY | BLOCKED_BY_DEFAULT | REJECTED | ACTIVATED | FAILED

  /** The texts that the program itself writes.  They are constants that pass every text check. */
  datatype Phrase =
    | ControlCenterUnit | FixedServiceActivation | FixedServiceRunner | ManagerFallback
    | MetadataUnsafe | UnitNotAllowed | ProjectNotAllowed | OperationNotAllowed | ApproverMustDiffer
    | Disabled | RunnerConfigured | RunnerFailed | EvidenceUnsafe | PreflightRaised | ActivationRaised

  /** A text field: one of the program's own constants or text from outside. */
  datatype Field = Own(phrase: Phrase) | Foreign(text: string)

  const DEFAULT_UNIT := Own(ControlCenterUnit)
  const DEFAULT_PROJECT := "control-center"

  datatype Request = Request(
    unit: Field, project: string, operation: string, release: string,
    requestedBy: string, approvedBy: string, reference: string)

  datatype Evidence = Evidence(
    provider: Field, unit: Field, operation: string, state: ActivationState, result: Field, verified: bool)

  /** `FixedServiceActivation`: one unit, one project, two operations. */
  datatype Fixed = Fixed(enabled: bool, runner: bool)

  predicate SafeText(x: Screen, s: string) {
    !Blank(s) && |s| <= 256 && '\r' !in s && '\n' !in s && '\0' !in s && x.Clean(s)
  }

  predicate SafeField(x: Screen, f: Field) {
    f.Foreign? ==> SafeText(x, f.text)
  }

  predicate SafeRequest(x: Screen, r: Request) {
    && SafeField(x, r.unit) && SafeText(x, r.project) && SafeText(x, r.operation) && SafeText(x, r.release)
    && SafeText(x, r.requestedBy) && SafeText(x, r.approvedBy) && SafeText(x, r.reference)
  }

  function Answer(r: Request, state: ActivationState, result: Phrase, verified: bool): Evidence {
    Evidence(Own(FixedServiceActivation), r.unit, r.operation, state, Own(result), verified)
  }

  /** The first refusal that applies, if any. */
  function Refusal(x: Screen, r: Request): Option<Evidence> {
    if !SafeRequest(x, r) then Some(Answer(r, REJECTED, MetadataUnsafe, false))
    else if r.unit != DEFAULT_UNIT then Some(Answer(r, REJECTED, UnitNotAllowed, false))
    else if r.project != DEFAULT_PROJECT then Some(Answer(r, REJECTED, ProjectNotAllowed, false))
    else if r.operation !in {"deploy", "rollback"} then Some(Answer(r, REJECTED, OperationNotAllowed, false))
    else if r.requestedBy == r.approvedBy then Some(Answer(r, REJECTED, ApproverMustDiffer, false))
    else None
  }

  /** READY exactly for an enabled provider with a runner and a safe request inside the allowlist
      that two people stand behind; only READY answers are verified. */
  function Preflight(f: Fixed, x: Screen, r: Request): (e: Evidence)
    ensures e.state == READY <==>
      && f.enabled && f.runner && SafeRequest(x, r) && r.unit == DEFAULT_UNIT && r.project == DEFAULT_PROJECT
      && (r.operation == "deploy" || r.operation == "rollback") && r.requestedBy != r.approvedBy
    ensures e.verified <==> e.state == READY
  {
    match Refusal(x, r)
    case Some(e) => e
    case None =>
      if !f.enabled || !f.runner then Answer(r, BLOCKED_BY_DEFAULT, Disabled, false)
      else Answer(r, READY, RunnerConfigured, true)
  }

  predicate RunnerEvidence(x: Screen, e: Evidence, r: Request) {
    && e.provider == Own(FixedServiceRunner) && e.unit == r.unit && e.operation == r.operation
    && e.state == ACTIVATED && e.verified && SafeField(x, e.result)
  }

  /** `reply` is what the runner returns, or None when it raises.  An activation is reported exactly
      when the preflight is ready and the runner's own evidence is accepted. */
  function Activate(f: Fixed, x: Screen, r: Request, reply: Option<Evidence>): (a: Evidence)
    ensures a.state == ACTIVATED <==>
      Preflight(f, x, r).state == READY && reply.Some? && RunnerEvidence(x, reply.value, r)
    ensures a.state == ACTIVATED ==> a == reply.value && a.verified
  {
    match Refusal(x, r)
    case Some(e) => e
    case None =>
      if !f.enabled || !f.runner then Answer(r, BLOCKED_BY_DEFAULT, Disabled, false)
      else match reply
        case None => Answer(r, FAILED, RunnerFailed, false)
        case Some(e) => if RunnerEvidence(x, e, r) then e else Answer(r, FAILED, EvidenceUnsafe, false)
  }

  predicate SafeTextField(x: Screen, f: Field) {
    f.Foreign? ==> x.Safe(f.text, 512)
  }

  /** `_valid_activation_evidence`: what both managers demand of any activation evidence. */
  predicate ValidActivation(x: Screen, e: Evidence, r: Request) {
    && e.unit == r.unit && e.operation == r.operation
    && SafeTextField(x, e.provider) && SafeTextField(x, e.unit) && SafeTextField(x, e.result)
    && x.Safe(e.operation, 512)
  }

  lemma OperationsAreSafe(x: Screen)
    ensures x.Safe("deploy", 512) && x.Safe("rollback", 512)
  {
    assert x.Clean("deploy") && x.Clean("rollback");
    assert !Space("deploy"[0]) && !Space("rollback"[0]);
  }

  /** What a manager demands of the activation evidence for one of its two operations, whether it was
      given or stands for a raised exception. */
  lemma ActivationAcceptedExactly(x: Screen, given: Option<Evidence>, fallback: Evidence, request: Request,
      state: ActivationState)
    requires fallback.state != state && request.unit == DEFAULT_UNIT
    requires request.operation == "deploy" || request.operation == "rollback"
    ensures var e := if given.Some? then given.value else fallback;
      (ValidActivation(x, e, request) && e.state == state && e.verified) <==>
        && given.Some? && given.value.unit == Own(ControlCenterUnit) && given.value.operation == request.operation
        && given.value.state == state && given.value.verified
        && (given.value.provider.Foreign? ==> x.Safe(given.value.provider.text, 512))
        && (given.value.result.Foreign? ==> x.Safe(given.value.result.text, 512))
  {
    OperationsAreSafe(x);
  }

  lemma SafeTextExactly(x: Screen, t: string)
    ensures SafeText(x, t) <==>
      && (exists i :: 0 <= i < |t| && !Space(t[i])) && |t| <= 256
      && '\r' !in t && '\n' !in t && '\0' !in t && !x.secret(t) && !x.raw(t)
  {
  }

  /** When the fixed service is ready: it is enabled, has a runner, every text of the request is safe, and
      two people ask for the one unit of the one project. */
  lemma ReadyExactly(f: Fixed, x: Screen, r: Request)
    ensures Preflight(f, x, r).state == READY <==>
      && f.enabled && f.runner && r.unit == Own(ControlCenterUnit) && r.project == "control-center"
      && (r.operation == "deploy" || r.operation == "rollback") && r.requestedBy != r.approvedBy
      && SafeText(x, r.project) && SafeText(x, r.operation) && SafeText(x, r.release)
      && SafeText(x, r.requestedBy) && SafeText(x, r.approvedBy) && SafeText(x, r.reference)
  {
  }

  /** When it is activated: it is ready and the fixed runner reports this very unit and operation as
      activated, in safe text. */
  lemma ActivatedExactly(f: Fixed, x: Screen, r: Request, reply: Option<Evidence>)
    ensures Activate(f, x, r, reply).state == ACTIVATED <==>
      && Preflight(f, x, r).state == READY && reply.Some? && reply.value.provider == Own(FixedServiceRunner)
      && reply.value.unit == r.unit && reply.value.operation == r.operation && reply.value.state == ACTIVATED
      && reply.value.verified && (reply.value.result.Foreign? ==> SafeText(x, reply.value.result.text))
  {
  }
}
