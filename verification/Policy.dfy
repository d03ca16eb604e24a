/** The policy engine. */
module Policy {
  import opened Texts
  import opened Digests

  datatype CommandClass = READ_SAFE | READ_SENSITIVE | READ_PRIVILEGED | FORBIDDEN
  datatype Spec = Spec(kind: CommandClass, sudo: bool)

  datatype Decision = ALLOW | DENY | APPROVAL_REQUIRED

  /** Which sentence explains a decision. */
  datatype Ground =
    | ModifyingDenied | ReadSafeAllowed | ReadSensitive | ReadPrivileged | ForbiddenDenied | UnknownClass
    | SensitiveAction | UnknownOperation

  datatype PolicyDecision = PolicyDecision(decision: Decision, risk: Risk, ground: Ground)

  /** The tables of the engine: the command allowlist, the actions denied by default, and the text of
      each sentence. */
  datatype Engine = Engine(catalog: map<string, Spec>, modifying: set<string>, say: Ground -> string)

  /** `evaluate` for a request that names an action and a command; None for an unknown command. */
  function Evaluate(e: Engine, action: string, commandId: string): (d: Option<PolicyDecision>)
    ensures d.Some? && d.value.decision == ALLOW <==>
      action !in e.modifying && commandId != "" && commandId in e.catalog && e.catalog[commandId].kind == READ_SAFE
    ensures d.Some? && d.value.decision == ALLOW ==> d.value.risk == LOW
    ensures d == None <==> action !in e.modifying && commandId != "" && commandId !in e.catalog
  {
    if action in e.modifying then Some(PolicyDecision(DENY, HIGH, ModifyingDenied))
    else if commandId == "" then Some(PolicyDecision(DENY, MEDIUM, UnknownClass))
    else if commandId !in e.catalog then None
    else match e.catalog[commandId].kind
      case READ_SAFE => Some(PolicyDecision(ALLOW, LOW, ReadSafeAllowed))
      case READ_SENSITIVE => Some(PolicyDecision(APPROVAL_REQUIRED, MEDIUM, ReadSensitive))
      case READ_PRIVILEGED => Some(PolicyDecision(APPROVAL_REQUIRED, HIGH, ReadPrivileged))
      case FORBIDDEN => Some(PolicyDecision(DENY, CRITICAL, ForbiddenDenied))
  }

  /** Every answer of the engine, by the action and the class of the command. */
  lemma EvaluateExactly(e: Engine, action: string, commandId: string)
    ensures action in e.modifying ==>
      Evaluate(e, action, commandId) == Some(PolicyDecision(DENY, HIGH, ModifyingDenied))
    ensures action !in e.modifying && commandId == "" ==>
      Evaluate(e, action, commandId) == Some(PolicyDecision(DENY, MEDIUM, UnknownClass))
    ensures action !in e.modifying && commandId != "" && commandId in e.catalog ==>
      && Evaluate(e, action, commandId).Some?
      && (var d, kind := Evaluate(e, action, commandId).value, e.catalog[commandId].kind;
          && (kind == READ_SAFE ==> d.decision == ALLOW && d.risk == LOW)
          && (kind == READ_SENSITIVE ==> d.decision == APPROVAL_REQUIRED && d.risk == MEDIUM)
          && (kind == READ_PRIVILEGED ==> d.decision == APPROVAL_REQUIRED && d.risk == HIGH)
          && (kind == FORBIDDEN ==> d.decision == DENY && d.risk == CRITICAL))
  {
  }
}
