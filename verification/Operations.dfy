/** Operation plans, their manifests and the approvals they are linked to. */
module Operations {
  import opened Texts
  import opened Digests
  import opened Manifest
  import Approvals
  import Store = ApprovalStore
  import Policy
  import B = Backups

  datatype State =
    | PLANNED | APPROVAL_REQUIRED | APPROVED | BACKUP_REQUIRED | READY | BLOCKED_BY_DEFAULT
    | REJECTED | VERIFIED | FAILED

  datatype User = User(id: string, name: string, role: string, permissions: seq<string>)

  datatype Plan = Plan(
    planId: string, actorId: string, actor: string, role: string, project: string, action: string,
    resource: string, risk: Risk, decision: Policy.Decision, state: State, approvalId: Option<string>,
    backupId: Option<string>, policyVersion: string, permissions: seq<string>, steps: seq<string>,
    createdAt: string, reason: string, manifest: Manifest)

  datatype Ask = Ask(
    project: string, action: string, resource: string, commandId: Option<string>, server: string,
    environment: string, branch: Option<string>, commit: Option<string>, files: seq<string>,
    services: seq<string>, dependencies: seq<string>, tests: seq<string>, downtime: bool, dataRisk: string)

  /** The configured collaborators and the fixed sentences of the service; `steps` names the steps of
      an action, `disabled` is the reason of the default block. */
  datatype Config = Config(
    screen: Screen, engine: Policy.Engine, sensitive: set<string>, backedUp: set<string>, policyVersion: string,
    backups: bool, restorePlan: string, readPlan: string, expected: string, steps: string -> seq<string>,
    disabled: string)

  // ----- planning -----

  function ManifestStatus(s: State): OperationStatus {
    match s
    case PLANNED => OperationStatus.PLANNED
    case APPROVAL_REQUIRED => WAITING_APPROVAL
    case APPROVED => OperationStatus.APPROVED
    case BACKUP_REQUIRED => OperationStatus.READY
    case READY => OperationStatus.READY
    case BLOCKED_BY_DEFAULT => BLOCKED
    case REJECTED => OperationStatus.REJECTED
    case VERIFIED => COMPLETED
    case FAILED => OperationStatus.FAILED
  }

  /** `_evaluate`; None when the command is unknown. */
  function Assess(c: Config, action: string, commandId: Option<string>): Option<Policy.PolicyDecision> {
    if action in c.sensitive then Some(Policy.PolicyDecision(Policy.APPROVAL_REQUIRED, HIGH, Policy.SensitiveAction))
    else if commandId.Some? then Policy.Evaluate(c.engine, action, commandId.value)
    else Some(Policy.PolicyDecision(Policy.DENY, MEDIUM, Policy.UnknownOperation))
  }

  function LevelOf(r: Risk): string {
    match r
    case LOW => "L1"
    case MEDIUM => "L2"
    case HIGH => "L3"
    case CRITICAL => "L4"
  }

  function InitialState(d: Policy.Decision): State {
    match d
    case DENY => State.REJECTED
    case APPROVAL_REQUIRED => APPROVAL_REQUIRED
    case ALLOW => State.PLANNED
  }

  function PayloadOf(c: Config, user: User, ask: Ask, planId: string, d: Policy.PolicyDecision, at: string): Payload {
    var approval := d.decision != Policy.ALLOW;
    Payload(planId, ask.project, ask.server, ask.environment, ask.resource, user.name, ask.action, "control_center",
      LevelOf(d.risk), ManifestStatus(InitialState(d.decision)),
      Lists(
        if ask.commandId.Some? then [ask.commandId.value] else [],
        ask.files, ask.services, ask.dependencies, ask.tests,
        ["policy", if approval then "approval" else "policy", "audit"]),
      ask.action in c.backedUp, approval, None, ask.branch, ask.commit,
      if ask.action in c.backedUp then c.restorePlan else c.readPlan, c.expected,
      ask.downtime, ask.dataRisk, at, None, None, None)
  }

  function DraftOf(c: Config, user: User, ask: Ask, m: Manifest, d: Policy.PolicyDecision): Approvals.Draft {
    var p := m.payload;
    Approvals.Draft(user.name, ask.action, d.risk, c.engine.say(d.ground), ask.commandId, user.role, c.policyVersion,
      user.permissions, ask.resource, Some(p.operationId), None, Some(p.operationId), p.branch, p.commit, p.backupId,
      p.lists.commands, p.lists.files, p.lists.servicesAffected, p.lists.servicesAffected,
      Some(m.operationHash), Some(m.planHash), None, None)
  }

  /** A new plan over its manifest. */
  function NewPlan(c: Config, user: User, ask: Ask, planId: string, d: Policy.PolicyDecision, m: Manifest,
      approvalId: Option<string>): Plan {
    Plan(planId, user.id, user.name, user.role, ask.project, ask.action, ask.resource, d.risk, d.decision,
      InitialState(d.decision), approvalId, None, c.policyVersion, user.permissions, c.steps(ask.action),
      m.payload.createdAt, c.engine.say(d.ground), m)
  }

  predicate AskSafe(c: Config, a: Ask) {
    && (forall t | t in [a.project, a.action, a.resource, c.policyVersion, a.server, a.environment, a.dataRisk] ::
          c.screen.Safe(t, 512))
    && (forall t | t in [a.commandId, a.branch, a.commit] && t.Some? :: c.screen.Safe(t.value, 512))
    && (forall l | l in [a.files, a.services, a.dependencies, a.tests] :: forall t | t in l :: c.screen.Safe(t, 512))
  }

  // ----- the service and its calls -----

  /** Plans and the approval requests they point to. */
  datatype Service = Service(plans: map<string, Plan>, requests: Store.Requests)

  datatype Event =
    | PlanIt(user: User, ask: Ask, planId: string, requestId: string, approvalSaves: bool)
    | ApproveIt(approver: User, target: string, reason: string, refreshSaves: bool, decisionSaves: bool)
    | AttachBackup(target: string, backup: string, records: map<string, B.Record>)
    | ExecuteIt(target: string)
    | Elsewhere(event: Store.Event, refreshSaves: bool, eventSaves: bool)

  /** The moment of a call, its ISO text, and whether the plan snapshot could be saved. */
  datatype Context = Context(now: int, text: string, saves: bool)

  /** `_manifest_transition` and the plan around it; None when the new manifest is refused. */
  function Transition(x: Screen, p: Plan, s: State, ch: Changes): Option<Plan> {
    match WithStatus(x, p.manifest, ManifestStatus(s), ch)
    case None => None
    case Some(m) =>
      Some(p.(state := s, manifest := m, backupId := if ch.backupId.Some? then ch.backupId else p.backupId))
  }

  /** The default block, with its own reason. */
  function Blocked(c: Config, p: Plan): Option<Plan> {
    match Transition(c.screen, p, BLOCKED_BY_DEFAULT, Changes(None, None))
    case None => None
    case Some(n) => Some(n.(reason := c.disabled))
  }

  function Put(s: Service, p: Option<Plan>, saves: bool): Service {
    if p.Some? && saves then s.(plans := s.plans[p.value.planId := p.value]) else s
  }

  function PlanStep(c: Config, s: Service, e: Event, ctx: Context): Service
    requires e.PlanIt?
  {
    var assessed := Assess(c, e.ask.action, e.ask.commandId);
    if !AskSafe(c, e.ask) || assessed == None then s
    else
      var d := assessed.value;
      var created := Create(c.screen, PayloadOf(c, e.user, e.ask, e.planId, d, ctx.text));
      if created == None then s
      else
        Planned(c, s, e, ctx, d, created.value)
  }

  /** The plan over a new manifest, with its approval request when the policy demands one. */
  function Planned(c: Config, s: Service, e: Event, ctx: Context, d: Policy.PolicyDecision, m: Manifest): Service
    requires e.PlanIt?
  {
    var plan := NewPlan(c, e.user, e.ask, e.planId, d, m, None);
    if d.decision == Policy.APPROVAL_REQUIRED then
      var (requests, ok) := Store.Next(c.screen, s.requests,
        Store.Create(DraftOf(c, e.user, e.ask, m, d), e.requestId, "", false), ctx.now, true, e.approvalSaves);
      var after := s.(requests := requests);
      if ok then Put(after, Some(plan.(approvalId := Some(e.requestId))), ctx.saves) else after
    else Put(s, Some(plan), ctx.saves)
  }

  function ApproveStep(c: Config, s: Service, e: Event, ctx: Context): Service
    requires e.ApproveIt?
  {
    if e.target !in s.plans then s
    else
      var plan := s.plans[e.target];
      if plan.actorId == e.approver.id || plan.state != APPROVAL_REQUIRED || plan.approvalId == None
         || !c.screen.Safe(e.reason, 512) then s
      else
        var (requests, ok) := Store.Next(c.screen, s.requests,
          Store.Decide(plan.approvalId.value, Approvals.Ruling(true, e.approver.name, e.approver.role, e.reason)),
          ctx.now, e.refreshSaves, e.decisionSaves);
        var after := s.(requests := requests);
        if ok then Put(after, Transition(c.screen, plan, State.APPROVED, Changes(None, Some(ctx.text))), ctx.saves)
          else after
  }

  function AttachStep(c: Config, s: Service, e: Event, ctx: Context): Service
    requires e.AttachBackup?
  {
    if e.target !in s.plans || s.plans[e.target].state != State.APPROVED then s
    else if c.backups && (e.backup !in e.records || !B.IsVerified(e.records[e.backup])) then s
    else if !c.screen.Safe(e.backup, 512) then s
    else Put(s, Transition(c.screen, s.plans[e.target], State.READY, Changes(Some(e.backup), None)), ctx.saves)
  }

  function Step(c: Config, s: Service, e: Event, ctx: Context): Service {
    match e
    case PlanIt(_, _, _, _, _) => PlanStep(c, s, e, ctx)
    case ApproveIt(_, _, _, _, _) => ApproveStep(c, s, e, ctx)
    case AttachBackup(_, _, _) => AttachStep(c, s, e, ctx)
    case ExecuteIt(target) =>
      if target !in s.plans then s
      else Put(s, Blocked(c, s.plans[target]), ctx.saves)
    case Elsewhere(event, refreshSaves, eventSaves) =>
      s.(requests := Store.Next(c.screen, s.requests, event, ctx.now, refreshSaves, eventSaves).0)
  }

  // ----- lockstep -----

  /** The payload as it was when the approval was requested. */
  function Rewound(p: Plan): Payload {
    p.manifest.payload.(status := ManifestStatus(InitialState(p.decision)), backupId := None, approvedAt := None)
  }

  /** The linked request was created for this plan and stores the hash of the rewound manifest. */
  predicate Linked(x: Screen, p: Plan, r: Approvals.Request) {
    && r.actor == x.redact(p.actor) && r.snapshot.planId == Some(p.planId)
    && r.snapshot.operationHash == Some(Sealed(Rewound(p)).operationHash)
    && r.snapshot.planHash == Some(Sealed(Rewound(p)).planHash)
  }

  /** The request carries the seal of an approval by somebody other than its actor. */
  predicate WasApproved(r: Approvals.Request) {
    && r.approvalHash.Some? && r.approvalHash.value.Digest? && r.approvalHash.value.of.ApprovalRecord?
    && (var seal := r.approvalHash.value.of.seal;
        && seal.status == ApprovalStatus.APPROVED && seal.id == r.id && seal.actor == r.actor
        && seal.decidedBy.Some? && seal.decidedBy.value != r.actor
        && seal.snapshot.operationHash == r.snapshot.operationHash)
  }

  ghost predicate LinkedAt(x: Screen, p: Plan, requests: Store.Requests, i: int) {
    && 0 <= i < |requests| && p.approvalId == Some(requests[i].id) && Linked(x, p, requests[i])
    && (p.state in {State.APPROVED, State.READY} ==> WasApproved(requests[i]))
  }

  ghost predicate LinkHolds(x: Screen, p: Plan, requests: Store.Requests) {
    p.approvalId.Some? ==> exists i :: LinkedAt(x, p, requests, i)
  }

  /** The plan and its manifest agree. */
  predicate ManifestHolds(p: Plan) {
    && p.manifest == Sealed(p.manifest.payload)
    && p.manifest.payload.status == ManifestStatus(p.state)
    && p.manifest.executionHash == Empty
    && p.manifest.payload.operationId == p.planId && p.manifest.payload.backupId == p.backupId
    && p.state in {State.PLANNED, APPROVAL_REQUIRED, State.APPROVED, State.READY, BLOCKED_BY_DEFAULT, State.REJECTED}
    && (p.decision == Policy.APPROVAL_REQUIRED <==> p.approvalId.Some?)
    && (p.state in {State.APPROVED, State.READY, APPROVAL_REQUIRED} ==> p.approvalId.Some?)
    && (p.state == APPROVAL_REQUIRED ==> p.backupId == None)
  }

  ghost predicate PlanHolds(x: Screen, id: string, p: Plan, requests: Store.Requests) {
    p.planId == id && ManifestHolds(p) && LinkHolds(x, p, requests)
  }

  ghost predicate Lockstep(x: Screen, s: Service) {
    && Store.StoreSound(s.requests) && Store.DistinctIds(s.requests)
    && forall id | id in s.plans :: PlanHolds(x, id, s.plans[id], s.requests)
  }

  // ----- what keeps the lockstep -----

  /** A sealed approval survives everything a request may become. */
  lemma ApprovalSurvives(a: Approvals.Request, b: Approvals.Request)
    requires Store.SoundRequest(a) && Store.Evolves(a, b) && WasApproved(a)
    ensures WasApproved(b)
  {
  }

  lemma LinkSurvives(x: Screen, p: Plan, before: Store.Requests, after: Store.Requests)
    requires Store.StoreSound(before) && Store.StoreEvolves(before, after) && LinkHolds(x, p, before)
    ensures LinkHolds(x, p, after)
  {
    if p.approvalId.Some? {
      var i :| LinkedAt(x, p, before, i);
      assert Store.Evolves(before[i], after[i]) && Store.SoundRequest(before[i]);
      if WasApproved(before[i]) {
        ApprovalSurvives(before[i], after[i]);
      }
      assert LinkedAt(x, p, after, i);
    }
  }

  /** Ids handed to new requests and new plans are unused. */
  predicate UnusedIds(s: Service, e: Event) {
    match e
    case PlanIt(_, _, planId, requestId, _) => planId !in s.plans && Store.Find(s.requests, requestId) == |s.requests|
    case Elsewhere(event, _, _) => event.Create? ==> Store.Find(s.requests, event.id) == |s.requests|
    case _ => true
  }

  lemma GrownDistinct(before: Store.Requests, after: Store.Requests)
    requires Store.DistinctIds(before) && |before| <= |after| <= |before| + 1
    requires forall i | 0 <= i < |before| :: after[i].id == before[i].id
    requires |after| > |before| ==> Store.Find(before, after[|before|].id) == |before|
    ensures Store.DistinctIds(after)
  {
    forall i, j | 0 <= i < j < |after| ensures after[i].id != after[j].id {
      assert after[i].id == before[i].id;
      if j < |before| {
        assert after[j].id == before[j].id;
      } else {
        assert j == |before| && before[i].id != after[j].id;
      }
    }
  }

  lemma NextDistinct(x: Screen, rs: Store.Requests, e: Store.Event, now: int, refreshSaves: bool, saves: bool)
    requires Store.StoreSound(rs) && Store.DistinctIds(rs) && (e.Create? ==> Store.Find(rs, e.id) == |rs|)
    ensures Store.DistinctIds(Store.Next(x, rs, e, now, refreshSaves, saves).0)
  {
    Store.NextIds(x, rs, Store.Call(e, now, refreshSaves, saves));
    GrownDistinct(rs, Store.Next(x, rs, e, now, refreshSaves, saves).0);
  }

  /** A change of the requests alone keeps every plan in lockstep. */
  lemma RequestsMove(x: Screen, s: Service, after: Store.Requests)
    requires Lockstep(x, s) && Store.StoreSound(after) && Store.DistinctIds(after)
    requires Store.StoreEvolves(s.requests, after)
    ensures Lockstep(x, s.(requests := after))
  {
    forall id | id in s.plans ensures PlanHolds(x, id, s.plans[id], after) {
      assert PlanHolds(x, id, s.plans[id], s.requests);
      LinkSurvives(x, s.plans[id], s.requests, after);
    }
  }

  lemma PlanStored(x: Screen, s: Service, p: Plan)
    requires Lockstep(x, s) && PlanHolds(x, p.planId, p, s.requests)
    ensures Lockstep(x, s.(plans := s.plans[p.planId := p]))
  {
    var n := s.(plans := s.plans[p.planId := p]);
    forall id | id in n.plans ensures PlanHolds(x, id, n.plans[id], n.requests) {
      if id != p.planId {
        assert PlanHolds(x, id, s.plans[id], s.requests);
      }
    }
  }

  /** The plan after an accepted transition. */
  function Advanced(p: Plan, s: State, ch: Changes): Plan {
    p.(state := s, manifest := Sealed(Changed(p.manifest.payload, ManifestStatus(s), ch)),
       backupId := if ch.backupId.Some? then ch.backupId else p.backupId)
  }

  lemma TransitionIs(x: Screen, p: Plan, s: State, ch: Changes)
    requires Transition(x, p, s, ch).Some?
    ensures Transition(x, p, s, ch).value == Advanced(p, s, ch)
  {
  }

  lemma AdvancedHolds(p: Plan, s: State, ch: Changes)
    requires ManifestHolds(p) && s in {State.APPROVED, State.READY, BLOCKED_BY_DEFAULT}
    requires s in {State.APPROVED, State.READY} ==> p.approvalId.Some?
    ensures var n := Advanced(p, s, ch); ManifestHolds(n) && Rewound(n) == Rewound(p)
  {
  }

  /** A status change keeps the manifest in step and the rewound payload as it was. */
  lemma TransitionHolds(x: Screen, p: Plan, s: State, ch: Changes)
    requires ManifestHolds(p) && Transition(x, p, s, ch).Some?
    requires s in {State.APPROVED, State.READY, BLOCKED_BY_DEFAULT}
    requires s in {State.APPROVED, State.READY} ==> p.approvalId.Some?
    ensures var n := Transition(x, p, s, ch).value;
      ManifestHolds(n) && Rewound(n) == Rewound(p) && n.approvalId == p.approvalId && n.planId == p.planId
      && n.actor == p.actor && n.state == s
  {
    TransitionIs(x, p, s, ch);
    AdvancedHolds(p, s, ch);
  }

  lemma PayloadStart(c: Config, user: User, ask: Ask, planId: string, d: Policy.PolicyDecision, at: string)
    ensures var p := PayloadOf(c, user, ask, planId, d, at);
      p.operationId == planId && p.status == ManifestStatus(InitialState(d.decision)) && p.backupId == None
        && p.approvedAt == None
  {
  }

  lemma NewPlanHolds(p: Plan, payload: Payload)
    requires p.manifest == Sealed(payload) && payload.operationId == p.planId
    requires payload.status == ManifestStatus(p.state) && p.state == InitialState(p.decision)
    requires payload.backupId == None && p.backupId == None && payload.approvedAt == None
    requires p.decision == Policy.APPROVAL_REQUIRED <==> p.approvalId.Some?
    ensures ManifestHolds(p) && Rewound(p) == payload
  {
  }

  lemma NewRequestLinked(c: Config, e: Event, ctx: Context, d: Policy.PolicyDecision, m: Manifest,
      r: Approvals.Request, p: Plan)
    requires e.PlanIt? && m == Sealed(m.payload) && Valid(c.screen, m.payload)
    requires m.payload.operationId == e.planId == p.planId
    requires Approvals.Built(c.screen, DraftOf(c, e.user, e.ask, m, d), e.requestId, "", false, ctx.now) == Some(r)
    requires p.actor == e.user.name && Rewound(p) == m.payload
    ensures Linked(c.screen, p, r) && r.id == e.requestId
  {
    assert m.payload.operationId != "" by {
      assert c.screen.Safe(m.payload.operationId, 512);
    }
  }

  lemma UnrequestedPlan(c: Config, s: Service, p: Plan, payload: Payload, saves: bool)
    requires Lockstep(c.screen, s) && p.manifest == Sealed(payload) && payload.operationId == p.planId
    requires payload.status == ManifestStatus(p.state) && p.state == InitialState(p.decision)
    requires payload.backupId == None && p.backupId == None && payload.approvedAt == None
    requires p.decision != Policy.APPROVAL_REQUIRED && p.approvalId == None
    ensures Lockstep(c.screen, Put(s, Some(p), saves))
  {
    NewPlanHolds(p, payload);
    assert PlanHolds(c.screen, p.planId, p, s.requests);
    if saves {
      PlanStored(c.screen, s, p);
    }
  }

  lemma PlanStepKeeps(c: Config, s: Service, e: Event, ctx: Context)
    requires e.PlanIt? && Lockstep(c.screen, s) && UnusedIds(s, e)
    ensures Lockstep(c.screen, PlanStep(c, s, e, ctx))
  {
    var assessed := Assess(c, e.ask.action, e.ask.commandId);
    if AskSafe(c, e.ask) && assessed.Some? {
      var d := assessed.value;
      var created := Create(c.screen, PayloadOf(c, e.user, e.ask, e.planId, d, ctx.text));
      if created.Some? {
        var m := created.value;
        PlannedKeeps(c, s, e, ctx, d, m);
      }
    }
  }

  lemma PlannedKeeps(c: Config, s: Service, e: Event, ctx: Context, d: Policy.PolicyDecision, m: Manifest)
    requires e.PlanIt? && Lockstep(c.screen, s) && UnusedIds(s, e)
    requires Create(c.screen, PayloadOf(c, e.user, e.ask, e.planId, d, ctx.text)) == Some(m)
    ensures Lockstep(c.screen, Planned(c, s, e, ctx, d, m))
  {
    PayloadStart(c, e.user, e.ask, e.planId, d, ctx.text);
    if d.decision == Policy.APPROVAL_REQUIRED {
      var p := NewPlan(c, e.user, e.ask, e.planId, d, m, Some(e.requestId));
      NewPlanHolds(p, m.payload);
      RequestedPlan(c, s, e, ctx, d, m, p);
    } else {
      var p := NewPlan(c, e.user, e.ask, e.planId, d, m, None);
      UnrequestedPlan(c, s, p, m.payload, ctx.saves);
    }
  }

  lemma RequestedPlan(c: Config, s: Service, e: Event, ctx: Context, d: Policy.PolicyDecision, m: Manifest, p: Plan)
    requires e.PlanIt? && Lockstep(c.screen, s) && UnusedIds(s, e)
    requires Create(c.screen, PayloadOf(c, e.user, e.ask, e.planId, d, ctx.text)) == Some(m)
    requires p.planId == e.planId && p.approvalId == Some(e.requestId) && p.actor == e.user.name
    requires p.state == APPROVAL_REQUIRED
    requires ManifestHolds(p) && Rewound(p) == m.payload
    ensures var (requests, ok) := Store.Next(c.screen, s.requests,
        Store.Create(DraftOf(c, e.user, e.ask, m, d), e.requestId, "", false), ctx.now, true, e.approvalSaves);
      Lockstep(c.screen, s.(requests := requests))
      && (ok ==> Lockstep(c.screen, Put(s.(requests := requests), Some(p), ctx.saves)))
  {
    var creation := Store.Create(DraftOf(c, e.user, e.ask, m, d), e.requestId, "", false);
    var requests := Store.Next(c.screen, s.requests, creation, ctx.now, true, e.approvalSaves).0;
    Store.NextKeeps(c.screen, s.requests, creation, ctx.now, true, e.approvalSaves);
    NextDistinct(c.screen, s.requests, creation, ctx.now, true, e.approvalSaves);
    RequestsMove(c.screen, s, requests);
    if Store.Next(c.screen, s.requests, creation, ctx.now, true, e.approvalSaves).1 {
      NewRequestLinked(c, e, ctx, d, m, requests[|s.requests|], p);
      assert LinkedAt(c.screen, p, requests, |s.requests|);
      if ctx.saves { PlanStored(c.screen, s.(requests := requests), p); }
    }
  }

  /** A successful decision leaves the linked request with the seal of that approval. */
  lemma DecisionSeals(x: Screen, rs: Store.Requests, id: string, ruling: Approvals.Ruling, now: int,
      refreshSaves: bool, saves: bool, i: int)
    requires Store.DistinctIds(rs) && ruling.approve && 0 <= i < |rs| && rs[i].id == id
    requires Store.Next(x, rs, Store.Decide(id, ruling), now, refreshSaves, saves).1
    ensures var after := Store.Next(x, rs, Store.Decide(id, ruling), now, refreshSaves, saves).0;
      i < |after| && WasApproved(after[i])
  {
    var swept := Store.Swept(rs, now, refreshSaves).0;
    assert swept[i].id == id by { assert swept[i] == rs[i] || swept[i] == Approvals.Expire(rs[i], now); }
    var j := Store.Find(swept, id);
    assert j <= i;
    assert swept[j].id == rs[j].id by { assert swept[j] == rs[j] || swept[j] == Approvals.Expire(rs[j], now); }
    assert j == i;
  }

  lemma ApproveStepKeeps(c: Config, s: Service, e: Event, ctx: Context)
    requires e.ApproveIt? && Lockstep(c.screen, s)
    ensures Lockstep(c.screen, ApproveStep(c, s, e, ctx))
  {
    if e.target in s.plans {
      var plan := s.plans[e.target];
      assert PlanHolds(c.screen, e.target, plan, s.requests);
      if plan.state == APPROVAL_REQUIRED && ApproveStep(c, s, e, ctx) != s {
        var ruling := Approvals.Ruling(true, e.approver.name, e.approver.role, e.reason);
        var decision := Store.Decide(plan.approvalId.value, ruling);
        var (requests, ok) := Store.Next(c.screen, s.requests, decision, ctx.now, e.refreshSaves, e.decisionSaves);
        Store.NextKeeps(c.screen, s.requests, decision, ctx.now, e.refreshSaves, e.decisionSaves);
        NextDistinct(c.screen, s.requests, decision, ctx.now, e.refreshSaves, e.decisionSaves);
        RequestsMove(c.screen, s, requests);
        var moved := Transition(c.screen, plan, State.APPROVED, Changes(None, Some(ctx.text)));
        if ok && moved.Some? && ctx.saves {
          ApprovedPlan(c, s, plan, moved.value, requests, decision, e, ctx);
          PlanStored(c.screen, s.(requests := requests), moved.value);
        }
      }
    }
  }

  lemma ApprovedPlan(c: Config, s: Service, plan: Plan, moved: Plan, requests: Store.Requests, decision: Store.Event,
      e: Event, ctx: Context)
    requires e.ApproveIt? && Store.StoreSound(s.requests) && Store.DistinctIds(s.requests)
    requires ManifestHolds(plan) && LinkHolds(c.screen, plan, s.requests) && plan.approvalId.Some?
    requires decision == Store.Decide(plan.approvalId.value,
      Approvals.Ruling(true, e.approver.name, e.approver.role, e.reason))
    requires Store.Next(c.screen, s.requests, decision, ctx.now, e.refreshSaves, e.decisionSaves) == (requests, true)
    requires Transition(c.screen, plan, State.APPROVED, Changes(None, Some(ctx.text))) == Some(moved)
    ensures PlanHolds(c.screen, plan.planId, moved, requests)
  {
    TransitionHolds(c.screen, plan, State.APPROVED, Changes(None, Some(ctx.text)));
    var i :| LinkedAt(c.screen, plan, s.requests, i);
    Store.NextKeeps(c.screen, s.requests, decision, ctx.now, e.refreshSaves, e.decisionSaves);
    DecisionSeals(c.screen, s.requests, plan.approvalId.value, decision.ruling, ctx.now, e.refreshSaves,
      e.decisionSaves, i);
    assert Store.Evolves(s.requests[i], requests[i]);
    assert LinkedAt(c.screen, moved, requests, i);
  }

  lemma MovedPlan(c: Config, s: Service, id: string, to: State, ch: Changes, reason: string, saves: bool)
    requires Lockstep(c.screen, s) && id in s.plans
    requires to == BLOCKED_BY_DEFAULT || (to == State.READY && s.plans[id].state == State.APPROVED)
    requires Transition(c.screen, s.plans[id], to, ch).Some?
    ensures Lockstep(c.screen, Put(s, Some(Transition(c.screen, s.plans[id], to, ch).value.(reason := reason)), saves))
  {
    var plan := s.plans[id];
    assert PlanHolds(c.screen, id, plan, s.requests);
    var moved := Transition(c.screen, plan, to, ch).value.(reason := reason);
    if saves {
      TransitionHolds(c.screen, plan, to, ch);
      if plan.approvalId.Some? {
        var i :| LinkedAt(c.screen, plan, s.requests, i);
        assert LinkedAt(c.screen, moved, s.requests, i);
      }
      PlanStored(c.screen, s, moved);
    }
  }

  lemma AttachStepKeeps(c: Config, s: Service, e: Event, ctx: Context)
    requires e.AttachBackup? && Lockstep(c.screen, s)
    ensures Lockstep(c.screen, AttachStep(c, s, e, ctx))
  {
    if e.target in s.plans && s.plans[e.target].state == State.APPROVED {
      var plan, ch := s.plans[e.target], Changes(Some(e.backup), None);
      if Transition(c.screen, plan, State.READY, ch).Some? {
        TransitionIs(c.screen, plan, State.READY, ch);
        MovedPlan(c, s, e.target, State.READY, ch, plan.reason, ctx.saves);
      }
    }
  }

  lemma ElsewhereKeeps(c: Config, s: Service, event: Store.Event, refreshSaves: bool, eventSaves: bool, now: int)
    requires Lockstep(c.screen, s) && (event.Create? ==> Store.Find(s.requests, event.id) == |s.requests|)
    ensures Lockstep(c.screen,
      s.(requests := Store.Next(c.screen, s.requests, event, now, refreshSaves, eventSaves).0))
  {
    Store.NextKeeps(c.screen, s.requests, event, now, refreshSaves, eventSaves);
    NextDistinct(c.screen, s.requests, event, now, refreshSaves, eventSaves);
    RequestsMove(c.screen, s, Store.Next(c.screen, s.requests, event, now, refreshSaves, eventSaves).0);
  }

  /** One call of the service, or of anybody else on the approval store, keeps the lockstep. */
  lemma StepKeeps(c: Config, s: Service, e: Event, ctx: Context)
    requires Lockstep(c.screen, s) && UnusedIds(s, e)
    ensures Lockstep(c.screen, Step(c, s, e, ctx))
  {
    match e {
      case PlanIt(_, _, _, _, _) => PlanStepKeeps(c, s, e, ctx);
      case ApproveIt(_, _, _, _, _) => ApproveStepKeeps(c, s, e, ctx);
      case AttachBackup(_, _, _) => AttachStepKeeps(c, s, e, ctx);
      case ExecuteIt(target) =>
        if target in s.plans && Blocked(c, s.plans[target]).Some? {
          MovedPlan(c, s, target, BLOCKED_BY_DEFAULT, Changes(None, None), c.disabled, ctx.saves);
        }
      case Elsewhere(event, refreshSaves, eventSaves) =>
        ElsewhereKeeps(c, s, event, refreshSaves, eventSaves, ctx.now);
    }
  }

  // ----- every run -----

  function Run(c: Config, events: seq<(Event, Context)>): Service {
    if events == [] then Service(map[], [])
    else
      var (e, ctx) := events[|events| - 1];
      Step(c, Run(c, events[..|events| - 1]), e, ctx)
  }

  predicate UnusedIdsThroughout(c: Config, events: seq<(Event, Context)>) {
    events != [] ==>
      UnusedIdsThroughout(c, events[..|events| - 1])
        && UnusedIds(Run(c, events[..|events| - 1]), events[|events| - 1].0)
  }

  lemma {:induction false} RunKeeps(c: Config, events: seq<(Event, Context)>)
    requires UnusedIdsThroughout(c, events)
    ensures Lockstep(c.screen, Run(c, events))
  {
    if events != [] {
      RunKeeps(c, events[..|events| - 1]);
      var (e, ctx) := events[|events| - 1];
      StepKeeps(c, Run(c, events[..|events| - 1]), e, ctx);
    }
  }

  /** Over every run, saves failing anywhere and the approval store used by others too: the manifest
      of every plan mirrors its state with current hashes and no execution hash; a plan waiting on an
      approval points to a request for it that stores the hash of the rewound manifest; and an
      approved or ready plan's request carries an approval by somebody other than its actor. */
  lemma EveryRunIsInLockstep(c: Config, events: seq<(Event, Context)>, id: string)
    requires UnusedIdsThroughout(c, events) && id in Run(c, events).plans
    ensures var s := Run(c, events); var p := s.plans[id];
      && p.manifest == Sealed(p.manifest.payload) && p.manifest.payload.status == ManifestStatus(p.state)
      && p.manifest.executionHash == Empty
      && (p.approvalId.Some? ==> exists i :: (
            && 0 <= i < |s.requests| && s.requests[i].id == p.approvalId.value
            && s.requests[i].snapshot.operationHash == Some(Sealed(Rewound(p)).operationHash)))
      && (p.state in {State.APPROVED, State.READY} ==>
            exists i :: 0 <= i < |s.requests| && p.approvalId == Some(s.requests[i].id) && WasApproved(s.requests[i]))
  {
    RunKeeps(c, events);
    var s := Run(c, events);
    assert PlanHolds(c.screen, id, s.plans[id], s.requests);
    if s.plans[id].approvalId.Some? {
      var i :| LinkedAt(c.screen, s.plans[id], s.requests, i);
    }
  }

  lemma PutElsewhere(s: Service, p: Option<Plan>, saves: bool, id: string)
    requires id in s.plans && (p.Some? ==> p.value.planId != id)
    ensures id in Put(s, p, saves).plans && Put(s, p, saves).plans[id] == s.plans[id]
  {
  }

  lemma TransitionKeepsId(x: Screen, p: Plan, s: State, ch: Changes)
    ensures Transition(x, p, s, ch).Some? ==>
      Transition(x, p, s, ch).value.planId == p.planId && Transition(x, p, s, ch).value.state == s
  {
  }

  /** An approval that changes the plans moves the waiting plan it names. */
  lemma ApprovePlans(c: Config, s: Service, e: Event, ctx: Context)
    requires e.ApproveIt? && ApproveStep(c, s, e, ctx).plans != s.plans
    ensures e.target in s.plans && s.plans[e.target].state == APPROVAL_REQUIRED
    ensures ApproveStep(c, s, e, ctx).plans ==
      Put(s, Transition(c.screen, s.plans[e.target], State.APPROVED, Changes(None, Some(ctx.text))), ctx.saves).plans
  {
  }

  lemma ApproveElsewhere(c: Config, s: Service, e: Event, ctx: Context, id: string)
    requires e.ApproveIt? && id in s.plans && s.plans[id].state != APPROVAL_REQUIRED
    requires forall i | i in s.plans :: s.plans[i].planId == i
    ensures var n := ApproveStep(c, s, e, ctx); id in n.plans && n.plans[id] == s.plans[id]
  {
    if ApproveStep(c, s, e, ctx).plans != s.plans {
      ApprovePlans(c, s, e, ctx);
      TransitionKeepsId(c.screen, s.plans[e.target], State.APPROVED, Changes(None, Some(ctx.text)));
      PutElsewhere(s, Transition(c.screen, s.plans[e.target], State.APPROVED, Changes(None, Some(ctx.text))), ctx.saves,
        id);
    }
  }

  lemma AttachElsewhere(c: Config, s: Service, e: Event, ctx: Context, id: string)
    requires e.AttachBackup? && id in s.plans && s.plans[id].state != State.APPROVED
    requires forall i | i in s.plans :: s.plans[i].planId == i
    ensures var n := AttachStep(c, s, e, ctx); id in n.plans && n.plans[id] == s.plans[id]
  {
    if e.target in s.plans {
      TransitionKeepsId(c.screen, s.plans[e.target], State.READY, Changes(Some(e.backup), None));
    }
  }

  /** BLOCKED_BY_DEFAULT is absorbing: no call moves a plan out of it. */
  lemma BlockedPlansStayBlocked(c: Config, s: Service, e: Event, ctx: Context, id: string)
    requires (forall i | i in s.plans :: s.plans[i].planId == i) && UnusedIds(s, e)
    requires id in s.plans && s.plans[id].state == BLOCKED_BY_DEFAULT
    ensures var n := Step(c, s, e, ctx); id in n.plans && n.plans[id].state == BLOCKED_BY_DEFAULT
  {
    match e {
      case PlanIt(_, _, _, _, _) => NewPlansOnly(c, s, e, ctx, id);
      case ApproveIt(_, _, _, _, _) => ApproveElsewhere(c, s, e, ctx, id);
      case AttachBackup(_, _, _) => AttachElsewhere(c, s, e, ctx, id);
      case ExecuteIt(target) =>
        if target in s.plans {
          TransitionKeepsId(c.screen, s.plans[target], BLOCKED_BY_DEFAULT, Changes(None, None));
        }
      case Elsewhere(_, _, _) =>
    }
  }

  lemma NewPlansOnly(c: Config, s: Service, e: Event, ctx: Context, id: string)
    requires e.PlanIt? && id in s.plans && e.planId !in s.plans
    ensures var n := PlanStep(c, s, e, ctx); id in n.plans && n.plans[id] == s.plans[id]
  {
    var assessed := Assess(c, e.ask.action, e.ask.commandId);
    if AskSafe(c, e.ask) && assessed.Some? {
      var created := Create(c.screen, PayloadOf(c, e.user, e.ask, e.planId, assessed.value, ctx.text));
      if created.Some? {
        PlannedElsewhere(c, s, e, ctx, assessed.value, created.value, id);
      }
    }
  }

  lemma PlannedElsewhere(c: Config, s: Service, e: Event, ctx: Context, d: Policy.PolicyDecision, m: Manifest,
      id: string)
    requires e.PlanIt? && id in s.plans && e.planId !in s.plans
    ensures var n := Planned(c, s, e, ctx, d, m); id in n.plans && n.plans[id] == s.plans[id]
  {
  }
}
