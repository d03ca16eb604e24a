/** The saved form of operation plans and what a new process reads back. */
module OperationRecords {
  import opened Texts
  import opened Digests
  import opened Manifest
  import opened Operations
  import Store = ApprovalStore
  import Policy

  /** One saved plan; two enumerations and the manifest have stored forms of their own, and what the
      body holds in their place is not read. */
  datatype Record = Record(body: Plan, risk: EnumText<Risk>, state: EnumText<State>, manifest: Document)

  /** `_encode_plan` */
  function Encode(p: Plan): Record {
    Record(p, Known(p.risk), Known(p.state), AsDict(p.manifest))
  }

  /** The texts that planning checks, here or through the manifest. */
  predicate CheckedSafe(x: Screen, p: Plan) {
    && x.Safe(p.planId, 512) && x.Safe(p.actor, 512) && x.Safe(p.project, 512) && x.Safe(p.action, 512)
    && x.Safe(p.resource, 512) && x.Safe(p.policyVersion, 512) && x.Safe(p.createdAt, 512)
    && (p.backupId.Some? ==> x.Safe(p.backupId.value, 512))
  }

  /** The texts that a plan takes over unchecked. */
  predicate UncheckedSafe(x: Screen, p: Plan) {
    && x.Safe(p.actorId, 512) && x.Safe(p.role, 512) && x.Safe(p.reason, 512)
    && (p.approvalId.Some? ==> x.Safe(p.approvalId.value, 512))
    && (forall t | t in p.permissions :: x.Safe(t, 512)) && (forall t | t in p.steps :: x.Safe(t, 512))
  }

  /** The loader checks both kinds and decodes the two enumerations. */
  function Rebuilt(x: Screen, r: Record, m: Option<Manifest>): Option<Plan> {
    if r.risk.Unknown? || r.state.Unknown? || !CheckedSafe(x, r.body) || !UncheckedSafe(x, r.body) || m == None
      then None
    else Some(r.body.(risk := r.risk.value, state := r.state.value, manifest := m.value))
  }

  /** `_decode_plan` */
  function Decode(x: Screen, r: Record): Option<Plan> {
    Rebuilt(x, r, FromDict(x, r.manifest))
  }

  function DecodeAll(x: Screen, records: seq<Record>): seq<Option<Plan>> {
    seq(|records|, i requires 0 <= i < |records| => Decode(x, records[i]))
  }

  /** Every record decodes and no plan id repeats. */
  function Gathered(decoded: seq<Option<Plan>>): Option<map<string, Plan>> {
    if decoded == [] then Some(map[])
    else
      match (Gathered(decoded[..|decoded| - 1]), decoded[|decoded| - 1])
      case (Some(older), Some(p)) => if p.planId in older then None else Some(older[p.planId := p])
      case _ => None
  }

  /** The loader of a new process. */
  function Load(x: Screen, records: seq<Record>): Option<map<string, Plan>> {
    Gathered(DecodeAll(x, records))
  }

  // ----- what planning checks and what it does not -----

  /** The plan repeats its manifest, which is sealed and valid; its other checked texts are safe. */
  predicate Documented(x: Screen, p: Plan) {
    var m := p.manifest.payload;
    && p.manifest == Sealed(m) && Valid(x, m) && Normal(m.riskLevel)
    && m.operationId == p.planId && m.requestedBy == p.actor && m.requestedAction == p.action
    && m.project == p.project && m.resource == p.resource && m.createdAt == p.createdAt
    && x.Safe(p.policyVersion, 512) && (p.backupId.Some? ==> x.Safe(p.backupId.value, 512))
  }

  ghost predicate AllDocumented(x: Screen, plans: map<string, Plan>) {
    forall id | id in plans :: plans[id].planId == id && Documented(x, plans[id])
  }

  lemma DocumentedTexts(x: Screen, p: Plan)
    requires Documented(x, p)
    ensures CheckedSafe(x, p)
  {
    var m := p.manifest.payload;
    assert m.operationId in [m.operationId, m.project, m.server, m.environment, m.resource, m.requestedBy,
      m.requestedAction, m.agent, m.riskLevel, m.createdAt, m.dataRisk];
  }

  lemma ManifestReread(x: Screen, p: Plan)
    requires Documented(x, p)
    ensures FromDict(x, AsDict(p.manifest)) == Some(p.manifest)
  {
    SealedManifestsRoundTrip(x, p.manifest.payload);
  }

  lemma RebuiltExactly(x: Screen, p: Plan)
    requires CheckedSafe(x, p)
    ensures Rebuilt(x, Encode(p), Some(p.manifest)) == if UncheckedSafe(x, p) then Some(p) else None
  {
  }

  /** A documented plan is read back unchanged if and only if its unchecked texts are safe. */
  lemma RecordReadableExactly(x: Screen, p: Plan)
    requires Documented(x, p)
    ensures Decode(x, Encode(p)) == if UncheckedSafe(x, p) then Some(p) else None
  {
    ManifestReread(x, p);
    DocumentedTexts(x, p);
    RebuiltExactly(x, p);
  }

  // ----- every run -----

  lemma PutDocumented(x: Screen, s: Service, p: Option<Plan>, saves: bool)
    requires AllDocumented(x, s.plans) && (p.Some? ==> Documented(x, p.value))
    ensures AllDocumented(x, Put(s, p, saves).plans)
  {
  }

  lemma NewPlanDocumented(c: Config, e: Event, ctx: Context, d: Policy.PolicyDecision, m: Manifest,
      link: Option<string>)
    requires e.PlanIt? && AskSafe(c, e.ask)
    requires Create(c.screen, PayloadOf(c, e.user, e.ask, e.planId, d, ctx.text)) == Some(m)
    ensures Documented(c.screen, NewPlan(c, e.user, e.ask, e.planId, d, m, link))
  {
    assert c.policyVersion in [e.ask.project, e.ask.action, e.ask.resource, c.policyVersion, e.ask.server,
      e.ask.environment, e.ask.dataRisk];
  }

  lemma AddDocumented(c: Config, s: Service, e: Event, ctx: Context, d: Policy.PolicyDecision, m: Manifest,
      link: Option<string>)
    requires e.PlanIt? && AskSafe(c, e.ask) && AllDocumented(c.screen, s.plans)
    requires Create(c.screen, PayloadOf(c, e.user, e.ask, e.planId, d, ctx.text)) == Some(m)
    ensures AllDocumented(c.screen, s.plans[e.planId := NewPlan(c, e.user, e.ask, e.planId, d, m, link)])
  {
    NewPlanDocumented(c, e, ctx, d, m, link);
  }

  lemma TransitionDocumented(x: Screen, p: Plan, to: State, ch: Changes, reason: string)
    requires Documented(x, p) && Transition(x, p, to, ch).Some?
    requires ch.backupId.Some? ==> x.Safe(ch.backupId.value, 512)
    ensures Documented(x, Transition(x, p, to, ch).value.(reason := reason))
  {
  }

  /** Planning stores nothing, or the new plan with or without a link. */
  lemma PlannedPlans(c: Config, s: Service, e: Event, ctx: Context, d: Policy.PolicyDecision, m: Manifest)
    requires e.PlanIt?
    ensures var n := Planned(c, s, e, ctx, d, m).plans;
      || n == s.plans
      || n == s.plans[e.planId := NewPlan(c, e.user, e.ask, e.planId, d, m, None)]
      || n == s.plans[e.planId := NewPlan(c, e.user, e.ask, e.planId, d, m, Some(e.requestId))]
  {
  }

  /** Planning that changes the plans stores the new plan over an accepted manifest. */
  lemma PlanStepPlans(c: Config, s: Service, e: Event, ctx: Context) returns (d: Policy.PolicyDecision, m: Manifest)
    requires e.PlanIt? && PlanStep(c, s, e, ctx).plans != s.plans
    ensures AskSafe(c, e.ask) && Create(c.screen, PayloadOf(c, e.user, e.ask, e.planId, d, ctx.text)) == Some(m)
    ensures PlanStep(c, s, e, ctx).plans in {
      s.plans[e.planId := NewPlan(c, e.user, e.ask, e.planId, d, m, None)],
      s.plans[e.planId := NewPlan(c, e.user, e.ask, e.planId, d, m, Some(e.requestId))]}
  {
    d := Assess(c, e.ask.action, e.ask.commandId).value;
    m := Create(c.screen, PayloadOf(c, e.user, e.ask, e.planId, d, ctx.text)).value;
    PlannedPlans(c, s, e, ctx, d, m);
  }

  lemma PlanStepDocumented(c: Config, s: Service, e: Event, ctx: Context)
    requires e.PlanIt? && AllDocumented(c.screen, s.plans)
    ensures AllDocumented(c.screen, PlanStep(c, s, e, ctx).plans)
  {
    if PlanStep(c, s, e, ctx).plans != s.plans {
      var d, m := PlanStepPlans(c, s, e, ctx);
      AddDocumented(c, s, e, ctx, d, m, None);
      AddDocumented(c, s, e, ctx, d, m, Some(e.requestId));
    }
  }

  lemma MoveDocumented(c: Config, s: Service, id: string, to: State, ch: Changes, saves: bool)
    requires AllDocumented(c.screen, s.plans) && id in s.plans
    requires ch.backupId.Some? ==> c.screen.Safe(ch.backupId.value, 512)
    ensures AllDocumented(c.screen, Put(s, Transition(c.screen, s.plans[id], to, ch), saves).plans)
  {
    var moved := Transition(c.screen, s.plans[id], to, ch);
    if moved.Some? {
      TransitionDocumented(c.screen, s.plans[id], to, ch, moved.value.reason);
      assert moved.value.(reason := moved.value.reason) == moved.value;
    }
    PutDocumented(c.screen, s, moved, saves);
  }

  lemma ApproveDocumented(c: Config, s: Service, e: Event, ctx: Context)
    requires e.ApproveIt? && AllDocumented(c.screen, s.plans)
    ensures AllDocumented(c.screen, ApproveStep(c, s, e, ctx).plans)
  {
    if ApproveStep(c, s, e, ctx).plans != s.plans {
      ApprovePlans(c, s, e, ctx);
      MoveDocumented(c, s, e.target, State.APPROVED, Changes(None, Some(ctx.text)), ctx.saves);
    }
  }

  lemma AttachDocumented(c: Config, s: Service, e: Event, ctx: Context)
    requires e.AttachBackup? && AllDocumented(c.screen, s.plans)
    ensures AllDocumented(c.screen, AttachStep(c, s, e, ctx).plans)
  {
    if AttachStep(c, s, e, ctx).plans != s.plans {
      AttachPlans(c, s, e, ctx);
      MoveDocumented(c, s, e.target, State.READY, Changes(Some(e.backup), None), ctx.saves);
    }
  }

  lemma AttachPlans(c: Config, s: Service, e: Event, ctx: Context)
    requires e.AttachBackup? && AttachStep(c, s, e, ctx).plans != s.plans
    ensures e.target in s.plans && c.screen.Safe(e.backup, 512)
    ensures AttachStep(c, s, e, ctx).plans ==
      Put(s, Transition(c.screen, s.plans[e.target], State.READY, Changes(Some(e.backup), None)), ctx.saves).plans
  {
  }

  lemma BlockDocumented(c: Config, s: Service, target: string, saves: bool)
    requires AllDocumented(c.screen, s.plans) && target in s.plans
    ensures AllDocumented(c.screen, Put(s, Blocked(c, s.plans[target]), saves).plans)
  {
    if Blocked(c, s.plans[target]).Some? {
      TransitionDocumented(c.screen, s.plans[target], BLOCKED_BY_DEFAULT, Changes(None, None), c.disabled);
    }
    PutDocumented(c.screen, s, Blocked(c, s.plans[target]), saves);
  }

  /** Every call keeps the plans documented. */
  lemma StepDocumented(c: Config, s: Service, e: Event, ctx: Context)
    requires AllDocumented(c.screen, s.plans)
    ensures AllDocumented(c.screen, Step(c, s, e, ctx).plans)
  {
    match e {
      case PlanIt(_, _, _, _, _) => PlanStepDocumented(c, s, e, ctx);
      case ApproveIt(_, _, _, _, _) => ApproveDocumented(c, s, e, ctx);
      case AttachBackup(_, _, _) => AttachDocumented(c, s, e, ctx);
      case ExecuteIt(target) => if target in s.plans { BlockDocumented(c, s, target, ctx.saves); }
      case Elsewhere(_, _, _) =>
    }
  }

  lemma {:induction false} EveryRunIsDocumented(c: Config, events: seq<(Operations.Event, Context)>)
    ensures AllDocumented(c.screen, Run(c, events).plans)
  {
    if events != [] {
      EveryRunIsDocumented(c, events[..|events| - 1]);
      var (e, ctx) := events[|events| - 1];
      StepDocumented(c, Run(c, events[..|events| - 1]), e, ctx);
    }
  }

  // ----- reading back -----

  /** A listing of all plans, each once, in whatever order they were saved. */
  ghost predicate Lists(order: seq<string>, plans: map<string, Plan>) {
    && (forall id | id in order :: id in plans) && (forall id | id in plans :: id in order)
    && (forall i, j | 0 <= i < j < |order| :: order[i] != order[j])
  }

  function EncodeAll(plans: map<string, Plan>, order: seq<string>): seq<Record>
    requires forall id | id in order :: id in plans
  {
    seq(|order|, i requires 0 <= i < |order| => Encode(plans[order[i]]))
  }

  lemma ListedLast(plans: map<string, Plan>, order: seq<string>)
    requires order != [] && order[|order| - 1] in plans && forall i, j | 0 <= i < j < |order| :: order[i] != order[j]
    ensures var n, last := |order| - 1, order[|order| - 1];
      && last !in order[..n] && (forall id :: id in order <==> id in order[..n] || id == last)
      && (map id | id in order[..n] && id in plans :: plans[id])[last := plans[last]]
           == map id | id in order && id in plans :: plans[id]
  {
    var n := |order| - 1;
    assert order == order[..n] + [order[n]];
  }

  /** Distinct ids, of which those in `good` decode. */
  lemma {:induction false} GatheredListed(
      plans: map<string, Plan>, order: seq<string>, decoded: seq<Option<Plan>>, good: set<string>)
    requires |decoded| == |order| && forall i, j | 0 <= i < j < |order| :: order[i] != order[j]
    requires forall i | 0 <= i < |order| :: order[i] in plans && plans[order[i]].planId == order[i]
    requires forall i | 0 <= i < |order| :: decoded[i] == if order[i] in good then Some(plans[order[i]]) else None
    ensures Gathered(decoded) ==
      if forall id | id in order :: id in good then Some(map id | id in order && id in plans :: plans[id]) else None
  {
    if order != [] {
      var n := |order| - 1;
      var last := order[n];
      GatheredListed(plans, order[..n], decoded[..n], good);
      ListedLast(plans, order);
      assert (forall id | id in order :: id in good) <==> (forall id | id in order[..n] :: id in good) && last in good;
    }
  }

  lemma LoadListed(x: Screen, plans: map<string, Plan>, order: seq<string>, good: set<string>)
    requires AllDocumented(x, plans) && Lists(order, plans)
    requires forall id | id in plans :: id in good <==> UncheckedSafe(x, plans[id])
    ensures Load(x, EncodeAll(plans, order)) == if plans.Keys <= good then Some(plans) else None
  {
    var decoded := DecodeAll(x, EncodeAll(plans, order));
    forall i | 0 <= i < |order| ensures decoded[i] == if order[i] in good then Some(plans[order[i]]) else None {
      RecordReadableExactly(x, plans[order[i]]);
    }
    ListedAll(plans, order, decoded, good);
  }

  lemma ListedAll(plans: map<string, Plan>, order: seq<string>, decoded: seq<Option<Plan>>, good: set<string>)
    requires Lists(order, plans) && |decoded| == |order| && forall id | id in plans :: plans[id].planId == id
    requires forall i | 0 <= i < |order| :: decoded[i] == if order[i] in good then Some(plans[order[i]]) else None
    ensures Gathered(decoded) == if plans.Keys <= good then Some(plans) else None
  {
    GatheredListed(plans, order, decoded, good);
    assert (map id | id in order && id in plans :: plans[id]) == plans;
  }

  /** Over every run, with saves that fail anywhere: a new process over the saved plans holds exactly
      those plans if and only if every actor id, role, reason, linked request id, permission and step
      is safe text; otherwise it refuses to start. */
  lemma EveryRunReloadsExactly(c: Config, events: seq<(Operations.Event, Context)>, order: seq<string>)
    requires Lists(order, Run(c, events).plans)
    ensures var plans := Run(c, events).plans;
      Load(c.screen, EncodeAll(plans, order)) ==
        if forall id | id in plans :: UncheckedSafe(c.screen, plans[id]) then Some(plans) else None
  {
    var plans := Run(c, events).plans;
    EveryRunIsDocumented(c, events);
    LoadListed(c.screen, plans, order, set id | id in plans && UncheckedSafe(c.screen, plans[id]));
  }

  /** A user whose id is one space may plan; every plan that is then stored is refused by the loader. */
  lemma BlankUserIdIsSavedButNotReadable(c: Config, s: Service, e: Operations.Event, ctx: Context)
    requires e.PlanIt? && e.user.id == " " && e.planId !in s.plans && AllDocumented(c.screen, s.plans)
    requires e.planId in Step(c, s, e, ctx).plans
    ensures Decode(c.screen, Encode(Step(c, s, e, ctx).plans[e.planId])) == None
  {
    StepDocumented(c, s, e, ctx);
    StoredActor(c, s, e, ctx);
    BlankActorUnreadable(c.screen, Step(c, s, e, ctx).plans[e.planId]);
  }

  lemma BlankActorUnreadable(x: Screen, p: Plan)
    requires Documented(x, p) && p.actorId == " "
    ensures Decode(x, Encode(p)) == None
  {
    assert Blank(" ");
    RecordReadableExactly(x, p);
  }

  lemma StoredActor(c: Config, s: Service, e: Operations.Event, ctx: Context)
    requires e.PlanIt? && e.planId !in s.plans && e.planId in Step(c, s, e, ctx).plans
    ensures Step(c, s, e, ctx).plans[e.planId].actorId == e.user.id
  {
    var d, m := PlanStepPlans(c, s, e, ctx);
  }
}
