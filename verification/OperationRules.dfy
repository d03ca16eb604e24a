/** Which decision an operation gets, what its plan then says, and when each call of the service moves it. */
module OperationRules {
  import opened Texts
  import opened Digests
  import opened Manifest
  import opened Operations
  import Approvals
  import Store = ApprovalStore
  import Policy
  import B = Backups

  /** The decision and the risk of a plan follow from its action and its command: a sensitive action needs
      approval; any other action without a command is denied; with one, a modifying action is denied and
      the class of the command decides the rest. */
  ghost predicate Ruled(c: Config, action: string, commands: seq<string>, decision: Policy.Decision, risk: Risk) {
    && (action in c.sensitive ==> decision == Policy.APPROVAL_REQUIRED && risk == HIGH)
    && (action !in c.sensitive && commands == [] ==> decision == Policy.DENY && risk == MEDIUM)
    && (action !in c.sensitive && commands != [] && action in c.engine.modifying ==>
          decision == Policy.DENY && risk == HIGH)
    && (action !in c.sensitive && commands != [] && action !in c.engine.modifying ==>
          && |commands| == 1 && commands[0] in c.engine.catalog
          && (var kind := c.engine.catalog[commands[0]].kind;
              && (kind == Policy.READ_SAFE ==> decision == Policy.ALLOW && risk == LOW)
              && (kind == Policy.READ_SENSITIVE ==> decision == Policy.APPROVAL_REQUIRED && risk == MEDIUM)
              && (kind == Policy.READ_PRIVILEGED ==> decision == Policy.APPROVAL_REQUIRED && risk == HIGH)
              && (kind == Policy.FORBIDDEN ==> decision == Policy.DENY && risk == CRITICAL)))
  }

  /** A plan that follows the rules, with a manifest that says the same and a link exactly for an approval. */
  ghost predicate RuledPlan(c: Config, p: Plan) {
    var m := p.manifest.payload;
    && Ruled(c, p.action, m.lists.commands, p.decision, p.risk)
    && m.riskLevel == (match p.risk case LOW => "L1" case MEDIUM => "L2" case HIGH => "L3" case CRITICAL => "L4")
    && (m.approvalRequired <==> p.decision != Policy.ALLOW) && (m.backupRequired <==> p.action in c.backedUp)
    && (p.approvalId.Some? <==> p.decision == Policy.APPROVAL_REQUIRED)
    && (p.state == State.PLANNED ==> p.decision == Policy.ALLOW)
    && (p.state == State.REJECTED ==> p.decision == Policy.DENY)
  }

  lemma AssessedRule(c: Config, action: string, commandId: Option<string>)
    requires commandId != Some("")
    ensures Assess(c, action, commandId) == None <==>
      && action !in c.sensitive && commandId.Some? && action !in c.engine.modifying
      && commandId.value !in c.engine.catalog
    ensures Assess(c, action, commandId).Some? ==>
      var d := Assess(c, action, commandId).value;
      Ruled(c, action, if commandId == None then [] else [commandId.value], d.decision, d.risk)
  {
    if commandId.Some? { Policy.EvaluateExactly(c.engine, action, commandId.value); }
  }

  lemma AskedCommand(c: Config, a: Ask)
    requires AskSafe(c, a)
    ensures a.commandId != Some("")
  {
    if a.commandId.Some? {
      assert a.commandId in [a.commandId, a.branch, a.commit];
      assert c.screen.Safe(a.commandId.value, 512);
    }
  }

  // ----- new plans -----

  /** What a new plan takes from its request. */
  predicate TakesOver(c: Config, e: Event, ctx: Context, p: Plan)
    requires e.PlanIt?
  {
    var a, u, m := e.ask, e.user, p.manifest.payload;
    && p.planId == e.planId && p.actorId == u.id && p.actor == u.name && p.role == u.role && p.project == a.project
    && p.action == a.action && p.resource == a.resource && p.backupId == None && p.policyVersion == c.policyVersion
    && p.permissions == u.permissions && p.steps == c.steps(a.action) && p.createdAt == ctx.text
    && m.operationId == e.planId && m.project == a.project && m.server == a.server && m.environment == a.environment
    && m.resource == a.resource && m.requestedBy == u.name && m.requestedAction == a.action
    && m.agent == "control_center" && m.lists.commands == (if a.commandId == None then [] else [a.commandId.value])
    && m.lists.files == a.files && m.lists.servicesAffected == a.services && m.lists.dependencies == a.dependencies
    && m.lists.testsRequired == a.tests && m.backupId == None && m.branch == a.branch && m.commit == a.commit
    && m.rollbackPlan == (if a.action in c.backedUp then c.restorePlan else c.readPlan)
       && m.expectedResult == c.expected
    && m.downtimePossible == a.downtime && m.dataRisk == a.dataRisk && m.createdAt == ctx.text
    && m.approvedAt == None && m.executedAt == None && m.completedAt == None
  }

  /** The request behind a new plan: pending, for this action and command, with the hashes of its manifest. */
  predicate AsksFor(c: Config, e: Event, ctx: Context, p: Plan, r: Approvals.Request)
    requires e.PlanIt?
  {
    var x, s := c.screen, r.snapshot;
    && r.id == e.requestId && p.approvalId == Some(r.id) && r.status == PENDING && r.timestamp == ctx.now
    && r.actor == x.redact(e.user.name) && r.action == x.redact(e.ask.action) && r.risk == p.risk
    && r.commandId == (if e.ask.commandId == None then None else Some(x.redact(e.ask.commandId.value)))
    && s.resource == e.ask.resource && s.policyVersion == c.policyVersion && s.actorRole == e.user.role
    && s.planId == Some(e.planId) && s.operationId == Some(e.planId)
    && s.operationHash == Some(p.manifest.operationHash) && s.planHash == Some(p.manifest.planHash)
    && s.commands == p.manifest.payload.lists.commands && s.files == e.ask.files
    && s.servicesAffected == e.ask.services && s.branch == e.ask.branch && s.commit == e.ask.commit
  }

  lemma NewPlanTakesOver(c: Config, e: Event, ctx: Context, d: Policy.PolicyDecision, m: Manifest, link: Option<string>)
    requires e.PlanIt? && Create(c.screen, PayloadOf(c, e.user, e.ask, e.planId, d, ctx.text)) == Some(m)
    ensures TakesOver(c, e, ctx, NewPlan(c, e.user, e.ask, e.planId, d, m, link))
  {
  }

  lemma NewPlanRuled(c: Config, e: Event, ctx: Context, d: Policy.PolicyDecision, m: Manifest, link: Option<string>)
    requires e.PlanIt? && Create(c.screen, PayloadOf(c, e.user, e.ask, e.planId, d, ctx.text)) == Some(m)
    requires AskSafe(c, e.ask) && Assess(c, e.ask.action, e.ask.commandId) == Some(d)
    requires link.Some? <==> d.decision == Policy.APPROVAL_REQUIRED
    ensures RuledPlan(c, NewPlan(c, e.user, e.ask, e.planId, d, m, link))
  {
    AskedCommand(c, e.ask);
    AssessedRule(c, e.ask.action, e.ask.commandId);
  }

  lemma NewRequest(c: Config, e: Event, ctx: Context, d: Policy.PolicyDecision, m: Manifest, r: Approvals.Request)
    requires e.PlanIt? && Create(c.screen, PayloadOf(c, e.user, e.ask, e.planId, d, ctx.text)) == Some(m)
    requires AskSafe(c, e.ask)
    requires Approvals.Built(c.screen, DraftOf(c, e.user, e.ask, m, d), e.requestId, "", false, ctx.now) == Some(r)
    ensures AsksFor(c, e, ctx, NewPlan(c, e.user, e.ask, e.planId, d, m, Some(e.requestId)), r)
  {
    AskedCommand(c, e.ask);
    Approvals.BuiltContents(c.screen, DraftOf(c, e.user, e.ask, m, d), e.requestId, "", false, ctx.now);
    assert m.payload.operationId == e.planId;
    assert e.planId != "" by { ValidExactly(c.screen, m.payload); }
  }

  lemma StateOfDecision(c: Config, e: Event, d: Policy.PolicyDecision, m: Manifest, link: Option<string>)
    requires e.PlanIt?
    ensures var p := NewPlan(c, e.user, e.ask, e.planId, d, m, link);
      && (p.decision == Policy.ALLOW ==> p.state == State.PLANNED)
      && (p.decision == Policy.APPROVAL_REQUIRED ==> p.state == State.APPROVAL_REQUIRED)
      && (p.decision == Policy.DENY ==> p.state == State.REJECTED)
  {
  }

  /** What a plan that was stored says, and what else the call changed: the plan takes over the request,
      follows the rules and starts in the state of its decision; if it needs approval, one pending request
      with the hashes of its manifest was added to the approval store, and otherwise the store is as it was. */
  lemma PlanExactly(c: Config, s: Service, e: Event, ctx: Context)
    requires e.PlanIt? && e.planId !in s.plans && e.planId in PlanStep(c, s, e, ctx).plans
    ensures var n := PlanStep(c, s, e, ctx); var p := n.plans[e.planId];
      && n.plans == s.plans[e.planId := p] && TakesOver(c, e, ctx, p) && RuledPlan(c, p)
      && (p.state == State.PLANNED <==>
            && e.ask.action !in c.sensitive && e.ask.action !in c.engine.modifying && e.ask.commandId.Some?
            && e.ask.commandId.value in c.engine.catalog
            && c.engine.catalog[e.ask.commandId.value].kind == Policy.READ_SAFE)
      && (p.state == State.REJECTED <==> p.decision == Policy.DENY)
      && (p.state == State.APPROVAL_REQUIRED <==> p.decision == Policy.APPROVAL_REQUIRED)
      && (e.ask.action in c.sensitive ==> p.state == State.APPROVAL_REQUIRED)
      && (e.ask.action !in c.sensitive && e.ask.commandId == None ==> p.state == State.REJECTED)
      && (p.state != State.APPROVAL_REQUIRED ==> n.requests == s.requests)
      && (p.state == State.APPROVAL_REQUIRED ==>
            n.requests != [] && n.requests[..|n.requests| - 1] == s.requests
            && AsksFor(c, e, ctx, p, n.requests[|n.requests| - 1]))
  {
    var d := Assess(c, e.ask.action, e.ask.commandId).value;
    var m := Create(c.screen, PayloadOf(c, e.user, e.ask, e.planId, d, ctx.text)).value;
    AskedCommand(c, e.ask);
    AssessedRule(c, e.ask.action, e.ask.commandId);
    if d.decision == Policy.APPROVAL_REQUIRED {
      var draft := DraftOf(c, e.user, e.ask, m, d);
      Store.CreateExactly(c.screen, s.requests, Store.Create(draft, e.requestId, "", false), ctx.now, true,
        e.approvalSaves);
      NewPlanTakesOver(c, e, ctx, d, m, Some(e.requestId));
      NewPlanRuled(c, e, ctx, d, m, Some(e.requestId));
      StateOfDecision(c, e, d, m, Some(e.requestId));
      NewRequest(c, e, ctx, d, m, Approvals.Built(c.screen, draft, e.requestId, "", false, ctx.now).value);
    } else {
      NewPlanTakesOver(c, e, ctx, d, m, None);
      NewPlanRuled(c, e, ctx, d, m, None);
      StateOfDecision(c, e, d, m, None);
    }
  }

  // ----- when a plan is stored -----

  lemma AskSafeExactly(c: Config, a: Ask)
    ensures AskSafe(c, a) <==>
      && c.screen.Safe(a.project, 512) && c.screen.Safe(a.action, 512) && c.screen.Safe(a.resource, 512)
      && c.screen.Safe(c.policyVersion, 512) && c.screen.Safe(a.server, 512) && c.screen.Safe(a.environment, 512)
      && c.screen.Safe(a.dataRisk, 512)
      && (a.commandId.Some? ==> c.screen.Safe(a.commandId.value, 512))
      && (a.branch.Some? ==> c.screen.Safe(a.branch.value, 512))
      && (a.commit.Some? ==> c.screen.Safe(a.commit.value, 512))
      && (forall t | t in a.files :: c.screen.Safe(t, 512)) && (forall t | t in a.services :: c.screen.Safe(t, 512))
      && (forall t | t in a.dependencies :: c.screen.Safe(t, 512)) && (forall t | t in a.tests :: c.screen.Safe(t, 512))
  {
    SevenSafe(c.screen, [a.project, a.action, a.resource, c.policyVersion, a.server, a.environment, a.dataRisk]);
    ThreeSafe(c.screen, [a.commandId, a.branch, a.commit]);
    FourSafe(c.screen, [a.files, a.services, a.dependencies, a.tests]);
  }

  lemma SevenSafe(x: Screen, ts: seq<string>)
    requires |ts| == 7
    ensures (forall t | t in ts :: x.Safe(t, 512)) <==>
      && x.Safe(ts[0], 512) && x.Safe(ts[1], 512) && x.Safe(ts[2], 512) && x.Safe(ts[3], 512)
      && x.Safe(ts[4], 512) && x.Safe(ts[5], 512) && x.Safe(ts[6], 512)
  {
    assert ts == [ts[0], ts[1], ts[2], ts[3], ts[4], ts[5], ts[6]];
  }

  lemma ThreeSafe(x: Screen, ts: seq<Option<string>>)
    requires |ts| == 3
    ensures (forall t | t in ts && t.Some? :: x.Safe(t.value, 512)) <==>
      && (ts[0].Some? ==> x.Safe(ts[0].value, 512)) && (ts[1].Some? ==> x.Safe(ts[1].value, 512))
      && (ts[2].Some? ==> x.Safe(ts[2].value, 512))
  {
    assert ts == [ts[0], ts[1], ts[2]];
  }

  lemma FourSafe(x: Screen, ls: seq<seq<string>>)
    requires |ls| == 4
    ensures (forall l | l in ls :: forall t | t in l :: x.Safe(t, 512)) <==>
      && (forall t | t in ls[0] :: x.Safe(t, 512)) && (forall t | t in ls[1] :: x.Safe(t, 512))
      && (forall t | t in ls[2] :: x.Safe(t, 512)) && (forall t | t in ls[3] :: x.Safe(t, 512))
  {
    assert ls == [ls[0], ls[1], ls[2], ls[3]];
    assert ls[0] in ls && ls[1] in ls && ls[2] in ls && ls[3] in ls;
  }

  lemma PlainTextSafe(x: Screen, t: string)
    requires t != "" && !Space(t[0]) && |t| <= 512 && ':' !in t && '=' !in t && '-' !in t && !HasControl(t)
    ensures x.Safe(t, 512)
  {
    assert x.Clean(t);
  }

  lemma PolicySafe(x: Screen)
    ensures x.Safe("policy", 512)
  {
    PlainTextSafe(x, "policy");
  }

  lemma ApprovalSafe(x: Screen)
    ensures x.Safe("approval", 512)
  {
    PlainTextSafe(x, "approval");
  }

  lemma AuditSafe(x: Screen)
    ensures x.Safe("audit", 512)
  {
    PlainTextSafe(x, "audit");
  }

  lemma LevelsSafe(x: Screen)
    ensures x.Safe("L1", 512) && x.Safe("L2", 512) && x.Safe("L3", 512) && x.Safe("L4", 512)
  {
    PlainTextSafe(x, "L1");
    PlainTextSafe(x, "L2");
    PlainTextSafe(x, "L3");
    PlainTextSafe(x, "L4");
  }

  lemma AgentSafe(x: Screen)
    ensures x.Safe("control_center", 512)
  {
    PlainTextSafe(x, "control_center");
  }

  lemma LevelIsSafe(x: Screen, r: Risk)
    ensures x.Safe(LevelOf(r), 512)
  {
    LevelsSafe(x);
  }

  lemma RequiredOfPayload(c: Config, e: Event, d: Policy.PolicyDecision, text: string)
    requires e.PlanIt? && AskSafe(c, e.ask)
    ensures var p, x := PayloadOf(c, e.user, e.ask, e.planId, d, text), c.screen;
      && p.operationId == e.planId && p.requestedBy == e.user.name && p.createdAt == text
      && x.Safe(p.project, 512) && x.Safe(p.server, 512) && x.Safe(p.environment, 512) && x.Safe(p.resource, 512)
      && x.Safe(p.requestedAction, 512) && x.Safe(p.agent, 512) && x.Safe(p.riskLevel, 512) && x.Safe(p.dataRisk, 512)
  {
    AskSafeExactly(c, e.ask);
    AgentSafe(c.screen);
    LevelIsSafe(c.screen, d.risk);
  }

  lemma ListsOfPayload(c: Config, e: Event, d: Policy.PolicyDecision, text: string)
    requires e.PlanIt? && AskSafe(c, e.ask)
    ensures var l, x := PayloadOf(c, e.user, e.ask, e.planId, d, text).lists, c.screen;
      && ListSafe(x, l.commands) && ListSafe(x, l.validationSteps)
      && (ListSafe(x, l.files) <==> |e.ask.files| <= 128)
      && (ListSafe(x, l.servicesAffected) <==> |e.ask.services| <= 128)
      && (ListSafe(x, l.dependencies) <==> |e.ask.dependencies| <= 128)
      && (ListSafe(x, l.testsRequired) <==> |e.ask.tests| <= 128)
  {
    AskSafeExactly(c, e.ask);
    PolicySafe(c.screen);
    ApprovalSafe(c.screen);
    AuditSafe(c.screen);
  }

  /** The manifest of an accepted request is refused only for the caller's name, the generated id and time,
      the configured sentences, or a list that is too long. */
  lemma CreateExactly(c: Config, e: Event, d: Policy.PolicyDecision, text: string)
    requires e.PlanIt? && AskSafe(c, e.ask)
    ensures Create(c.screen, PayloadOf(c, e.user, e.ask, e.planId, d, text)).Some? <==>
      && c.screen.Safe(e.planId, 512) && c.screen.Safe(e.user.name, 512) && c.screen.Safe(text, 512)
      && OptionalSafe(c.screen, Some(if e.ask.action in c.backedUp then c.restorePlan else c.readPlan))
      && OptionalSafe(c.screen, Some(c.expected))
      && |e.ask.files| <= 128 && |e.ask.services| <= 128 && |e.ask.dependencies| <= 128 && |e.ask.tests| <= 128
  {
    var p := PayloadOf(c, e.user, e.ask, e.planId, d, text);
    AskSafeExactly(c, e.ask);
    ValidExactly(c.screen, p);
    RequiredOfPayload(c, e, d, text);
    ListsOfPayload(c, e, d, text);
  }

  /** The members of a draft that planning has checked. */
  predicate DraftChecked(x: Screen, d: Approvals.Draft) {
    && x.Safe(d.policyVersion, 512) && x.Safe(d.resource, 512) && d.expiresAt == None
    && d.planId.Some? && x.Safe(d.planId.value, 512)
    && Approvals.SafeOption(x, d.operationId) && Approvals.SafeOption(x, d.branch) && Approvals.SafeOption(x, d.commit)
    && Approvals.SafeOption(x, d.backupId) && Approvals.SafeOption(x, d.approvalHash)
    && Approvals.SafeHash(x, d.operationHash) && Approvals.SafeHash(x, d.planHash)
    && Approvals.SafeHash(x, d.executionHash)
    && Approvals.SafeList(x, d.commands) && Approvals.SafeList(x, d.files) && Approvals.SafeList(x, d.servicesAffected)
    && Approvals.SafeList(x, d.impact)
  }

  lemma DraftIsChecked(c: Config, e: Event, d: Policy.PolicyDecision, m: Manifest, text: string)
    requires e.PlanIt? && AskSafe(c, e.ask)
    requires Create(c.screen, PayloadOf(c, e.user, e.ask, e.planId, d, text)) == Some(m)
    ensures DraftChecked(c.screen, DraftOf(c, e.user, e.ask, m, d))
  {
    AskSafeExactly(c, e.ask);
    CreateExactly(c, e, d, text);
    CreatedPayload(c, e, d, m, text);
    DraftTextsChecked(c, e, d, m);
  }

  lemma CreatedPayload(c: Config, e: Event, d: Policy.PolicyDecision, m: Manifest, text: string)
    requires e.PlanIt? && Create(c.screen, PayloadOf(c, e.user, e.ask, e.planId, d, text)) == Some(m)
    ensures m == Sealed(m.payload) && m.payload == PayloadOf(c, e.user, e.ask, e.planId, d, text)
  {
  }

  lemma DraftTextsChecked(c: Config, e: Event, d: Policy.PolicyDecision, m: Manifest)
    requires e.PlanIt? && m.operationHash.Digest? && m.planHash.Digest?
    requires m.payload.operationId == e.planId && m.payload.backupId == None && c.screen.Safe(e.planId, 512)
    requires m.payload.branch == e.ask.branch && m.payload.commit == e.ask.commit
    requires m.payload.lists.commands == (if e.ask.commandId == None then [] else [e.ask.commandId.value])
    requires m.payload.lists.files == e.ask.files && m.payload.lists.servicesAffected == e.ask.services
    requires c.screen.Safe(c.policyVersion, 512) && c.screen.Safe(e.ask.resource, 512)
    requires Approvals.SafeOption(c.screen, e.ask.branch) && Approvals.SafeOption(c.screen, e.ask.commit)
    requires Approvals.SafeOption(c.screen, e.ask.commandId)
    requires Approvals.SafeList(c.screen, e.ask.files) && Approvals.SafeList(c.screen, e.ask.services)
    ensures DraftChecked(c.screen, DraftOf(c, e.user, e.ask, m, d))
  {
  }

  /** The role and the permissions of a user are ones that the approval store accepts. */
  predicate MayAsk(c: Config, u: User) {
    var normal := set v | v in u.permissions && !Blank(v) :: Strip(v);
    && c.screen.Safe(u.role, 512) && |normal| == |u.permissions| && (forall p | p in normal :: c.screen.Safe(p, 512))
    && (c.policyVersion == "legacy" || normal != {})
  }

  /** The approval request of an accepted plan is refused only for the role or the permissions of the caller. */
  lemma RequestAcceptedExactly(c: Config, e: Event, d: Policy.PolicyDecision, m: Manifest, now: int)
    requires e.PlanIt? && DraftChecked(c.screen, DraftOf(c, e.user, e.ask, m, d))
    ensures Approvals.Built(c.screen, DraftOf(c, e.user, e.ask, m, d), e.requestId, "", false, now).Some? <==>
      MayAsk(c, e.user)
  {
    Approvals.BuiltExactly(c.screen, DraftOf(c, e.user, e.ask, m, d), e.requestId, "", false, now);
  }

  /** When a plan is stored: its request is safe text, its command is known unless the action alone decides,
      the manifest and, where approval is needed, the approval request are accepted, and every save works. */
  lemma StoredExactly(c: Config, s: Service, e: Event, ctx: Context)
    requires e.PlanIt? && e.planId !in s.plans
    ensures e.planId in PlanStep(c, s, e, ctx).plans <==>
      && AskSafe(c, e.ask) && ctx.saves
      && (e.ask.action in c.sensitive || e.ask.commandId == None || e.ask.action in c.engine.modifying
          || e.ask.commandId.value in c.engine.catalog)
      && c.screen.Safe(e.planId, 512) && c.screen.Safe(e.user.name, 512) && c.screen.Safe(ctx.text, 512)
      && OptionalSafe(c.screen, Some(if e.ask.action in c.backedUp then c.restorePlan else c.readPlan))
      && OptionalSafe(c.screen, Some(c.expected))
      && |e.ask.files| <= 128 && |e.ask.services| <= 128 && |e.ask.dependencies| <= 128 && |e.ask.tests| <= 128
      && (Assess(c, e.ask.action, e.ask.commandId).Some?
          && Assess(c, e.ask.action, e.ask.commandId).value.decision == Policy.APPROVAL_REQUIRED ==>
            e.approvalSaves && MayAsk(c, e.user))
  {
    if AskSafe(c, e.ask) {
      AskedCommand(c, e.ask);
      AssessedRule(c, e.ask.action, e.ask.commandId);
      if Assess(c, e.ask.action, e.ask.commandId).Some? {
        var d := Assess(c, e.ask.action, e.ask.commandId).value;
        CreateExactly(c, e, d, ctx.text);
        var created := Create(c.screen, PayloadOf(c, e.user, e.ask, e.planId, d, ctx.text));
        if created.Some? { PlannedStored(c, s, e, ctx, d, created.value); }
      }
    }
  }

  lemma PlannedStored(c: Config, s: Service, e: Event, ctx: Context, d: Policy.PolicyDecision, m: Manifest)
    requires e.PlanIt? && e.planId !in s.plans && AskSafe(c, e.ask)
    requires Create(c.screen, PayloadOf(c, e.user, e.ask, e.planId, d, ctx.text)) == Some(m)
    ensures e.planId in Planned(c, s, e, ctx, d, m).plans <==>
      && ctx.saves
      && (d.decision == Policy.APPROVAL_REQUIRED ==>
            e.approvalSaves && MayAsk(c, e.user))
  {
    if d.decision == Policy.APPROVAL_REQUIRED {
      DraftIsChecked(c, e, d, m, ctx.text);
      RequestAcceptedExactly(c, e, d, m, ctx.now);
      Store.CreateExactly(c.screen, s.requests, Store.Create(DraftOf(c, e.user, e.ask, m, d), e.requestId, "", false),
        ctx.now, true, e.approvalSaves);
    }
  }

  // ----- when a plan moves -----

  /** A transition of a plan with a valid manifest is refused only for the texts that are new. */
  lemma TransitionExactly(x: Screen, p: Plan, to: State, ch: Changes)
    requires Valid(x, p.manifest.payload)
    ensures Transition(x, p, to, ch) ==
      if OptionalSafe(x, ch.backupId) && OptionalSafe(x, ch.approvedAt) then Some(Advanced(p, to, ch)) else None
  {
    ValidExactly(x, p.manifest.payload);
    ValidExactly(x, Changed(p.manifest.payload, ManifestStatus(to), ch));
  }

  /** The plan after its approval. */
  lemma ApprovedPlanIs(p: Plan, text: string)
    ensures Advanced(p, State.APPROVED, Changes(None, Some(text))) == p.(state := State.APPROVED, manifest :=
      Sealed(p.manifest.payload.(status := OperationStatus.APPROVED, approvedAt := Some(text))))
  {
  }

  lemma ReadyPlanIs(p: Plan, backup: string)
    ensures Advanced(p, State.READY, Changes(Some(backup), None)) == p.(state := State.READY, backupId := Some(backup),
      manifest := Sealed(p.manifest.payload.(status := OperationStatus.READY, backupId := Some(backup))))
  {
  }

  lemma BlockedPlanIs(p: Plan)
    ensures Advanced(p, BLOCKED_BY_DEFAULT, Changes(None, None)) == p.(state := BLOCKED_BY_DEFAULT,
      manifest := Sealed(p.manifest.payload.(status := BLOCKED)))
  {
  }

  /** What an approval asks of the approval store. */
  function DecisionOf(e: Event, link: string): Store.Event
    requires e.ApproveIt?
  {
    Store.Decide(link, Approvals.Ruling(true, e.approver.name, e.approver.role, e.reason))
  }

  /** When an approval succeeds: somebody else approves a plan that waits, with a safe reason, the approval
      store accepts the decision, and the plan can be saved; the plan is then approved at that time. */
  lemma ApprovalExactly(c: Config, s: Service, e: Event, ctx: Context, p: Plan, moved: Option<Plan>)
    requires e.ApproveIt? && e.target in s.plans && s.plans[e.target] == p && p.planId == e.target && p.approvalId.Some?
    requires moved == Transition(c.screen, p, State.APPROVED, Changes(None, Some(ctx.text)))
    requires moved.Some? ==> moved.value.planId == e.target
    ensures var asked :=
        p.actorId != e.approver.id && p.state == State.APPROVAL_REQUIRED && c.screen.Safe(e.reason, 512);
      var (requests, decided) := Store.Next(c.screen, s.requests, DecisionOf(e, p.approvalId.value), ctx.now,
        e.refreshSaves, e.decisionSaves);
      ApproveStep(c, s, e, ctx) ==
        if !asked then s
        else if decided && moved.Some? && ctx.saves then Service(s.plans[e.target := moved.value], requests)
        else Service(s.plans, requests)
  {
  }

  predicate CountsAsVerified(records: map<string, B.Record>, id: string) {
    id in records && (records[id].state == B.VERIFIED || records[id].state == B.RESTORE_TESTED)
  }

  /** When a backup is attached: the plan is approved, the backup counts as verified if there is a catalog,
      its id is safe text and the plan can be saved. */
  lemma AttachmentExactly(c: Config, s: Service, e: Event, ctx: Context, p: Plan, moved: Option<Plan>)
    requires e.AttachBackup? && e.target in s.plans && s.plans[e.target] == p && p.planId == e.target
    requires moved == Transition(c.screen, p, State.READY, Changes(Some(e.backup), None))
    requires moved.Some? ==> moved.value.planId == e.target
    ensures AttachStep(c, s, e, ctx) ==
      if p.state == State.APPROVED && c.screen.Safe(e.backup, 512) && moved.Some? && ctx.saves
        && (c.backups ==> CountsAsVerified(e.records, e.backup))
      then s.(plans := s.plans[e.target := moved.value]) else s
  {
  }

  /** When an execution is blocked: always, if the plan is there and can be saved. */
  lemma ExecutionExactly(c: Config, s: Service, id: string, ctx: Context)
    requires id in s.plans && s.plans[id].planId == id && Valid(c.screen, s.plans[id].manifest.payload)
    ensures Step(c, s, ExecuteIt(id), ctx) ==
      if ctx.saves
      then s.(plans := s.plans[id := s.plans[id].(state := BLOCKED_BY_DEFAULT, reason := c.disabled,
                manifest := Sealed(s.plans[id].manifest.payload.(status := BLOCKED)))])
      else s
  {
    TransitionExactly(c.screen, s.plans[id], BLOCKED_BY_DEFAULT, Changes(None, None));
    BlockedPlanIs(s.plans[id]);
  }

  // ----- every run -----

  ghost predicate AllRuled(c: Config, plans: map<string, Plan>) {
    forall id | id in plans :: RuledPlan(c, plans[id])
  }

  lemma AdvancedRuled(c: Config, p: Plan, to: State, ch: Changes, reason: string)
    requires RuledPlan(c, p) && to in {State.APPROVED, State.READY, BLOCKED_BY_DEFAULT}
    ensures RuledPlan(c, Advanced(p, to, ch).(reason := reason))
  {
  }

  lemma MoveRuled(c: Config, s: Service, id: string, to: State, ch: Changes, saves: bool)
    requires AllRuled(c, s.plans) && id in s.plans && to in {State.APPROVED, State.READY}
    ensures AllRuled(c, Put(s, Transition(c.screen, s.plans[id], to, ch), saves).plans)
  {
    var moved := Transition(c.screen, s.plans[id], to, ch);
    if moved.Some? {
      TransitionIs(c.screen, s.plans[id], to, ch);
      AdvancedRuled(c, s.plans[id], to, ch, moved.value.reason);
      assert moved.value.(reason := moved.value.reason) == moved.value;
    }
  }

  lemma BlockRuled(c: Config, s: Service, id: string, saves: bool)
    requires AllRuled(c, s.plans) && id in s.plans
    ensures AllRuled(c, Put(s, Blocked(c, s.plans[id]), saves).plans)
  {
    if Blocked(c, s.plans[id]).Some? {
      TransitionIs(c.screen, s.plans[id], BLOCKED_BY_DEFAULT, Changes(None, None));
      AdvancedRuled(c, s.plans[id], BLOCKED_BY_DEFAULT, Changes(None, None), c.disabled);
    }
  }

  lemma AddRuled(c: Config, s: Service, e: Event, ctx: Context)
    requires e.PlanIt? && e.planId !in s.plans && AllRuled(c, s.plans)
    ensures AllRuled(c, PlanStep(c, s, e, ctx).plans)
  {
    if e.planId in PlanStep(c, s, e, ctx).plans {
      PlanExactly(c, s, e, ctx);
    } else {
      NothingPlanned(c, s, e, ctx);
    }
  }

  lemma NothingPlanned(c: Config, s: Service, e: Event, ctx: Context)
    requires e.PlanIt? && e.planId !in PlanStep(c, s, e, ctx).plans
    ensures PlanStep(c, s, e, ctx).plans == s.plans
  {
  }

  lemma StepRuled(c: Config, s: Service, e: Event, ctx: Context)
    requires AllRuled(c, s.plans) && UnusedIds(s, e)
    ensures AllRuled(c, Step(c, s, e, ctx).plans)
  {
    match e {
      case PlanIt(_, _, _, _, _) => AddRuled(c, s, e, ctx);
      case ApproveIt(_, target, _, _, _) =>
        if ApproveStep(c, s, e, ctx).plans != s.plans {
          ApprovePlans(c, s, e, ctx);
          MoveRuled(c, s, target, State.APPROVED, Changes(None, Some(ctx.text)), ctx.saves);
        }
      case AttachBackup(target, backup, _) =>
        if target in s.plans { MoveRuled(c, s, target, State.READY, Changes(Some(backup), None), ctx.saves); }
      case ExecuteIt(target) => if target in s.plans { BlockRuled(c, s, target, ctx.saves); }
      case Elsewhere(_, _, _) =>
    }
  }

  /** Over every run, whatever fails: the decision and the risk of each plan are those of its action and its
      command, its manifest says the same, and it is linked to a request exactly if it needs approval. */
  lemma {:induction false} EveryRunIsRuled(c: Config, events: seq<(Event, Context)>)
    requires UnusedIdsThroughout(c, events)
    ensures AllRuled(c, Run(c, events).plans)
  {
    if events != [] {
      EveryRunIsRuled(c, events[..|events| - 1]);
      var (e, ctx) := events[|events| - 1];
      StepRuled(c, Run(c, events[..|events| - 1]), e, ctx);
    }
  }

  lemma LinkOf(x: Screen, s: Service, id: string) returns (i: nat)
    requires Lockstep(x, s) && id in s.plans && s.plans[id].approvalId.Some?
    ensures i < |s.requests| && s.plans[id].approvalId == Some(s.requests[i].id)
    ensures s.requests[i].snapshot.planId == Some(s.plans[id].planId)
  {
    assert PlanHolds(x, id, s.plans[id], s.requests);
    i :| LinkedAt(x, s.plans[id], s.requests, i);
  }

  // ----- where a plan comes from -----

  /** The same plan, but for what its moves may change. */
  predicate MovedFrom(before: Plan, p: Plan) {
    p == before.(state := p.state, manifest := p.manifest, backupId := p.backupId, reason := p.reason)
  }

  lemma TransitionMoves(x: Screen, p: Plan, to: State, ch: Changes)
    ensures Transition(x, p, to, ch).Some? ==> MovedFrom(p, Transition(x, p, to, ch).value)
  {
  }

  lemma BlockMoves(c: Config, p: Plan)
    ensures Blocked(c, p).Some? ==> MovedFrom(p, Blocked(c, p).value)
  {
    TransitionMoves(c.screen, p, BLOCKED_BY_DEFAULT, Changes(None, None));
  }

  lemma PutMoves(s: Service, p: Option<Plan>, target: string, saves: bool, id: string)
    requires target in s.plans && s.plans[target].planId == target
    requires p.Some? ==> MovedFrom(s.plans[target], p.value)
    requires id in Put(s, p, saves).plans
    ensures id in s.plans && MovedFrom(s.plans[id], Put(s, p, saves).plans[id])
  {
  }

  lemma OnlyItsOwnPlan(c: Config, s: Service, e: Event, ctx: Context, id: string)
    requires e.PlanIt? && id in PlanStep(c, s, e, ctx).plans && id !in s.plans
    ensures e.planId == id
  {
    NewPlanIds(c, s, e, ctx);
  }

  lemma NewPlanIds(c: Config, s: Service, e: Event, ctx: Context)
    requires e.PlanIt?
    ensures PlanStep(c, s, e, ctx).plans.Keys <= s.plans.Keys + {e.planId}
  {
    var d := Assess(c, e.ask.action, e.ask.commandId);
    if d.Some? {
      var m := Create(c.screen, PayloadOf(c, e.user, e.ask, e.planId, d.value, ctx.text));
      if m.Some? { PlannedIds(c, s, e, ctx, d.value, m.value); }
    }
  }

  lemma PlannedIds(c: Config, s: Service, e: Event, ctx: Context, d: Policy.PolicyDecision, m: Manifest)
    requires e.PlanIt?
    ensures Planned(c, s, e, ctx, d, m).plans.Keys <= s.plans.Keys + {e.planId}
  {
  }

  lemma StepMoves(c: Config, s: Service, e: Event, ctx: Context, id: string)
    requires (forall i | i in s.plans :: s.plans[i].planId == i) && UnusedIds(s, e)
    requires id in Step(c, s, e, ctx).plans
    ensures id in s.plans ==> MovedFrom(s.plans[id], Step(c, s, e, ctx).plans[id])
    ensures id !in s.plans ==> e.PlanIt? && e.planId == id
  {
    match e {
      case PlanIt(_, _, _, _, _) =>
        if id in s.plans { NewPlansOnly(c, s, e, ctx, id); } else { OnlyItsOwnPlan(c, s, e, ctx, id); }
      case ApproveIt(_, target, _, _, _) =>
        if ApproveStep(c, s, e, ctx).plans != s.plans {
          ApprovePlans(c, s, e, ctx);
          TransitionMoves(c.screen, s.plans[target], State.APPROVED, Changes(None, Some(ctx.text)));
          PutMoves(s, Transition(c.screen, s.plans[target], State.APPROVED, Changes(None, Some(ctx.text))), target,
            ctx.saves, id);
        }
      case AttachBackup(target, backup, _) =>
        if AttachStep(c, s, e, ctx) != s {
          TransitionMoves(c.screen, s.plans[target], State.READY, Changes(Some(backup), None));
          PutMoves(s, Transition(c.screen, s.plans[target], State.READY, Changes(Some(backup), None)), target,
            ctx.saves, id);
        }
      case ExecuteIt(target) =>
        if target in s.plans {
          BlockMoves(c, s.plans[target]);
          PutMoves(s, Blocked(c, s.plans[target]), target, ctx.saves, id);
        }
      case Elsewhere(_, _, _) =>
    }
  }

  /** The k-th call planned `p`: the plan then stored took over its request and, if it needs approval, the
      approval store got a pending request for it; `p` is that plan but for its later moves. */
  ghost predicate PlannedAt(c: Config, events: seq<(Event, Context)>, k: nat, p: Plan) {
    && k < |events| && events[k].0.PlanIt? && events[k].0.planId == p.planId
    && (var s, n := Run(c, events[..k]), Run(c, events[..k + 1]);
        && p.planId !in s.plans && p.planId in n.plans && MovedFrom(n.plans[p.planId], p)
        && TakesOver(c, events[k].0, events[k].1, n.plans[p.planId])
        && (p.decision == Policy.APPROVAL_REQUIRED ==>
              && n.requests != [] && n.requests[..|n.requests| - 1] == s.requests
              && AsksFor(c, events[k].0, events[k].1, n.plans[p.planId], n.requests[|n.requests| - 1]))
        && (p.decision != Policy.APPROVAL_REQUIRED ==> n.requests == s.requests))
  }

  lemma PlannedAtLater(c: Config, events: seq<(Event, Context)>, k: nat, p: Plan, q: Plan)
    requires events != [] && PlannedAt(c, events[..|events| - 1], k, p) && MovedFrom(p, q)
    ensures PlannedAt(c, events, k, q)
  {
    var before := events[..|events| - 1];
    assert before[..k] == events[..k] && before[..k + 1] == events[..k + 1];
  }

  lemma PlannedLast(c: Config, events: seq<(Event, Context)>, id: string)
    requires events != [] && events[|events| - 1].0.PlanIt? && events[|events| - 1].0.planId == id
    requires id !in Run(c, events[..|events| - 1]).plans && id in Run(c, events).plans
    requires Run(c, events).plans[id].planId == id
    ensures PlannedAt(c, events, |events| - 1, Run(c, events).plans[id])
  {
    var k := |events| - 1;
    assert events[..k + 1] == events;
    PlanExactly(c, Run(c, events[..k]), events[k].0, events[k].1);
  }

  /** Over every run each plan goes back to the call that planned it and, if it needs approval, to the
      pending request that this call made. */
  lemma {:induction false} EveryPlanWasPlanned(c: Config, events: seq<(Event, Context)>, id: string) returns (k: nat)
    requires UnusedIdsThroughout(c, events) && id in Run(c, events).plans
    ensures PlannedAt(c, events, k, Run(c, events).plans[id]) && Run(c, events).plans[id].planId == id
  {
    RunKeeps(c, events);
    assert PlanHolds(c.screen, id, Run(c, events).plans[id], Run(c, events).requests);
    var before := events[..|events| - 1];
    var (e, ctx) := events[|events| - 1];
    RunKeeps(c, before);
    OwnIds(c.screen, Run(c, before));
    StepMoves(c, Run(c, before), e, ctx, id);
    if id in Run(c, before).plans {
      k := EveryPlanWasPlanned(c, before, id);
      PlannedAtLater(c, events, k, Run(c, before).plans[id], Run(c, events).plans[id]);
    } else {
      k := |events| - 1;
      PlannedLast(c, events, id);
    }
  }

  lemma OwnIds(x: Screen, s: Service)
    requires Lockstep(x, s)
    ensures forall i | i in s.plans :: s.plans[i].planId == i
  {
    forall i | i in s.plans ensures s.plans[i].planId == i {
      assert PlanHolds(x, i, s.plans[i], s.requests);
    }
  }

  /** Over every run a plan for a sensitive action needs approval at high risk, says so in its manifest, and
      has a request in the approval store that was made pending by the call that planned it. */
  lemma SensitivePlansNeedApproval(c: Config, events: seq<(Event, Context)>, id: string)
    returns (k: nat)
    requires UnusedIdsThroughout(c, events) && id in Run(c, events).plans
    requires Run(c, events).plans[id].action in c.sensitive
    ensures var s := Run(c, events); var p := s.plans[id]; var m := p.manifest.payload;
      && p.decision == Policy.APPROVAL_REQUIRED && p.risk == HIGH && m.riskLevel == "L3" && m.approvalRequired
      && p.state != State.PLANNED && p.state != State.REJECTED
      && exists i :: 0 <= i < |s.requests| && p.approvalId == Some(s.requests[i].id)
           && s.requests[i].snapshot.planId == Some(p.planId)
    ensures PlannedAt(c, events, k, Run(c, events).plans[id])
  {
    EveryRunIsRuled(c, events);
    RunKeeps(c, events);
    k := EveryPlanWasPlanned(c, events, id);
    var i := LinkOf(c.screen, Run(c, events), id);
  }
}
