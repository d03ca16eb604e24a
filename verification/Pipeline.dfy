/** The whole way from a session's request to the provider, and when the provider is reached. */
module Pipeline {
  import opened Texts
  import opened Digests
  import opened Policy
  import opened Approvals
  import opened ApprovalStore
  import opened ExecutionChain
  import opened ControlledExecution

  /** What a pipeline is configured with; `text` is the value text of a permission. */
  datatype Setup = Setup(
    engine: Engine, policyVersion: string, maximum: Risk, accounts: map<string, Account>, text: Permission -> string)

  /** `user` holds the session when the run starts and `again` when the controlled service asks;
      `first` and `second` are the two reads of the approval; `log` is how many appends the audit log
      still accepts; `offer` is the provider's reply. */
  datatype Circumstances = Circumstances(
    user: Option<Account>, again: Option<Account>, first: Result<Request>, second: Result<Request>,
    gateTime: int, log: nat, offer: Option<Reply>)

  /** A run: the audit events it appended, the gate's decision and the submission as far as it got. */
  datatype Ran = Ran(events: seq<AuditEvent>, gate: Option<GateDecision>, submission: Option<Submission>)

  function ToOption<T>(r: Result<T>): Option<T> {
    match r case Ok(v) => Some(v) case Refused => None
  }

  /** The actor the planner is asked about: the approval's, or the session user when it cannot be read. */
  function ExpectedActor(user: Account, first: Result<Request>): string {
    if first.Ok? then first.value.actor else user.username
  }

  function Permissions(s: Setup, user: Account, actor: string): set<string> {
    set p | p in (if actor in s.accounts then s.accounts[actor] else user).permissions :: s.text(p)
  }

  function ExpectationOf(s: Setup, user: Account, first: Result<Request>, commandId: string): Expectation {
    Expectation(s.policyVersion, Permissions(s, user, ExpectedActor(user, first)),
      if first.Ok? then first.value.snapshot.resource else "command:" + commandId)
  }

  /** The planner's stage, on the two reads. */
  function PlannedBy(
      x: Screen, s: Setup, c: Circumstances, user: Account, action: string, commandId: string,
        approvalId: string): Traced<Plan>
  {
    BuildPlan(x, s.engine, ToOption(c.second), ExpectedActor(user, c.first), action, commandId, approvalId,
      ExpectationOf(s, user, c.first, commandId), HIGH, c.log)
  }

  /** The dry run and the gate of a plan, with `log` appends left. */
  function Checked(x: Screen, s: Setup, p: Plan, gateTime: int, log: nat): Traced<GateDecision>
    requires Auditable(x, p.actor, p.commandId)
  {
    var dry := RunDry(x, s.engine, p, s.maximum, log);
    if dry.result == None then Traced(None, dry.events)
    else
      var left := if |dry.events| <= log then log - |dry.events| else 0;
      var gate := EvaluateGate(x, s.engine, p, dry.result.value, s.maximum, gateTime, left);
      Traced(gate.result, dry.events + gate.events)
  }

  /** The three stages before the provider. */
  function Staged(
      x: Screen, s: Setup, c: Circumstances, user: Account, action: string, commandId: string, approvalId: string)
    : Traced<GateDecision>
  {
    var planned := PlannedBy(x, s, c, user, action, commandId, approvalId);
    if planned.result == None then Traced(None, planned.events)
    else
      var checked := Checked(x, s, planned.result.value, c.gateTime, c.log - 1);
      Traced(checked.result, planned.events + checked.events)
  }

  /** `run` */
  function Outcome(x: Screen, s: Setup, c: Circumstances, action: string, commandId: string, approvalId: string): Ran {
    if !Authorized(c.user, RequiredPermission(s.engine, action, commandId)) then Ran([], None, None)
    else
      var staged := Staged(x, s, c, c.user.value, action, commandId, approvalId);
      Ran(staged.events, staged.result,
        if staged.result.Some? && staged.result.value.state == Eligible
        then Some(Submit(x, s.engine, c.again, staged.result.value, c.offer)) else None)
  }

  predicate Called(r: Ran) {
    r.submission.Some? && r.submission.value.Settled? && r.submission.value.call.Some?
  }

  /** The built-in tables: a read is not a modifying action, no command id is empty or holds a bracket. */
  ghost predicate Standard(e: Engine) {
    && "read" !in e.modifying && "" !in e.catalog
    && (forall id | id in e.catalog :: '[' !in id)
  }

  // ----- the flat predicate -----

  /** No screened text of the approval is secret-like. */
  predicate Discreet(x: Screen, a: Request) {
    && !x.secret(a.snapshot.actorRole) && !x.secret(a.snapshot.policyVersion) && !x.secret(a.snapshot.resource)
    && (a.decidedBy.Some? ==> !x.secret(a.decidedBy.value))
    && (a.decidedByRole.Some? ==> !x.secret(a.decidedByRole.value))
    && (a.snapshot.planId.Some? ==> !x.secret(a.snapshot.planId.value))
    && forall p | p in a.snapshot.permissions :: !x.secret(p)
  }

  /** A versioned approval was made under the current policy version, for the resource that the first read
      named, with exactly the permissions that the account of its actor has now, or the session's where
      there is no such account; it is complete, and the gate closes before it expires. */
  predicate Current(s: Setup, c: Circumstances, a: Request, user: Account, commandId: string) {
    && a.snapshot.policyVersion == s.policyVersion
    && a.snapshot.resource == (if c.first.Ok? then c.first.value.snapshot.resource else "command:" + commandId)
    && (var actor := if c.first.Ok? then c.first.value.actor else user.username;
        a.snapshot.permissions ==
          set p | p in (if actor in s.accounts then s.accounts[actor].permissions else user.permissions) :: s.text(p))
    && a.snapshot.planId !in {None, Some("")} && a.decidedBy !in {None, Some("")}
    && a.decidedByRole !in {None, Some("")} && a.snapshot.actorRole != "" && a.snapshot.permissions != {}
    && a.snapshot.expiresAt.Some? && a.snapshot.expiresAt.value.Aware? && c.gateTime < a.snapshot.expiresAt.value.at
  }

  /** Text that the controlled service passes on. */
  predicate Sendable(x: Screen, t: string) {
    !x.secret(t) && !x.raw(t) && |t| <= 256 && '\r' !in t && '\n' !in t && '\0' !in t
  }

  /** One conjunction for everything that the planner, the dry run, the gate and the service check. */
  predicate MayCall(x: Screen, s: Setup, c: Circumstances, action: string, commandId: string, approvalId: string) {
    && c.user.Some? && RUN_READ_SAFE in c.user.value.permissions
    && c.again.Some? && RUN_READ_SAFE in c.again.value.permissions
    && action == "read" && commandId in s.engine.catalog && s.engine.catalog[commandId] == Spec(READ_SAFE, false)
    && c.second.Ok? && c.second.value.status == ApprovalStatus.APPROVED
    && c.second.value.action == "read" && c.second.value.commandId == Some(commandId)
    && c.second.value.actor == x.redact(if c.first.Ok? then c.first.value.actor else c.user.value.username)
    && Discreet(x, c.second.value)
    && (c.second.value.snapshot.policyVersion == "legacy"
        || Current(s, c, c.second.value, c.user.value, commandId))
    && Sendable(x, c.second.value.actor) && Sendable(x, commandId)
    && approvalId != "" && Sendable(x, approvalId)
    && 5 <= c.log && c.offer.Some?
  }

  /** Redaction never makes a text that has no bracket out of another one. */
  lemma RedactedPlain(x: Screen, t: string)
    requires '[' !in x.redact(t)
    ensures x.redact(t) == t
  {
    assert x.secret(t) ==> '[' in x.redact(t);
  }

  lemma ReadIsSubmittable(x: Screen)
    ensures Submittable(x, "read") && x.redact("read") == "read"
  {
    assert x.Clean("read");
  }

  /** For a plan that the planner found ready, the dry run blocks only on secret-like text, and neither
      the comparison of plan and dry run nor the second and third policy decisions ever stop the run. */
  lemma ReadyPlansNeverMismatch(
      x: Screen, e: Engine, a: Option<Request>, actor: string, action: string, commandId: string,
      approvalId: string, ex: Expectation, maximum: Risk, log: nat)
    requires var t := BuildPlan(x, e, a, actor, action, commandId, approvalId, ex, HIGH, log);
      t.result.Some? && t.result.value.state == READY_TO_EXECUTE
    ensures var p := BuildPlan(x, e, a, actor, action, commandId, approvalId, ex, HIGH, log).result.value;
      var d := DryOutcome(x, e, p, maximum);
      && p.risk == LOW && (d.completed <==> PlanTextsSecretFree(x, p))
      && Fallback(e, p.action, p.commandId).decision == ALLOW && Fallback(e, p.action, p.commandId).risk == p.risk
      && (d.completed && approvalId != "" ==> !GateMismatch(p, d))
  {
    var p := BuildPlan(x, e, a, actor, action, commandId, approvalId, ex, HIGH, log).result.value;
    assert Evaluate(e, p.action, p.commandId).value.decision == ALLOW;
  }

  /** What makes the gate eligible: the planner's conditions, five accepted audit appends and an
      approval that is secret-free, complete and unexpired. */
  predicate Eligibility(
      x: Screen, s: Setup, c: Circumstances, user: Account, action: string, commandId: string, approvalId: string)
  {
    var actor := x.redact(ExpectedActor(user, c.first));
    && 5 <= c.log && Auditable(x, actor, x.redact(commandId))
    && PlanConditions(s.engine, ToOption(c.second), actor, x.redact(action), x.redact(commandId),
         ExpectationOf(s, user, c.first, commandId), HIGH)
    && approvalId != "" && !x.secret(approvalId) && !x.secret(x.redact(action))
    && ApprovalSecretFree(x, ToOption(c.second))
    && (Versioned(ToOption(c.second)) ==>
          && SnapshotComplete(c.second.value) && c.second.value.snapshot.expiresAt.value.Aware?
          && c.gateTime < c.second.value.snapshot.expiresAt.value.at)
  }

  /** What the dry run and the gate say about a plan. */
  lemma CheckedMeans(x: Screen, s: Setup, p: Plan, gateTime: int, log: nat)
    requires Auditable(x, p.actor, p.commandId)
    ensures var t := Checked(x, s, p, gateTime, log);
      (t.result.Some? && t.result.value.state == Eligible) <==>
        && 4 <= log && DryOutcome(x, s.engine, p, s.maximum).completed
        && p.approvalId != "" && ApprovalSecretFree(x, p.approval)
        && (Versioned(p.approval) ==>
              && SnapshotComplete(p.approval.value) && p.approval.value.snapshot.expiresAt.value.Aware?
              && gateTime < p.approval.value.snapshot.expiresAt.value.at)
    ensures var t := Checked(x, s, p, gateTime, log);
      t.result.Some? && t.result.value.state == Eligible ==>
        && t.result.value == GateDecision(Eligible, p.actor, p.action, p.commandId, p.risk, Some(p.approvalId))
        && t.events == [AuditEvent(DryRunStarted, p.actor, p.risk, p.commandId),
                        AuditEvent(DryRunCompleted, p.actor, p.risk, p.commandId),
                        AuditEvent(GateEvaluated, p.actor, p.risk, p.commandId),
                        AuditEvent(GateEligible, p.actor, p.risk, p.commandId)]
  {
    var dry := RunDry(x, s.engine, p, s.maximum, log);
    if dry.result.Some? && dry.result.value.completed {
      assert |dry.events| == 2 <= log;
    }
  }

  /** The gate is eligible exactly under that condition, names the planned actor and command, and the
      five events are then in the log. */
  lemma EligibleMeans(
      x: Screen, s: Setup, c: Circumstances, user: Account, action: string, commandId: string, approvalId: string)
    ensures var t := Staged(x, s, c, user, action, commandId, approvalId);
      (t.result.Some? && t.result.value.state == Eligible) <==>
        Eligibility(x, s, c, user, action, commandId, approvalId)
    ensures var t := Staged(x, s, c, user, action, commandId, approvalId);
      t.result.Some? && t.result.value.state == Eligible ==>
        && t.result.value == GateDecision(Eligible, x.redact(ExpectedActor(user, c.first)), x.redact(action),
                               x.redact(commandId), LOW, Some(approvalId))
        && t.events == Trail(x.redact(ExpectedActor(user, c.first)), x.redact(commandId))
  {
    var planned := PlannedBy(x, s, c, user, action, commandId, approvalId);
    if planned.result.Some? {
      CheckedMeans(x, s, planned.result.value, c.gateTime, c.log - 1);
    }
  }

  /** The audit trail of every run that gets past the gate. */
  function Trail(actor: string, commandId: string): seq<AuditEvent> {
    [AuditEvent(PlanEvaluated(READY_TO_EXECUTE), actor, LOW, commandId),
      AuditEvent(DryRunStarted, actor, LOW, commandId),
     AuditEvent(DryRunCompleted, actor, LOW, commandId), AuditEvent(GateEvaluated, actor, LOW, commandId),
     AuditEvent(GateEligible, actor, LOW, commandId)]
  }

  lemma CalledMeans(x: Screen, s: Setup, c: Circumstances, action: string, commandId: string, approvalId: string)
    requires Standard(s.engine) && Called(Outcome(x, s, c, action, commandId, approvalId))
    ensures MayCall(x, s, c, action, commandId, approvalId)
    ensures var r := Outcome(x, s, c, action, commandId, approvalId);
      && r.submission.value.call == Some(ProviderCall(c.second.value.actor, "read", commandId))
      && r.events == Trail(c.second.value.actor, commandId)
  {
    EligibleMeans(x, s, c, c.user.value, action, commandId, approvalId);
    RedactedPlain(x, action);
    RedactedPlain(x, commandId);
    var actor := ExpectedActor(c.user.value, c.first);
    assert c.second.value.actor == x.redact(actor);
  }

  lemma CalledWhen(x: Screen, s: Setup, c: Circumstances, action: string, commandId: string, approvalId: string)
    requires Standard(s.engine) && MayCall(x, s, c, action, commandId, approvalId)
    ensures Called(Outcome(x, s, c, action, commandId, approvalId))
  {
    ReadIsSubmittable(x);
    EligibleMeans(x, s, c, c.user.value, action, commandId, approvalId);
    var a := c.second.value;
    assert ApprovalSecretFree(x, Some(a));
    assert Versioned(Some(a)) ==> SnapshotComplete(a);
    assert x.redact(commandId) == commandId && x.redact(approvalId) == approvalId;
    assert PlanConditions(s.engine, Some(a), a.actor, action, commandId,
      ExpectationOf(s, c.user.value, c.first, commandId), HIGH);
    assert Eligibility(x, s, c, c.user.value, action, commandId, approvalId);
    var g := GateDecision(Eligible, a.actor, action, commandId, LOW, Some(approvalId));
    assert TextsSubmittable(x, g);
    assert InScope(s.engine, g);
  }

  /** The staged checks are one predicate: the provider is called exactly when it holds. */
  lemma ProviderCalledExactly(x: Screen, s: Setup, c: Circumstances, action: string, commandId: string,
      approvalId: string)
    requires Standard(s.engine)
    ensures Called(Outcome(x, s, c, action, commandId, approvalId)) <==> MayCall(x, s, c, action, commandId, approvalId)
  {
    if Called(Outcome(x, s, c, action, commandId, approvalId)) {
      CalledMeans(x, s, c, action, commandId, approvalId);
    }
    if MayCall(x, s, c, action, commandId, approvalId) {
      CalledWhen(x, s, c, action, commandId, approvalId);
    }
  }

  // ----- over one approval store -----

  /** What a read of the store returns, and the store it leaves. */
  function ReadOf(rs: Requests, id: string, now: int, saves: bool): (Result<Request>, Requests) {
    var (after, ok) := Swept(rs, now, saves);
    var i := Find(after, id);
    (if ok && i < |after| then Ok(after[i]) else Refused, after)
  }

  lemma {:induction false} SameIdsFind(a: Requests, b: Requests, id: string)
    requires |a| == |b| && forall i | 0 <= i < |a| :: a[i].id == b[i].id
    ensures Find(a, id) == Find(b, id)
  {
    if a != [] && a[0].id != id {
      SameIdsFind(a[1..], b[1..], id);
    }
  }

  /** Two reads of one store agree on everything the approval fixed when it was made. */
  lemma TwoReadsAgree(rs: Requests, id: string, t1: int, t2: int, saves1: bool, saves2: bool)
    requires ReadOf(rs, id, t1, saves1).0.Ok? && ReadOf(ReadOf(rs, id, t1, saves1).1, id, t2, saves2).0.Ok?
    ensures var a, b := ReadOf(rs, id, t1, saves1).0.value,
      ReadOf(ReadOf(rs, id, t1, saves1).1, id, t2, saves2).0.value;
      a.id == b.id == id && a.actor == b.actor && a.snapshot == b.snapshot && (Live(b.status) ==> a == b)
  {
    var mid := Swept(rs, t1, saves1).0;
    SameIdsFind(mid, Swept(mid, t2, saves2).0, id);
  }

  /** The circumstances that a store gives rise to. */
  predicate FromStore(c: Circumstances, rs: Requests, id: string, t1: int, t2: int, saves1: bool, saves2: bool) {
    && c.first == ReadOf(rs, id, t1, saves1).0
    && c.second == ReadOf(ReadOf(rs, id, t1, saves1).1, id, t2, saves2).0
  }

  /** Over one store the provider is called only for a request that is approved and unexpired at the
      second read and, if it is versioned, at the gate, for its own command and actor and with the
      permissions that the account of that actor has; without an account,
        those of the session.  When the first read returned, it returned the same request, unexpired
          then too; when it raised,
      the actor is the session user. */
  lemma CalledOnlyForAnApprovedRequest(
      x: Screen, s: Setup, c: Circumstances, rs: Requests, t1: int, t2: int, saves1: bool, saves2: bool,
      action: string, commandId: string, approvalId: string)
    requires Standard(s.engine) && FromStore(c, rs, approvalId, t1, t2, saves1, saves2)
    requires Called(Outcome(x, s, c, action, commandId, approvalId))
    ensures c.user.Some? && c.second.Ok?
    ensures var a := c.second.value;
      && a.id == approvalId && a.status == ApprovalStatus.APPROVED
      && (a.snapshot.expiresAt == None || (a.snapshot.expiresAt.value.Aware? && t2 < a.snapshot.expiresAt.value.at))
      && a.commandId == Some(commandId) && s.engine.catalog[commandId].kind == READ_SAFE
      && Outcome(x, s, c, action, commandId, approvalId).submission.value.call ==
           Some(ProviderCall(a.actor, "read", commandId))
    ensures var a, actor := c.second.value, if c.first.Ok? then c.first.value.actor else c.user.value.username;
      && a.actor == x.redact(actor)
      && (a.snapshot.policyVersion != "legacy" ==>
            && a.snapshot.permissions == (set p |
                 p in (if actor in s.accounts then s.accounts[actor].permissions else c.user.value.permissions) ::
                 s.text(p))
            && a.snapshot.expiresAt.Some? && a.snapshot.expiresAt.value.Aware?
            && c.gateTime < a.snapshot.expiresAt.value.at)
    ensures c.first.Ok? ==>
      && c.first == c.second
      && (c.first.value.snapshot.expiresAt == None
          || (c.first.value.snapshot.expiresAt.value.Aware? && t1 < c.first.value.snapshot.expiresAt.value.at))
    ensures c.first.Refused? ==> c.second.value.actor == x.redact(c.user.value.username)
  {
    CalledMeans(x, s, c, action, commandId, approvalId);
    var mid := Swept(rs, t1, saves1).0;
    SweptIsFresh(mid, t2, saves2, Find(Swept(mid, t2, saves2).0, approvalId));
    if c.first.Ok? {
      TwoReadsAgree(rs, approvalId, t1, t2, saves1, saves2);
      SweptIsFresh(rs, t1, saves1, Find(mid, approvalId));
    }
  }

  /** A sweep keeps an approval's seal with it. */
  lemma ReadIsSound(rs: Requests, id: string, now: int, saves: bool)
    requires StoreSound(rs)
    ensures StoreSound(ReadOf(rs, id, now, saves).1)
    ensures ReadOf(rs, id, now, saves).0.Ok? ==> SoundRequest(ReadOf(rs, id, now, saves).0.value)
  {
    SweepKeeps(rs, now, saves);
  }

  /** Whatever happened to the approval store before, and whichever saves failed: the provider is called
      only for a request that somebody other than its actor approved, and the request still carries the
      seal that was computed over it at that decision. */
  lemma CalledOnlyWhenSomebodyElseApproved(
      x: Screen, s: Setup, c: Circumstances, calls: seq<Call>, t1: int, t2: int, saves1: bool, saves2: bool,
      action: string, commandId: string, approvalId: string)
    requires Standard(s.engine) && FromStore(c, Run(x, calls), approvalId, t1, t2, saves1, saves2)
    requires Called(Outcome(x, s, c, action, commandId, approvalId))
    ensures c.second.Ok?
    ensures var a := c.second.value;
      && a.decidedBy.Some? && a.decidedBy.value != a.actor && a.decidedAt.Some?
      && a.approvalHash == Some(SealHash(a))
  {
    CalledMeans(x, s, c, action, commandId, approvalId);
    EveryRunEvolves(x, calls, 0);
    ReadIsSound(Run(x, calls), approvalId, t1, saves1);
    ReadIsSound(ReadOf(Run(x, calls), approvalId, t1, saves1).1, approvalId, t2, saves2);
  }

  /** What one run meets: who holds the session at its two checks, the times of the reads and of the
      gate, whether the two expiry snapshots and the final record are saved, how many audit appends
      the log accepts before the submission and whether the append after it succeeds, the id generated
      for the record and the provider's reply. */
  datatype Conditions = Conditions(
    user: Option<Account>, again: Option<Account>, t1: int, t2: int, gateTime: int, saves1: bool, saves2: bool,
    log: nat, provider: Option<Reply>, recordId: string, recordSaves: bool, recordAudited: bool)

  /** The circumstances of a run over a store. */
  function Met(e: Conditions, enabled: bool, rs: Requests, id: string): (c: Circumstances)
    ensures FromStore(c, rs, id, e.t1, e.t2, e.saves1, e.saves2)
  {
    var (first, mid) := ReadOf(rs, id, e.t1, e.saves1);
    Circumstances(e.user, e.again, first, ReadOf(mid, id, e.t2, e.saves2).0, e.gateTime, e.log,
      if enabled then e.provider else None)
  }

  class ExecutionPipelineService {
    const screen: Screen
    const setup: Setup
    const approvals: JsonApprovalStore
    const controlled: ControlledExecutionService
    /** The events of the audit bridge. */
    var events: seq<AuditEvent>

    ghost predicate Wired()
      reads this, approvals
    {
      && approvals.Synced() && approvals.screen == screen
      && controlled.screen == screen && controlled.engine == setup.engine
    }

    constructor (screen: Screen, setup: Setup, approvals: JsonApprovalStore, controlled: ControlledExecutionService)
      requires approvals.Synced() && approvals.screen == screen
      requires controlled.screen == screen && controlled.engine == setup.engine
      ensures Wired() && this.screen == screen && this.setup == setup && events == []
      ensures this.approvals == approvals && this.controlled == controlled
    {
      this.screen, this.setup, this.approvals, this.controlled, events := screen, setup, approvals, controlled, [];
    }

    /** One run: reads the approval, plans, dry-runs, gates and submits; with the built-in tables the
        provider is reached exactly when the flat predicate holds. */
    method Execute(e: Conditions, action: string, commandId: string, approvalId: string) returns (r: Ran)
      requires Wired()
      modifies this`events, approvals, controlled
      ensures Wired()
      ensures r == Outcome(screen, setup, Met(e, controlled.enabled, old(approvals.requests), approvalId),
                     action, commandId, approvalId)
      ensures events == old(events) + r.events
      ensures controlled.calls == old(controlled.calls) + if Called(r) then [r.submission.value.call.value] else []
      ensures Standard(setup.engine) ==>
        (controlled.calls != old(controlled.calls) <==>
           MayCall(screen, setup, Met(e, controlled.enabled, old(approvals.requests), approvalId),
             action, commandId, approvalId))
    {
      ghost var c := Met(e, controlled.enabled, approvals.requests, approvalId);
      r := Stages(e, action, commandId, approvalId, c);
      if Standard(setup.engine) {
        ProviderCalledExactly(screen, setup, c, action, commandId, approvalId);
      }
    }

    method Stages(e: Conditions, action: string, commandId: string, approvalId: string, ghost c: Circumstances)
      returns (r: Ran)
      requires Wired() && c == Met(e, controlled.enabled, approvals.requests, approvalId)
      modifies this`events, approvals, controlled
      ensures Wired()
      ensures r == Outcome(screen, setup, c, action, commandId, approvalId)
      ensures events == old(events) + r.events
      ensures controlled.calls == old(controlled.calls) + if Called(r) then [r.submission.value.call.value] else []
    {
      r := Ran([], None, None);
      if !Authorized(e.user, RequiredPermission(setup.engine, action, commandId)) {
        return;
      }
      var first := ReadApproval(approvalId, e.t1, e.saves1);
      if Evaluate(setup.engine, screen.redact(action), screen.redact(commandId)) == None {
        return;
      }
      var second := ReadApproval(approvalId, e.t2, e.saves2);
      var staged := Inspect(e.user.value, first, second, action, commandId, approvalId, e.gateTime, e.log, c);
      r := Ran(staged.events, staged.result, None);
      if staged.result.Some? && staged.result.value.state == Eligible {
        var submission, _ :=
          controlled.Request(e.again, staged.result.value, e.provider, e.recordId, e.recordSaves, e.recordAudited);
        r := r.(submission := Some(submission));
      }
    }

    method ReadApproval(id: string, now: int, saves: bool) returns (r: Result<Request>)
      requires Wired()
      modifies approvals
      ensures Wired() && (r, approvals.requests) == ReadOf(old(approvals.requests), id, now, saves)
    {
      r := approvals.Get(id, now, saves);
    }

    /** The planner, the dry run and the gate, each of which ends the run when an append fails. */
    method Inspect(
        user: Account, first: Result<Request>, second: Result<Request>, action: string, commandId: string,
        approvalId: string, gateTime: int, log: nat, ghost c: Circumstances)
      returns (t: Traced<GateDecision>)
      requires c.first == first && c.second == second && c.gateTime == gateTime && c.log == log
      modifies this`events
      ensures t == Staged(screen, setup, c, user, action, commandId, approvalId)
      ensures events == old(events) + t.events
    {
      var planned := BuildPlan(screen, setup.engine, ToOption(second), ExpectedActor(user, first), action, commandId,
                       approvalId, ExpectationOf(setup, user, first, commandId), HIGH, log);
      events := events + planned.events;
      if planned.result == None {
        return Traced(None, planned.events);
      }
      var checked := Check(planned.result.value, gateTime, log - 1);
      t := Traced(checked.result, planned.events + checked.events);
    }

    method Check(plan: Plan, gateTime: int, log: nat) returns (t: Traced<GateDecision>)
      requires Auditable(screen, plan.actor, plan.commandId)
      modifies this`events
      ensures t == Checked(screen, setup, plan, gateTime, log)
      ensures events == old(events) + t.events
    {
      var dry := RunDry(screen, setup.engine, plan, setup.maximum, log);
      events := events + dry.events;
      if dry.result == None {
        return Traced(None, dry.events);
      }
      var gate := EvaluateGate(screen, setup.engine, plan, dry.result.value, setup.maximum, gateTime,
        log - |dry.events|);
      events := events + gate.events;
      t := Traced(gate.result, dry.events + gate.events);
    }
  }
}
