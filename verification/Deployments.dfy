/** The deployment workflow: prepare, independent approval, one guarded execution. */
module Deployments {
  import opened Texts
  import A = ServiceActivation
  import B = Backups

  datatype DeploymentState = BLOCKED | AWAITING_APPROVAL | APPROVED | EXECUTING | VERIFIED | FAILED

  datatype Health = Unknown | Healthy | Stopped | Broken

  /** Why a plan is where it is: the program's own sentences, or the results it joins. */
  datatype Reason =
    | ChecksPassed | ChecksIncomplete | NeedsApproval | PreflightUnsafe | PreflightUnverified
    | Activation(result: A.Field) | ProviderDisabled | NeedsVerifiedBackup | NeedsValidator | DeployFailed
    | ValidationFailed | ActivationUnsafe | ActivationUnverified
    | Validated(deploy: string, validation: string) | Activated(deploy: string, validation: string, activation: A.Field)

  datatype Plan = Plan(
    id: string, project: string, commit: string, requestedBy: string, state: DeploymentState,
    checks: map<string, bool>, backupId: Option<string>, approvedBy: Option<string>, reason: Reason,
    approvalId: Option<string>, startedAt: Option<int>, finishedAt: Option<int>,
    health: Health, rollbackAvailable: bool)

  datatype ProviderEvidence = ProviderEvidence(provider: string, result: string, verified: bool)

  /** Which collaborators the manager was built with; `provider` and `backupProvider` mean present
      and enabled. */
  datatype Setup = Setup(activation: bool, provider: bool, backups: bool, backupProvider: bool, validator: bool)

  /** What the collaborators answer during one execution; None when they raise. */
  datatype Replies = Replies(
    preflight: Option<A.Evidence>, deploy: Option<ProviderEvidence>,
    validation: Option<ProviderEvidence>, activation: Option<A.Evidence>)

  const REQUIRED := {"git", "branch", "tests", "build", "dependencies", "disk", "backup", "backup_verification"}

  predicate ValidEvidence(x: Screen, e: Option<ProviderEvidence>) {
    && e.Some? && e.value.verified
    && (forall s | s in [e.value.provider, e.value.result] :: !Blank(s) && |s| <= 512 && x.Clean(s))
  }

  // ----- prepare -----

  /** The eight effective checks: a missing or unverified backup clears its two. */
  function Effective(given: map<string, bool>, backupGood: bool): map<string, bool> {
    map n | n in REQUIRED ::
      n in given && given[n] && (n in {"backup", "backup_verification"} ==> backupGood)
  }

  predicate AllPassed(checks: map<string, bool>) {
    forall n | n in checks :: checks[n]
  }

  datatype Preparation = Preparation(
    id: string, project: string, commit: string, checks: map<string, bool>, backupId: Option<string>,
    approvalId: Option<string>, others: seq<string>)

  /** None when the call raises: an unknown backup id or unsafe metadata. */
  function Prepared(x: Screen, setup: Setup, backups: map<string, B.Record>, user: string,
      p: Preparation): Option<Plan> {
    if p.backupId.Some? && setup.backups && p.backupId.value !in backups then None
    else
      var verified := p.backupId.Some? && setup.backups && B.IsVerified(backups[p.backupId.value]);
      var checks := Effective(p.checks, p.backupId.Some? && (setup.backups ==> verified));
      var passed := AllPassed(checks);
      if exists s | s in [p.project, p.commit] + p.others :: !x.Safe(s, 512) then None
      else if p.approvalId.Some? && !x.Safe(p.approvalId.value, 512) then None
      else Some(Plan(p.id, p.project, p.commit, user,
        if passed then AWAITING_APPROVAL else BLOCKED, checks, p.backupId, None,
        if passed then ChecksPassed else ChecksIncomplete,
        p.approvalId, None, None, Unknown, verified))
  }

  /** A backup is named and, when there is a catalog, it counts as verified there. */
  predicate BackedUp(setup: Setup, backups: map<string, B.Record>, id: Option<string>) {
    id.Some? && (setup.backups ==>
      id.value in backups && (backups[id.value].state == B.VERIFIED || backups[id.value].state == B.RESTORE_TESTED))
  }

  /** When a plan is prepared and what it says: it waits for approval exactly when each of the eight checks
      was given as true and a verified backup is named, and otherwise it is blocked; it stores the given
      checks, the two about the backup only with that backup. */
  lemma PreparedExactly(x: Screen, setup: Setup, backups: map<string, B.Record>, user: string, p: Preparation)
    ensures Prepared(x, setup, backups, user, p).Some? <==>
      && (setup.backups && p.backupId.Some? ==> p.backupId.value in backups)
      && x.Safe(p.project, 512) && x.Safe(p.commit, 512) && (forall s | s in p.others :: x.Safe(s, 512))
      && (p.approvalId.Some? ==> x.Safe(p.approvalId.value, 512))
    ensures Prepared(x, setup, backups, user, p).Some? ==>
      var plan := Prepared(x, setup, backups, user, p).value;
      && plan.id == p.id && plan.project == p.project && plan.commit == p.commit && plan.requestedBy == user
      && plan.backupId == p.backupId && plan.approvalId == p.approvalId && plan.approvedBy == None
      && plan.startedAt == None && plan.finishedAt == None && plan.health == Unknown
      && (plan.rollbackAvailable <==> setup.backups && BackedUp(setup, backups, p.backupId))
      && plan.state == if AllGiven(p.checks) && BackedUp(setup, backups, p.backupId) then AWAITING_APPROVAL else BLOCKED
    ensures Prepared(x, setup, backups, user, p).Some? ==>
      var plan := Prepared(x, setup, backups, user, p).value;
      && plan.checks.Keys ==
           {"git", "branch", "tests", "build", "dependencies", "disk", "backup", "backup_verification"}
      && forall n | n in plan.checks :: plan.checks[n] <==>
           && n in p.checks && p.checks[n]
           && (n == "backup" || n == "backup_verification" ==> BackedUp(setup, backups, p.backupId))
  {
    if Prepared(x, setup, backups, user, p).Some? {
      PreparedPasses(setup, backups, p);
    }
    assert p.project in [p.project, p.commit] + p.others && p.commit in [p.project, p.commit] + p.others;
    assert forall s :: s in [p.project, p.commit] + p.others <==> s == p.project || s == p.commit || s in p.others;
  }

  /** Each of the eight checks is given as true. */
  predicate AllGiven(given: map<string, bool>) {
    forall n | n in {"git", "branch", "tests", "build", "dependencies", "disk", "backup", "backup_verification"} ::
      n in given && given[n]
  }

  lemma PreparedPasses(setup: Setup, backups: map<string, B.Record>, p: Preparation)
    requires p.backupId.Some? && setup.backups ==> p.backupId.value in backups
    ensures var verified := p.backupId.Some? && setup.backups && B.IsVerified(backups[p.backupId.value]);
      AllPassed(Effective(p.checks, p.backupId.Some? && (setup.backups ==> verified))) <==>
        AllGiven(p.checks) && BackedUp(setup, backups, p.backupId)
  {
    var verified := p.backupId.Some? && setup.backups && B.IsVerified(backups[p.backupId.value]);
    var good := p.backupId.Some? && (setup.backups ==> verified);
    var checks := Effective(p.checks, good);
    assert good <==> BackedUp(setup, backups, p.backupId);
    assert checks.Keys == REQUIRED && "backup" in checks;
    assert AllPassed(checks) ==> checks["backup"];
    assert AllPassed(checks) <==> forall n | n in REQUIRED :: checks[n];
  }

  // ----- approve -----

  function Approved(plan: Plan, approver: string): Option<Plan> {
    if plan.requestedBy == approver || plan.state != AWAITING_APPROVAL then None
    else Some(plan.(state := APPROVED, approvedBy := Some(approver)))
  }

  // ----- execute -----

  function ActivationRequest(plan: Plan): A.Request {
    A.Request(A.DEFAULT_UNIT, plan.project, "deploy", plan.commit, plan.requestedBy,
      if plan.approvedBy.Some? then plan.approvedBy.value else "",
      if plan.approvalId.Some? && plan.approvalId.value != "" then plan.approvalId.value else plan.id)
  }

  function Raised(result: A.Phrase): A.Evidence {
    A.Evidence(A.Own(A.ManagerFallback), A.DEFAULT_UNIT, "deploy", A.FAILED, A.Own(result), false)
  }

  function PreflightOf(r: Replies): A.Evidence {
    if r.preflight.Some? then r.preflight.value else Raised(A.PreflightRaised)
  }

  function ActivationOf(r: Replies): A.Evidence {
    if r.activation.Some? then r.activation.value else Raised(A.ActivationRaised)
  }

  predicate Terminal(s: DeploymentState) {
    s in {BLOCKED, FAILED, VERIFIED}
  }

  /** The whole condition, branch order forgotten. */
  predicate Deployable(x: Screen, setup: Setup, backups: map<string, B.Record>, plan: Plan, r: Replies) {
    && plan.state == APPROVED && setup.provider && setup.backups && setup.backupProvider && setup.validator
    && plan.backupId.Some? && plan.backupId.value in backups && B.IsVerified(backups[plan.backupId.value])
    && (setup.activation ==>
          var e := PreflightOf(r);
          A.ValidActivation(x, e, ActivationRequest(plan)) && e.state == A.READY && e.verified)
  }

  predicate Confirmed(x: Screen, setup: Setup, plan: Plan, r: Replies) {
    && ValidEvidence(x, r.deploy) && ValidEvidence(x, r.validation)
    && (setup.activation ==>
          var e := ActivationOf(r);
          A.ValidActivation(x, e, ActivationRequest(plan)) && e.state == A.ACTIVATED && e.verified)
  }

  lemma EvidenceExactly(x: Screen, e: Option<ProviderEvidence>)
    ensures ValidEvidence(x, e) <==>
      && e.Some? && e.value.verified && !Blank(e.value.provider) && !Blank(e.value.result)
      && |e.value.provider| <= 512 && |e.value.result| <= 512 && x.Clean(e.value.provider) && x.Clean(e.value.result)
  {
    if e.Some? {
      assert e.value.provider in [e.value.provider, e.value.result];
      assert e.value.result in [e.value.provider, e.value.result];
    }
  }

  /** What it takes to call the provider: an approved plan, every collaborator, a backup that counts as
      verified and, with an activation provider, its own ready answer. */
  lemma DeployableExactly(x: Screen, setup: Setup, backups: map<string, B.Record>, plan: Plan, r: Replies)
    ensures Deployable(x, setup, backups, plan, r) <==>
      && plan.state == APPROVED && setup.provider && setup.backups && setup.backupProvider && setup.validator
      && plan.backupId.Some? && plan.backupId.value in backups
      && (backups[plan.backupId.value].state == B.VERIFIED || backups[plan.backupId.value].state == B.RESTORE_TESTED)
      && (setup.activation ==>
            && r.preflight.Some? && r.preflight.value.unit == A.Own(A.ControlCenterUnit)
            && r.preflight.value.operation == "deploy" && r.preflight.value.state == A.READY
            && r.preflight.value.verified
            && (r.preflight.value.provider.Foreign? ==> x.Safe(r.preflight.value.provider.text, 512))
            && (r.preflight.value.result.Foreign? ==> x.Safe(r.preflight.value.result.text, 512)))
  {
    A.ActivationAcceptedExactly(x, r.preflight, Raised(A.PreflightRaised), ActivationRequest(plan), A.READY);
  }

  /** What it takes beyond that to verify the plan: the provider, the validator and, if configured, the
      activation each affirm it in safe text. */
  lemma ConfirmedExactly(x: Screen, setup: Setup, plan: Plan, r: Replies)
    ensures Confirmed(x, setup, plan, r) <==>
      && r.deploy.Some? && r.deploy.value.verified && r.validation.Some? && r.validation.value.verified
      && !Blank(r.deploy.value.provider) && !Blank(r.deploy.value.result)
      && !Blank(r.validation.value.provider) && !Blank(r.validation.value.result)
      && |r.deploy.value.provider| <= 512 && |r.deploy.value.result| <= 512
      && |r.validation.value.provider| <= 512 && |r.validation.value.result| <= 512
      && x.Clean(r.deploy.value.provider) && x.Clean(r.deploy.value.result)
      && x.Clean(r.validation.value.provider) && x.Clean(r.validation.value.result)
      && (setup.activation ==>
            && r.activation.Some? && r.activation.value.unit == A.Own(A.ControlCenterUnit)
            && r.activation.value.operation == "deploy" && r.activation.value.state == A.ACTIVATED
            && r.activation.value.verified
            && (r.activation.value.provider.Foreign? ==> x.Safe(r.activation.value.provider.text, 512))
            && (r.activation.value.result.Foreign? ==> x.Safe(r.activation.value.result.text, 512)))
  {
    EvidenceExactly(x, r.deploy);
    EvidenceExactly(x, r.validation);
    A.ActivationAcceptedExactly(x, r.activation, Raised(A.ActivationRaised), ActivationRequest(plan), A.ACTIVATED);
  }

  /** Where an execution takes the plan, and whether `provider.deploy` was called on the way. */
  datatype Verdict = Raises | Moves(state: DeploymentState, reason: Reason, deployed: bool)

  /** The branches of `execute`.  The release provider is called exactly for deployable plans, the
      plan becomes VERIFIED exactly when all evidence confirms it too, every execution that does not
      raise ends in a terminal state, and a terminal plan is never judged again. */
  function Judge(x: Screen, setup: Setup, backups: map<string, B.Record>, plan: Plan, r: Replies): (v: Verdict)
    ensures (v.Moves? && v.deployed) <==> Deployable(x, setup, backups, plan, r)
    ensures (v.Moves? && v.state == VERIFIED) <==>
      Deployable(x, setup, backups, plan, r) && Confirmed(x, setup, plan, r)
    ensures v.Moves? ==> Terminal(v.state)
    ensures Terminal(plan.state) ==> v == Raises
  {
    var request := ActivationRequest(plan);
    var preflight := PreflightOf(r);
    if plan.state != APPROVED then
      if plan.state in {BLOCKED, FAILED, VERIFIED} then Raises
      else Moves(BLOCKED, NeedsApproval, false)
    else if setup.activation && !A.ValidActivation(x, preflight, request) then
      Moves(FAILED, PreflightUnsafe, false)
    else if setup.activation && preflight.state == A.READY && !preflight.verified then
      Moves(FAILED, PreflightUnverified, false)
    else if setup.activation && preflight.state != A.READY then
      Moves(if preflight.state == A.BLOCKED_BY_DEFAULT then BLOCKED else FAILED, Activation(preflight.result), false)
    else if !setup.provider then
      Moves(BLOCKED, ProviderDisabled, false)
    else if !setup.backups || !setup.backupProvider || plan.backupId == None then
      Moves(BLOCKED, NeedsVerifiedBackup, false)
    else if plan.backupId.value !in backups then Raises
    else if !B.IsVerified(backups[plan.backupId.value]) then
      Moves(BLOCKED, NeedsVerifiedBackup, false)
    else if !setup.validator then
      Moves(BLOCKED, NeedsValidator, false)
    else if !ValidEvidence(x, r.deploy) then
      Moves(FAILED, DeployFailed, true)
    else if !ValidEvidence(x, r.validation) then
      Moves(FAILED, ValidationFailed, true)
    else if !setup.activation then
      Moves(VERIFIED, Validated(r.deploy.value.result, r.validation.value.result), true)
    else
      var activation := ActivationOf(r);
      if !A.ValidActivation(x, activation, request) then
        Moves(FAILED, ActivationUnsafe, true)
      else if activation.state == A.ACTIVATED && !activation.verified then
        Moves(FAILED, ActivationUnverified, true)
      else if activation.state != A.ACTIVATED then
        Moves(if activation.state == A.BLOCKED_BY_DEFAULT then BLOCKED else FAILED, Activation(activation.result), true)
      else
        Moves(VERIFIED, Activated(r.deploy.value.result, r.validation.value.result, activation.result), true)
  }

  function Moved(plan: Plan, v: Verdict, now: int): Plan
    requires v.Moves?
  {
    plan.(state := v.state, reason := v.reason,
      startedAt := if plan.startedAt.Some? then plan.startedAt else Some(now),
      finishedAt := Some(now),
      health := if v.state == VERIFIED then Healthy else if v.state == BLOCKED then Stopped else Broken,
      rollbackAvailable := plan.rollbackAvailable || (plan.backupId.Some? && plan.backupId.value != ""))
  }

  // ----- the book of plans -----

  /** The manager's plans, with every plan handed to `provider.deploy`, the ids of the executions
      that called it and could not be saved, and the ids of the plans whose stored result comes from
      an execution that called it. */
  datatype Book = Book(plans: map<string, Plan>, calls: seq<Plan>, lost: seq<string>, done: set<string>)

  datatype Event =
    | Prepare(user: string, preparation: Preparation)
    | Approve(approver: string, approved: string)
    | Execute(executed: string, replies: Replies, now: int)

  function Saved(book: Book, plan: Plan, saves: bool): Book {
    if saves then book.(plans := book.plans[plan.id := plan]) else book
  }

  /** One call that passed the permission check; `saves` says whether the snapshot was written. */
  function Step(x: Screen, setup: Setup, backups: map<string, B.Record>, book: Book, e: Event, saves: bool): Book {
    match e
    case Prepare(user, p) =>
      (match Prepared(x, setup, backups, user, p)
       case None => book
       case Some(plan) => if plan.id in book.plans then book else Saved(book, plan, saves))
    case Approve(approver, id) =>
      if id !in book.plans then book
      else (match Approved(book.plans[id], approver)
            case None => book
            case Some(plan) => Saved(book, plan, saves))
    case Execute(id, replies, now) =>
      if id !in book.plans then book
      else
        var plan := book.plans[id];
        var v := Judge(x, setup, backups, plan, replies);
        if v.Raises? then book
        else
          var after := Saved(book, Moved(plan, v, now), saves);
          if !v.deployed then after
          else if saves then after.(calls := book.calls + [plan], done := book.done + {id})
          else after.(calls := book.calls + [plan], lost := book.lost + [id])
  }

  /** What a saved approval changes: a waiting plan of somebody else is approved, and nothing else. */
  lemma ApprovalExactly(x: Screen, setup: Setup, backups: map<string, B.Record>, b: Book, approver: string, id: string)
    requires forall i | i in b.plans :: b.plans[i].id == i
    ensures Step(x, setup, backups, b, Approve(approver, id), true) ==
      if id in b.plans && b.plans[id].requestedBy != approver && b.plans[id].state == AWAITING_APPROVAL
      then b.(plans := b.plans[id := b.plans[id].(state := APPROVED, approvedBy := Some(approver))]) else b
  {
  }

  /** No activation is configured, or its preflight is ready. */
  predicate PreflightPasses(x: Screen, setup: Setup, plan: Plan, r: Replies) {
    setup.activation ==>
      A.ValidActivation(x, PreflightOf(r), ActivationRequest(plan)) && PreflightOf(r).state == A.READY
        && PreflightOf(r).verified
  }

  /** Safe evidence that the activation is blocked by default. */
  predicate SaysBlocked(x: Screen, plan: Plan, e: A.Evidence) {
    A.ValidActivation(x, e, ActivationRequest(plan)) && e.state == A.BLOCKED_BY_DEFAULT
  }

  /** Where an execution that does not verify its plan ends: what was never approved, or is not configured,
      is blocked; bad evidence fails, unless it says that the activation is blocked by default. */
  lemma JudgeExactly(x: Screen, setup: Setup, backups: map<string, B.Record>, plan: Plan, r: Replies)
    requires !(Deployable(x, setup, backups, plan, r) && Confirmed(x, setup, plan, r))
    ensures var v := Judge(x, setup, backups, plan, r);
      && (v == Raises <==>
            || plan.state == BLOCKED || plan.state == FAILED || plan.state == VERIFIED
            || (&& plan.state == APPROVED && PreflightPasses(x, setup, plan, r)
                && setup.provider && setup.backups && setup.backupProvider
                && plan.backupId.Some? && plan.backupId.value !in backups))
      && (plan.state == AWAITING_APPROVAL || plan.state == EXECUTING ==> v == Moves(BLOCKED, NeedsApproval, false))
      && (v.Moves? && plan.state == APPROVED && !PreflightPasses(x, setup, plan, r) ==>
            (v.state == FAILED <==> !SaysBlocked(x, plan, PreflightOf(r))))
      && (v.Moves? && plan.state == APPROVED && PreflightPasses(x, setup, plan, r) ==>
            (v.state == FAILED <==>
              && Deployable(x, setup, backups, plan, r)
              && !(setup.activation && ValidEvidence(x, r.deploy) && ValidEvidence(x, r.validation)
                   && SaysBlocked(x, plan, ActivationOf(r)))))
      && (v.Moves? && v.state != FAILED ==> v.state == BLOCKED)
  {
  }

  /** What a saved execution stores: the judged state and reason, the times, and the health and the
      rollback flag that go with them. */
  lemma ExecutionExactly(x: Screen, setup: Setup, backups: map<string, B.Record>, b: Book, id: string, r: Replies,
      now: int)
    requires id in b.plans && b.plans[id].id == id && Judge(x, setup, backups, b.plans[id], r).Moves?
    ensures var p, v := b.plans[id], Judge(x, setup, backups, b.plans[id], r);
      var n := Step(x, setup, backups, b, Execute(id, r, now), true);
      && n.plans.Keys == b.plans.Keys && (forall i | i in b.plans && i != id :: n.plans[i] == b.plans[i])
      && n.plans[id] == p.(state := v.state, reason := v.reason, startedAt := n.plans[id].startedAt,
                           finishedAt := Some(now), health := n.plans[id].health,
                           rollbackAvailable := n.plans[id].rollbackAvailable)
      && n.plans[id].startedAt == (if p.startedAt == None then Some(now) else p.startedAt)
      && (n.plans[id].health == Healthy <==> v.state == VERIFIED)
      && (n.plans[id].health == Stopped <==> v.state == BLOCKED)
      && (n.plans[id].rollbackAvailable <==> p.rollbackAvailable || p.backupId !in {None, Some("")})
      && n.calls == b.calls + (if v.deployed then [p] else []) && n.lost == b.lost
      && n.done == b.done + if v.deployed then {id} else {}
  {
  }

  class DeploymentManager {
    const screen: Screen
    const setup: Setup
    var plans: map<string, Plan>
    ghost var calls: seq<Plan>
    ghost var lost: seq<string>
    ghost var done: set<string>

    ghost function Now(): Book
      reads this
    {
      Book(plans, calls, lost, done)
    }

    constructor (screen: Screen, setup: Setup)
      ensures this.screen == screen && this.setup == setup && Now() == Book(map[], [], [], {})
    {
      this.screen, this.setup, plans := screen, setup, map[];
      calls, lost, done := [], [], {};
    }

    method PrepareDeployment(user: string, p: Preparation, backups: map<string, B.Record>, saves: bool)
      returns (r: Option<Plan>)
      requires p.id !in plans
      modifies this
      ensures Now() == Step(screen, setup, backups, old(Now()), Prepare(user, p), saves)
      ensures r == if saves then Prepared(screen, setup, backups, user, p) else None
    {
      r := Prepared(screen, setup, backups, user, p);
      if r.Some? && saves {
        plans := plans[p.id := r.value];
      } else {
        r := None;
      }
    }

    method ApproveDeployment(approver: string, id: string, saves: bool) returns (ok: bool)
      requires forall i | i in plans :: plans[i].id == i
      modifies this
      ensures forall backups: map<string, B.Record> ::
        Now() == Step(screen, setup, backups, old(Now()), Approve(approver, id), saves)
      ensures ok <==> saves && id in old(plans) && Approved(old(plans)[id], approver).Some?
    {
      ok := false;
      if id in plans {
        var updated := Approved(plans[id], approver);
        if updated.Some? && saves {
          plans := plans[id := updated.value];
          ok := true;
        }
      }
    }

    /** The plan moves in memory only after its snapshot was saved, but the provider was already
        called by then. */
    method ExecuteDeployment(id: string, backups: map<string, B.Record>, replies: Replies, now: int, saves: bool)
      returns (ok: bool)
      requires forall i | i in plans :: plans[i].id == i
      modifies this
      ensures Now() == Step(screen, setup, backups, old(Now()), Execute(id, replies, now), saves)
      ensures ok <==> saves && id in old(plans) && Judge(screen, setup, backups, old(plans)[id], replies).Moves?
    {
      if id !in plans {
        return false;
      }
      var plan := plans[id];
      var v := Judge(screen, setup, backups, plan, replies);
      if v.Raises? {
        return false;
      }
      if v.deployed {
        calls := calls + [plan];
      }
      if saves {
        plans := plans[id := Moved(plan, v, now)];
        done := if v.deployed then done + {id} else done;
      } else {
        lost := if v.deployed then lost + [id] else lost;
      }
      ok := saves;
    }
  }

  // ----- every run -----

  function Ids(calls: seq<Plan>): seq<string> {
    seq(|calls|, i requires 0 <= i < |calls| => calls[i].id)
  }

  /** How often the provider was called for a plan. */
  function CallsOf(calls: seq<Plan>, id: string): nat {
    multiset(Ids(calls))[id]
  }

  /** Two people agreed on a plan whose eight checks all passed. */
  predicate Agreed(p: Plan) {
    && p.checks.Keys == REQUIRED && AllPassed(p.checks)
    && p.approvedBy.Some? && p.approvedBy.value != p.requestedBy
  }

  ghost predicate SoundPlan(p: Plan, calls: seq<Plan>) {
    && (p.state == AWAITING_APPROVAL ==> p.checks.Keys == REQUIRED && AllPassed(p.checks))
    && (p.state in {APPROVED, VERIFIED} ==> Agreed(p))
    && (p.state == VERIFIED ==>
         exists c :: c in calls && c.id == p.id && p.approvedBy == c.approvedBy && p.commit == c.commit)
    && p.state != EXECUTING
  }

  ghost predicate PlansSound(b: Book) {
    forall id | id in b.plans :: b.plans[id].id == id && SoundPlan(b.plans[id], b.calls)
  }

  ghost predicate CallsSound(b: Book) {
    forall c | c in b.calls :: c.state == APPROVED && Agreed(c) && c.id in b.plans
  }

  /** The exact number of provider calls for one plan: one for every execution whose result was
      lost after the call, and one more when the stored result comes from a call. */
  predicate Counted(b: Book, id: string) {
    CallsOf(b.calls, id) == multiset(b.lost)[id] + if id in b.done then 1 else 0
  }

  /** A plan whose stored result comes from a call is terminal, and a verified one is such a plan. */
  predicate DoneSound(b: Book) {
    && (forall id | id in b.done :: id in b.plans && Terminal(b.plans[id].state))
    && (forall id | id in b.plans && b.plans[id].state == VERIFIED :: id in b.done)
  }

  ghost predicate Sound(b: Book) {
    PlansSound(b) && CallsSound(b) && DoneSound(b) && forall id :: Counted(b, id)
  }

  lemma PrepareSound(x: Screen, setup: Setup, backups: map<string, B.Record>, b: Book, user: string, p: Preparation,
      saves: bool)
    requires Sound(b)
    ensures Sound(Step(x, setup, backups, b, Prepare(user, p), saves))
  {
    var n := Step(x, setup, backups, b, Prepare(user, p), saves);
    if n != b {
      var plan := Prepared(x, setup, backups, user, p).value;
      assert n == b.(plans := b.plans[p.id := plan]);
      forall id | id in n.plans ensures n.plans[id].id == id && SoundPlan(n.plans[id], n.calls) {
        if id != p.id { assert SoundPlan(b.plans[id], b.calls); }
      }
      forall id ensures Counted(n, id) {
        assert Counted(b, id);
      }
    }
  }

  /** What an execution does to the book, with the judgement reduced to what soundness needs. */
  ghost predicate Executes(b: Book, n: Book, plan: Plan, moved: Plan, called: bool, saved: bool) {
    && plan.id in b.plans && b.plans[plan.id] == plan && moved.id == plan.id
    && moved.checks == plan.checks && moved.approvedBy == plan.approvedBy && moved.requestedBy == plan.requestedBy
    && moved.commit == plan.commit && Terminal(moved.state) && !Terminal(plan.state)
    && (called ==> plan.state == APPROVED) && (moved.state == VERIFIED ==> called)
    && n.calls == (if called then b.calls + [plan] else b.calls)
    && n.lost == (if called && !saved then b.lost + [plan.id] else b.lost)
    && n.done == (if called && saved then b.done + {plan.id} else b.done)
    && n.plans == (if saved then b.plans[plan.id := moved] else b.plans)
  }

  lemma ExecutesCounted(b: Book, n: Book, plan: Plan, moved: Plan, called: bool, saved: bool, id: string)
    requires Executes(b, n, plan, moved, called, saved) && Counted(b, id) && DoneSound(b)
    ensures Counted(n, id)
  {
    if called {
      assert Ids(b.calls + [plan]) == Ids(b.calls) + [plan.id];
    }
  }

  lemma ExecutesPlans(b: Book, n: Book, plan: Plan, moved: Plan, called: bool, saved: bool)
    requires Executes(b, n, plan, moved, called, saved) && PlansSound(b) && CallsSound(b)
    ensures PlansSound(n) && CallsSound(n)
  {
    assert SoundPlan(plan, b.calls);
    forall i | i in n.plans ensures n.plans[i].id == i && SoundPlan(n.plans[i], n.calls) {
      if i == plan.id && saved {
        assert called ==> plan in n.calls;
      } else {
        assert SoundPlan(b.plans[i], b.calls);
        assert forall c | c in b.calls :: c in n.calls;
      }
    }
  }

  lemma ExecuteSound(x: Screen, setup: Setup, backups: map<string, B.Record>, b: Book, id: string, r: Replies,
      now: int, saves: bool)
    requires Sound(b)
    ensures Sound(Step(x, setup, backups, b, Execute(id, r, now), saves))
  {
    var n := Step(x, setup, backups, b, Execute(id, r, now), saves);
    if n != b {
      var plan := b.plans[id];
      var v := Judge(x, setup, backups, plan, r);
      var moved := Moved(plan, v, now);
      assert Executes(b, n, plan, moved, v.deployed, saves);
      ExecutesPlans(b, n, plan, moved, v.deployed, saves);
      forall i ensures Counted(n, i) {
        ExecutesCounted(b, n, plan, moved, v.deployed, saves, i);
      }
    }
  }

  lemma ApproveSound(x: Screen, setup: Setup, backups: map<string, B.Record>, b: Book, approver: string, id: string,
      saves: bool)
    requires Sound(b)
    ensures Sound(Step(x, setup, backups, b, Approve(approver, id), saves))
  {
    var n := Step(x, setup, backups, b, Approve(approver, id), saves);
    if n != b {
      forall i | i in n.plans ensures n.plans[i].id == i && SoundPlan(n.plans[i], n.calls) {
        assert SoundPlan(b.plans[i], b.calls);
      }
      forall i ensures Counted(n, i) {
        assert Counted(b, i);
      }
    }
  }

  lemma StepSound(x: Screen, setup: Setup, backups: map<string, B.Record>, b: Book, e: Event, saves: bool)
    requires Sound(b)
    ensures Sound(Step(x, setup, backups, b, e, saves))
  {
    match e {
      case Prepare(user, p) => PrepareSound(x, setup, backups, b, user, p, saves);
      case Approve(approver, id) => ApproveSound(x, setup, backups, b, approver, id, saves);
      case Execute(id, r, now) => ExecuteSound(x, setup, backups, b, id, r, now, saves);
    }
  }

  /** A terminal plan is never changed again. */
  lemma TerminalPlansStay(x: Screen, setup: Setup, backups: map<string, B.Record>, b: Book, e: Event, saves: bool,
      id: string)
    requires Sound(b) && id in b.plans && Terminal(b.plans[id].state)
    ensures var n := Step(x, setup, backups, b, e, saves); id in n.plans && n.plans[id] == b.plans[id]
  {
  }

  /** Saving is what makes it "at most once": an execution whose snapshot is lost after the
      provider call leaves the plan approved, and the provider is called again. */
  lemma LostSaveDeploysAgain(x: Screen, setup: Setup, backups: map<string, B.Record>, b: Book, id: string, r: Replies,
      now: int)
    requires id in b.plans && Deployable(x, setup, backups, b.plans[id], r)
    ensures var once := Step(x, setup, backups, b, Execute(id, r, now), false);
      var twice := Step(x, setup, backups, once, Execute(id, r, now), true);
      twice.calls == b.calls + [b.plans[id], b.plans[id]]
  {
    assert b.calls + [b.plans[id]] + [b.plans[id]] == b.calls + [b.plans[id], b.plans[id]];
  }
}
