/** The rollback workflow: prepare, independent approval, one guarded execution. */
module Rollbacks {
  import opened Texts
  import A = ServiceActivation
  import D = Deployments

  datatype RollbackState = PLANNED | AWAITING_APPROVAL | APPROVED | BLOCKED | VERIFIED

  datatype Reason =
    | NeedsApproval | PreflightUnsafe | PreflightUnverified | Activation(result: A.Field) | ProviderDisabled
    | RollbackFailed | ActivationUnsafe | ActivationUnverified
    | RolledBack(rollback: string) | Activated(rollback: string, activation: A.Field)

  datatype Plan = Plan(
    id: string, project: string, kind: string, target: string, requestedBy: string,
    approvedBy: Option<string>, state: RollbackState, reason: Reason)

  datatype Setup = Setup(activation: bool, provider: bool)

  /** What the collaborators answer during one execution; None when they raise. */
  datatype Replies = Replies(
    preflight: Option<A.Evidence>, rollback: Option<D.ProviderEvidence>, activation: Option<A.Evidence>)

  function Prepared(x: Screen, user: string, id: string, project: string, kind: string, target: string): Option<Plan> {
    if exists s | s in [project, kind, target] :: !x.Safe(s, 512) then None
    else Some(Plan(id, project, kind, target, user, None, AWAITING_APPROVAL, NeedsApproval))
  }

  function Approved(plan: Plan, approver: string): Option<Plan> {
    if plan.requestedBy == approver || plan.state != AWAITING_APPROVAL then None
    else Some(plan.(state := APPROVED, approvedBy := Some(approver)))
  }

  function ActivationRequest(plan: Plan): A.Request {
    A.Request(A.DEFAULT_UNIT, plan.project, "rollback", plan.target, plan.requestedBy,
      if plan.approvedBy.Some? then plan.approvedBy.value else "", plan.id)
  }

  function Raised(result: A.Phrase): A.Evidence {
    A.Evidence(A.Own(A.ManagerFallback), A.DEFAULT_UNIT, "rollback", A.FAILED, A.Own(result), false)
  }

  function PreflightOf(r: Replies): A.Evidence {
    if r.preflight.Some? then r.preflight.value else Raised(A.PreflightRaised)
  }

  function ActivationOf(r: Replies): A.Evidence {
    if r.activation.Some? then r.activation.value else Raised(A.ActivationRaised)
  }

  predicate Terminal(s: RollbackState) {
    s in {BLOCKED, VERIFIED}
  }

  predicate Revertible(x: Screen, setup: Setup, plan: Plan, r: Replies) {
    && plan.state == APPROVED && setup.provider
    && (setup.activation ==>
          var e := PreflightOf(r);
          A.ValidActivation(x, e, ActivationRequest(plan)) && e.state == A.READY && e.verified)
  }

  predicate Confirmed(x: Screen, setup: Setup, plan: Plan, r: Replies) {
    && D.ValidEvidence(x, r.rollback)
    && (setup.activation ==>
          var e := ActivationOf(r);
          A.ValidActivation(x, e, ActivationRequest(plan)) && e.state == A.ACTIVATED && e.verified)
  }

  /** What it takes to call the provider: an approved plan, an enabled provider and, with an activation
      provider, its own ready answer. */
  lemma RevertibleExactly(x: Screen, setup: Setup, plan: Plan, r: Replies)
    ensures Revertible(x, setup, plan, r) <==>
      && plan.state == APPROVED && setup.provider
      && (setup.activation ==>
            && r.preflight.Some? && r.preflight.value.unit == A.Own(A.ControlCenterUnit)
            && r.preflight.value.operation == "rollback" && r.preflight.value.state == A.READY
            && r.preflight.value.verified
            && (r.preflight.value.provider.Foreign? ==> x.Safe(r.preflight.value.provider.text, 512))
            && (r.preflight.value.result.Foreign? ==> x.Safe(r.preflight.value.result.text, 512)))
  {
    A.ActivationAcceptedExactly(x, r.preflight, Raised(A.PreflightRaised), ActivationRequest(plan), A.READY);
  }

  /** What it takes beyond that to verify the plan. */
  lemma ConfirmedExactly(x: Screen, setup: Setup, plan: Plan, r: Replies)
    ensures Confirmed(x, setup, plan, r) <==>
      && r.rollback.Some? && r.rollback.value.verified
      && !Blank(r.rollback.value.provider) && !Blank(r.rollback.value.result)
      && |r.rollback.value.provider| <= 512 && |r.rollback.value.result| <= 512
      && x.Clean(r.rollback.value.provider) && x.Clean(r.rollback.value.result)
      && (setup.activation ==>
            && r.activation.Some? && r.activation.value.unit == A.Own(A.ControlCenterUnit)
            && r.activation.value.operation == "rollback" && r.activation.value.state == A.ACTIVATED
            && r.activation.value.verified
            && (r.activation.value.provider.Foreign? ==> x.Safe(r.activation.value.provider.text, 512))
            && (r.activation.value.result.Foreign? ==> x.Safe(r.activation.value.result.text, 512)))
  {
    D.EvidenceExactly(x, r.rollback);
    A.ActivationAcceptedExactly(x, r.activation, Raised(A.ActivationRaised), ActivationRequest(plan), A.ACTIVATED);
  }

  datatype Verdict = Raises | Moves(state: RollbackState, reason: Reason, called: bool)

  /** The branches of `execute`, with the same four guarantees as for deployments. */
  function Judge(x: Screen, setup: Setup, plan: Plan, r: Replies): (v: Verdict)
    ensures (v.Moves? && v.called) <==> Revertible(x, setup, plan, r)
    ensures (v.Moves? && v.state == VERIFIED) <==> Revertible(x, setup, plan, r) && Confirmed(x, setup, plan, r)
    ensures v.Moves? ==> Terminal(v.state)
    ensures Terminal(plan.state) ==> v == Raises
  {
    var request := ActivationRequest(plan);
    var preflight := PreflightOf(r);
    if plan.state != APPROVED then
      if Terminal(plan.state) then Raises else Moves(BLOCKED, NeedsApproval, false)
    else if setup.activation && !A.ValidActivation(x, preflight, request) then Moves(BLOCKED, PreflightUnsafe, false)
    else if setup.activation && preflight.state == A.READY && !preflight.verified
      then Moves(BLOCKED, PreflightUnverified, false)
    else if setup.activation && preflight.state != A.READY then Moves(BLOCKED, Activation(preflight.result), false)
    else if !setup.provider then Moves(BLOCKED, ProviderDisabled, false)
    else if !D.ValidEvidence(x, r.rollback) then Moves(BLOCKED, RollbackFailed, true)
    else if !setup.activation then Moves(VERIFIED, RolledBack(r.rollback.value.result), true)
    else
      var activation := ActivationOf(r);
      if !A.ValidActivation(x, activation, request) then Moves(BLOCKED, ActivationUnsafe, true)
      else if activation.state == A.ACTIVATED && !activation.verified then Moves(BLOCKED, ActivationUnverified, true)
      else if activation.state != A.ACTIVATED then Moves(BLOCKED, Activation(activation.result), true)
      else Moves(VERIFIED, Activated(r.rollback.value.result, activation.result), true)
  }

  // ----- the book of plans -----

  /** As for deployments: `lost` are the executions that called the provider and could not be saved,
      `done` the plans whose stored result comes from a call. */
  datatype Book = Book(plans: map<string, Plan>, calls: seq<Plan>, lost: seq<string>, done: set<string>)

  datatype Event =
    | Prepare(user: string, id: string, project: string, kind: string, target: string)
    | Approve(approver: string, approved: string)
    | Execute(executed: string, replies: Replies)

  function Saved(book: Book, plan: Plan, saves: bool): Book {
    if saves then book.(plans := book.plans[plan.id := plan]) else book
  }

  function Step(x: Screen, setup: Setup, book: Book, e: Event, saves: bool): Book {
    match e
    case Prepare(user, id, project, kind, target) =>
      (match Prepared(x, user, id, project, kind, target)
       case None => book
       case Some(plan) => if id in book.plans then book else Saved(book, plan, saves))
    case Approve(approver, id) =>
      if id !in book.plans then book
      else (match Approved(book.plans[id], approver)
            case None => book
            case Some(plan) => Saved(book, plan, saves))
    case Execute(id, replies) =>
      if id !in book.plans then book
      else
        var plan := book.plans[id];
        var v := Judge(x, setup, plan, replies);
        if v.Raises? then book
        else
          var after := Saved(book, plan.(state := v.state, reason := v.reason), saves);
          if !v.called then after
          else if saves then after.(calls := book.calls + [plan], done := book.done + {id})
          else after.(calls := book.calls + [plan], lost := book.lost + [id])
  }

  /** A saved preparation adds a plan that waits for approval, if its three texts are safe. */
  lemma PrepareExactly(x: Screen, setup: Setup, b: Book, user: string, id: string, project: string, kind: string,
      target: string)
    ensures Step(x, setup, b, Prepare(user, id, project, kind, target), true) ==
      if x.Safe(project, 512) && x.Safe(kind, 512) && x.Safe(target, 512) && id !in b.plans
      then b.(plans := b.plans[id := Plan(id, project, kind, target, user, None, AWAITING_APPROVAL, NeedsApproval)])
      else b
  {
    assert project in [project, kind, target] && kind in [project, kind, target] && target in [project, kind, target];
  }

  /** A saved approval changes a waiting plan of somebody else, and nothing besides. */
  lemma ApprovalExactly(x: Screen, setup: Setup, b: Book, approver: string, id: string)
    requires forall i | i in b.plans :: b.plans[i].id == i
    ensures Step(x, setup, b, Approve(approver, id), true) ==
      if id in b.plans && b.plans[id].requestedBy != approver && b.plans[id].state == AWAITING_APPROVAL
      then b.(plans := b.plans[id := b.plans[id].(state := APPROVED, approvedBy := Some(approver))]) else b
  {
  }

  /** A saved execution moves a plan that is neither blocked nor verified: to verified exactly when it is
      revertible and confirmed, and to blocked otherwise. */
  lemma ExecutionExactly(x: Screen, setup: Setup, b: Book, id: string, r: Replies)
    requires id in b.plans && b.plans[id].id == id
    ensures var p, n := b.plans[id], Step(x, setup, b, Execute(id, r), true);
      if p.state == BLOCKED || p.state == VERIFIED then n == b
      else
        var called := Revertible(x, setup, p, r);
        && n.plans.Keys == b.plans.Keys && (forall i | i in b.plans && i != id :: n.plans[i] == b.plans[i])
        && n.plans[id] == p.(state := n.plans[id].state, reason := n.plans[id].reason)
        && n.plans[id].state == (if called && Confirmed(x, setup, p, r) then VERIFIED else BLOCKED)
        && n.calls == b.calls + (if called then [p] else []) && n.lost == b.lost
        && n.done == b.done + if called then {id} else {}
  {
  }

  class RollbackManager {
    const screen: Screen
    const setup: Setup
    var plans: map<string, Plan>
    ghost var calls: seq<Plan>
    ghost var lost: seq<string>
    ghost var done: set<string>

    ghost function Now(): Book
      reads this
    {
      Book(plans, calls, lost, done)
    }

    constructor (screen: Screen, setup: Setup)
      ensures this.screen == screen && this.setup == setup && Now() == Book(map[], [], [], {})
    {
      this.screen, this.setup, plans := screen, setup, map[];
      calls, lost, done := [], [], {};
    }

    method Handle(event: Event, saves: bool)
      requires forall i | i in plans :: plans[i].id == i
      modifies this
      ensures Now() == Step(screen, setup, old(Now()), event, saves)
    {
      match event {
        case Prepare(user, id, project, kind, target) =>
          var plan := Prepared(screen, user, id, project, kind, target);
          if plan.Some? && id !in plans && saves {
            plans := plans[id := plan.value];
          }
        case Approve(approver, id) =>
          if id in plans {
            var plan := Approved(plans[id], approver);
            if plan.Some? && saves {
              plans := plans[id := plan.value];
            }
          }
        case Execute(id, replies) =>
          if id in plans {
            var plan := plans[id];
            var v := Judge(screen, setup, plan, replies);
            if v.Moves? {
              if v.called {
                calls := calls + [plan];
              }
              if saves {
                plans := plans[id := plan.(state := v.state, reason := v.reason)];
                done := if v.called then done + {id} else done;
              } else {
                lost := if v.called then lost + [id] else lost;
              }
            }
          }
      }
    }
  }

  // ----- every run -----

  function Ids(calls: seq<Plan>): seq<string> {
    seq(|calls|, i requires 0 <= i < |calls| => calls[i].id)
  }

  function CallsOf(calls: seq<Plan>, id: string): nat {
    multiset(Ids(calls))[id]
  }

  predicate Counted(b: Book, id: string) {
    CallsOf(b.calls, id) == multiset(b.lost)[id] + if id in b.done then 1 else 0
  }

  predicate DoneSound(b: Book) {
    && (forall id | id in b.done :: id in b.plans && Terminal(b.plans[id].state))
    && (forall id | id in b.plans && b.plans[id].state == VERIFIED :: id in b.done)
  }

  predicate Agreed(p: Plan) {
    p.approvedBy.Some? && p.approvedBy.value != p.requestedBy
  }

  ghost predicate SoundPlan(p: Plan, calls: seq<Plan>) {
    && (p.state in {APPROVED, VERIFIED} ==> Agreed(p))
    && (p.state == VERIFIED ==>
         exists c :: c in calls && c.id == p.id && c.approvedBy == p.approvedBy && c.target == p.target)
  }

  ghost predicate Sound(b: Book) {
    && (forall id | id in b.plans :: b.plans[id].id == id && SoundPlan(b.plans[id], b.calls))
    && (forall c | c in b.calls :: c.state == APPROVED && Agreed(c) && c.id in b.plans)
    && DoneSound(b) && (forall id :: Counted(b, id))
  }

  lemma PlanStored(b: Book, n: Book, plan: Plan)
    requires Sound(b) && n == b.(plans := b.plans[plan.id := plan])
    requires plan.id in b.plans ==> !Terminal(b.plans[plan.id].state)
    requires !Terminal(plan.state) && (plan.state == APPROVED ==> Agreed(plan))
    ensures Sound(n)
  {
    forall id | id in n.plans ensures n.plans[id].id == id && SoundPlan(n.plans[id], n.calls) {
      if id != plan.id { assert SoundPlan(b.plans[id], b.calls); }
    }
    forall id ensures Counted(n, id) {
      assert Counted(b, id);
    }
  }

  lemma ExecuteCounted(b: Book, n: Book, plan: Plan, moved: Plan, called: bool, saved: bool, id: string)
    requires Counted(b, id) && DoneSound(b) && plan.id in b.plans && b.plans[plan.id] == plan && moved.id == plan.id
    requires Terminal(moved.state) && !Terminal(plan.state)
    requires n == Book(if saved then b.plans[plan.id := moved] else b.plans,
      if called then b.calls + [plan] else b.calls, if called && !saved then b.lost + [plan.id] else b.lost,
      if called && saved then b.done + {plan.id} else b.done)
    ensures Counted(n, id)
  {
    if called {
      assert Ids(b.calls + [plan]) == Ids(b.calls) + [plan.id];
    }
  }

  lemma ExecuteSound(x: Screen, setup: Setup, b: Book, id: string, r: Replies, saves: bool)
    requires Sound(b)
    ensures Sound(Step(x, setup, b, Execute(id, r), saves))
  {
    var n := Step(x, setup, b, Execute(id, r), saves);
    if n != b {
      var plan := b.plans[id];
      var v := Judge(x, setup, plan, r);
      assert SoundPlan(plan, b.calls);
      forall i | i in n.plans ensures n.plans[i].id == i && SoundPlan(n.plans[i], n.calls) {
        if i == id && saves {
          assert v.called ==> plan in n.calls;
        } else {
          assert SoundPlan(b.plans[i], b.calls);
          assert forall c | c in b.calls :: c in n.calls;
        }
      }
      forall i ensures Counted(n, i) {
        ExecuteCounted(b, n, plan, plan.(state := v.state, reason := v.reason), v.called, saves, i);
      }
    }
  }

  /** What every call keeps: the exact number of provider calls of every plan, only agreed plans
      reach the provider, and a VERIFIED plan did. */
  lemma StepSound(x: Screen, setup: Setup, b: Book, e: Event, saves: bool)
    requires Sound(b)
    ensures Sound(Step(x, setup, b, e, saves))
  {
    var n := Step(x, setup, b, e, saves);
    match e {
      case Prepare(user, id, project, kind, target) =>
        if n != b { PlanStored(b, n, Prepared(x, user, id, project, kind, target).value); }
      case Approve(approver, id) =>
        if n != b {
          assert SoundPlan(b.plans[id], b.calls);
          PlanStored(b, n, Approved(b.plans[id], approver).value);
        }
      case Execute(id, r) => ExecuteSound(x, setup, b, id, r, saves);
    }
  }
}
