/** The operation service as an object over the approval store. */
module OperationService {
  import opened Texts
  import opened Digests
  import opened Manifest
  import opened Operations
  import Approvals
  import Store = ApprovalStore
  import Policy
  import B = Backups

  /** Plans are kept under their own ids. */
  lemma OwnId(x: Screen, s: Operations.Service, id: string)
    requires Lockstep(x, s) && id in s.plans
    ensures s.plans[id].planId == id
  {
    assert PlanHolds(x, id, s.plans[id], s.requests);
  }

  class Service {
    const config: Config
    const approvals: Store.JsonApprovalStore
    var plans: map<string, Plan>

    ghost function Now(): Operations.Service
      reads this, approvals
    {
      Operations.Service(plans, approvals.requests)
    }

    ghost predicate Valid()
      reads this, approvals
    {
      approvals.screen == config.screen && approvals.Synced() && Lockstep(config.screen, Now())
    }

    constructor (config: Config, approvals: Store.JsonApprovalStore)
      requires approvals.screen == config.screen && approvals.Synced() && Store.StoreSound(approvals.requests)
      ensures Valid() && this.config == config && this.approvals == approvals && plans == map[]
    {
      this.config, this.approvals, plans := config, approvals, map[];
    }

    /** The approval request is created before the plan is stored. */
    method PlanOperation(user: User, ask: Ask, planId: string, requestId: string, approvalSaves: bool, ctx: Context)
      returns (r: Option<Plan>)
      requires Valid() && UnusedIds(Now(), PlanIt(user, ask, planId, requestId, approvalSaves))
      modifies this, approvals
      ensures Valid() && Now() == Step(config, old(Now()), PlanIt(user, ask, planId, requestId, approvalSaves), ctx)
      ensures r.Some? <==> planId in plans
      ensures r.Some? ==> plans == old(plans)[planId := r.value]
    {
      ghost var event := PlanIt(user, ask, planId, requestId, approvalSaves);
      StepKeeps(config, Now(), event, ctx);
      var assessed := Assess(config, ask.action, ask.commandId);
      if !AskSafe(config, ask) || assessed == None {
        return None;
      }
      var d := assessed.value;
      var created := Create(config.screen, PayloadOf(config, user, ask, planId, d, ctx.text));
      if created == None {
        return None;
      }
      r := Register(user, ask, planId, requestId, approvalSaves, ctx, d, created.value);
    }

    /** The approval request, if one is demanded, and then the plan. */
    method Register(user: User, ask: Ask, planId: string, requestId: string, approvalSaves: bool, ctx: Context,
                    d: Policy.PolicyDecision, m: Manifest) returns (r: Option<Plan>)
      requires approvals.screen == config.screen && approvals.Synced()
      requires UnusedIds(Now(), PlanIt(user, ask, planId, requestId, approvalSaves))
      modifies this, approvals
      ensures approvals.Synced()
      ensures Now() == Planned(config, old(Now()), PlanIt(user, ask, planId, requestId, approvalSaves), ctx, d, m)
      ensures r.Some? <==> planId in plans
      ensures r.Some? ==> plans == old(plans)[planId := r.value]
    {
      var plan := NewPlan(config, user, ask, planId, d, m, None);
      if d.decision == Policy.APPROVAL_REQUIRED {
        var request := approvals.CreateRequest(DraftOf(config, user, ask, m, d), requestId, "", false, ctx.now,
          approvalSaves);
        if request.Refused? {
          return None;
        }
        plan := plan.(approvalId := Some(requestId));
      }
      if !ctx.saves {
        return None;
      }
      plans := plans[planId := plan];
      r := Some(plan);
    }

    /** The request is approved first; a refusal there leaves the plan alone. */
    method ApproveOperation(approver: User, planId: string, reason: string, refreshSaves: bool, decisionSaves: bool,
        ctx: Context)
      returns (ok: bool)
      requires Valid()
      modifies this, approvals
      ensures Valid() && Now() ==
        Step(config, old(Now()), ApproveIt(approver, planId, reason, refreshSaves, decisionSaves), ctx)
      ensures ok ==>
        planId in plans && plans[planId].state == State.APPROVED && old(plans)[planId].actorId != approver.id
    {
      StepKeeps(config, Now(), ApproveIt(approver, planId, reason, refreshSaves, decisionSaves), ctx);
      if planId in plans {
        OwnId(config.screen, Now(), planId);
      }
      ok := Approve(approver, planId, reason, refreshSaves, decisionSaves, ctx);
    }

    method Approve(approver: User, planId: string, reason: string, refreshSaves: bool, decisionSaves: bool,
        ctx: Context) returns (ok: bool)
      requires approvals.screen == config.screen && approvals.Synced()
      requires planId in plans ==> plans[planId].planId == planId
      modifies this, approvals
      ensures approvals.Synced()
      ensures Now() == Step(config, old(Now()), ApproveIt(approver, planId, reason, refreshSaves, decisionSaves), ctx)
      ensures ok ==>
        planId in plans && plans[planId].state == State.APPROVED && old(plans)[planId].actorId != approver.id
    {
      if planId !in plans {
        return false;
      }
      var plan := plans[planId];
      if plan.actorId == approver.id || plan.state != APPROVAL_REQUIRED || plan.approvalId == None
         || !config.screen.Safe(reason, 512) {
        return false;
      }
      var request := approvals.DecideRequest(plan.approvalId.value,
        Approvals.Ruling(true, approver.name, approver.role, reason), ctx.now, refreshSaves, decisionSaves);
      if request.Refused? {
        return false;
      }
      var updated := Transition(config.screen, plan, State.APPROVED, Changes(None, Some(ctx.text)));
      if updated == None || !ctx.saves {
        return false;
      }
      plans := plans[planId := updated.value];
      ok := true;
    }

    method AttachVerifiedBackup(planId: string, backup: string, records: map<string, B.Record>, ctx: Context)
      returns (ok: bool)
      requires Valid()
      modifies this
      ensures Valid() && Now() == Step(config, old(Now()), AttachBackup(planId, backup, records), ctx)
      ensures ok ==> config.backups ==> backup in records && B.IsVerified(records[backup])
    {
      StepKeeps(config, Now(), AttachBackup(planId, backup, records), ctx);
      if planId in plans {
        OwnId(config.screen, Now(), planId);
      }
      ok := Attach(planId, backup, records, ctx);
    }

    method Attach(planId: string, backup: string, records: map<string, B.Record>, ctx: Context) returns (ok: bool)
      requires planId in plans ==> plans[planId].planId == planId
      modifies this
      ensures Now() == Step(config, old(Now()), AttachBackup(planId, backup, records), ctx)
      ensures ok ==> config.backups ==> backup in records && B.IsVerified(records[backup])
    {
      if planId !in plans || plans[planId].state != State.APPROVED {
        return false;
      }
      if config.backups && (backup !in records || !B.IsVerified(records[backup])) {
        return false;
      }
      if !config.screen.Safe(backup, 512) {
        return false;
      }
      var updated := Transition(config.screen, plans[planId], State.READY, Changes(Some(backup), None));
      if updated == None || !ctx.saves {
        return false;
      }
      plans := plans[planId := updated.value];
      ok := true;
    }

    /** Real execution is disabled: every request ends in BLOCKED_BY_DEFAULT. */
    method ExecuteOperation(planId: string, ctx: Context) returns (ok: bool)
      requires Valid()
      modifies this
      ensures Valid() && Now() == Step(config, old(Now()), ExecuteIt(planId), ctx)
      ensures ok ==> planId in plans && plans[planId].state == BLOCKED_BY_DEFAULT
    {
      StepKeeps(config, Now(), ExecuteIt(planId), ctx);
      if planId !in plans {
        return false;
      }
      OwnId(config.screen, Now(), planId);
      var updated := Blocked(config, plans[planId]);
      if updated == None || !ctx.saves {
        return false;
      }
      plans := plans[planId := updated.value];
      ok := true;
    }
  }
}
