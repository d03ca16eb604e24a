/** The last stage: one request to the injected provider, and the record of what came of it. */
module ControlledExecution {
  import opened Texts
  import opened Digests
  import opened Policy
  import opened ExecutionChain

  datatype Permission = RUN_READ_SAFE | RUN_READ_SENSITIVE | RUN_PRIVILEGED | DEPLOY | OtherPermission(name: string)

  datatype Account = Account(username: string, permissions: set<Permission>)

  /** `required_execution_permission`: only a read of a known command needs less than a deployment. */
  function RequiredPermission(e: Engine, action: string, commandId: string): (p: Permission)
    ensures p == RUN_READ_SAFE <==> action == "read" && commandId in e.catalog && e.catalog[commandId].kind == READ_SAFE
  {
    if action != "read" || commandId !in e.catalog then DEPLOY
    else match e.catalog[commandId].kind
      case READ_SAFE => RUN_READ_SAFE
      case READ_SENSITIVE => RUN_READ_SENSITIVE
      case READ_PRIVILEGED => RUN_PRIVILEGED
      case FORBIDDEN => RUN_PRIVILEGED
  }

  /** `require` of a session: `user` is who holds it, None when nobody does. */
  predicate Authorized(user: Option<Account>, p: Permission) {
    user.Some? && p in user.value.permissions
  }

  /** `not _unsafe_metadata(value)` */
  predicate Submittable(x: Screen, t: string) {
    x.Clean(t) && |t| <= 256 && '\r' !in t && '\n' !in t && '\0' !in t
  }

  // ----- the provider -----

  datatype Evidence = Evidence(provider: string, result: string, durationMs: Option<int>)

  /** What the provider would answer: an exception, something that is no evidence, or evidence. */
  datatype Reply = Raised(name: string) | NoEvidence | Replied(evidence: Evidence)

  predicate ValidEvidence(x: Screen, v: Evidence) {
    && Submittable(x, v.provider) && Submittable(x, v.result) && !Blank(v.provider) && !Blank(v.result)
    && (v.durationMs.Some? ==> 0 <= v.durationMs.value <= 86_400_000)
  }

  datatype ProviderCall = ProviderCall(actor: string, action: string, commandId: string)

  datatype ControlledState = BLOCKED_BY_DEFAULT | REJECTED | PROVIDER_COMPLETED | PROVIDER_FAILED

  /** `Unauthorized` leaves no record; otherwise the state of the record, the provider call made and
      the provider named in the record. */
  datatype Submission = Unauthorized | Settled(state: ControlledState, call: Option<ProviderCall>,
      provider: Option<string>)

  predicate InScope(e: Engine, g: GateDecision) {
    && g.action == "read" && g.risk == LOW && g.commandId in e.catalog
    && e.catalog[g.commandId] == Spec(READ_SAFE, false)
  }

  predicate TextsSubmittable(x: Screen, g: GateDecision) {
    && Submittable(x, g.actor) && Submittable(x, g.action) && Submittable(x, g.commandId)
    && (g.approvalId.Some? ==> Submittable(x, g.approvalId.value))
  }

  /** `request`; `offer` is the reply of the provider, None when it is disabled or missing.  A record
      is completed exactly when a call was made and answered with valid evidence. */
  function Submit(x: Screen, e: Engine, user: Option<Account>, g: GateDecision, offer: Option<Reply>): (s: Submission)
    ensures s.Settled? <==> Authorized(user, RequiredPermission(e, g.action, g.commandId))
    ensures s.Settled? && s.call.Some? <==>
      && Authorized(user, RUN_READ_SAFE) && g.state == Eligible && NonEmpty(g.approvalId)
      && TextsSubmittable(x, g) && InScope(e, g) && offer.Some?
    ensures s.Settled? && s.call.Some? ==> s.call.value == ProviderCall(g.actor, g.action, g.commandId)
    ensures s.Settled? && s.state == PROVIDER_COMPLETED <==>
      s.Settled? && s.call.Some? && offer.value.Replied? && ValidEvidence(x, offer.value.evidence)
  {
    if !Authorized(user, RequiredPermission(e, g.action, g.commandId)) then Unauthorized
    else if !TextsSubmittable(x, g) then Settled(ControlledState.REJECTED, None, None)
    else if g.state != Eligible then Settled(ControlledState.REJECTED, None, None)
    else if !NonEmpty(g.approvalId) then Settled(ControlledState.REJECTED, None, None)
    else if g.action != "read" || g.risk != LOW then Settled(ControlledState.REJECTED, None, None)
    else if g.commandId !in e.catalog || e.catalog[g.commandId].kind != READ_SAFE || e.catalog[g.commandId].sudo
      then Settled(ControlledState.REJECTED, None, None)
    else if offer == None then Settled(BLOCKED_BY_DEFAULT, None, None)
    else
      var call := Some(ProviderCall(g.actor, g.action, g.commandId));
      match offer.value
      case Raised(name) => Settled(PROVIDER_FAILED, call, Some(name))
      case NoEvidence => Settled(ControlledState.REJECTED, call, None)
      case Replied(v) =>
        if ValidEvidence(x, v) then Settled(PROVIDER_COMPLETED, call, Some(x.redact(v.provider)))
        else Settled(ControlledState.REJECTED, call, None)
  }

  /** The permission that each request needs. */
  lemma PermissionExactly(e: Engine, action: string, commandId: string)
    ensures var p := RequiredPermission(e, action, commandId);
      if action != "read" || commandId !in e.catalog then p == DEPLOY
      else
        var kind := e.catalog[commandId].kind;
        && (kind == READ_SAFE ==> p == RUN_READ_SAFE) && (kind == READ_SENSITIVE ==> p == RUN_READ_SENSITIVE)
        && (kind == READ_PRIVILEGED || kind == FORBIDDEN ==> p == RUN_PRIVILEGED)
  {
  }

  /** Everything a request must meet before the provider is asked: an eligible decision with an approval id,
      a low-risk read of a read-safe command without elevation, and short clean texts. */
  predicate Passes(x: Screen, e: Engine, g: GateDecision) {
    && g.state == Eligible && g.approvalId !in {None, Some("")} && g.action == "read" && g.risk == LOW
    && g.commandId in e.catalog && e.catalog[g.commandId].kind == READ_SAFE && !e.catalog[g.commandId].sudo
    && forall t | t in [g.actor, g.action, g.commandId, g.approvalId.value] ::
         !x.secret(t) && !x.raw(t) && |t| <= 256 && '\r' !in t && '\n' !in t && '\0' !in t
  }

  lemma PassesExactly(x: Screen, e: Engine, g: GateDecision)
    ensures Passes(x, e, g) <==>
      g.state == Eligible && NonEmpty(g.approvalId) && TextsSubmittable(x, g) && InScope(e, g)
  {
    if NonEmpty(g.approvalId) {
      var ts := [g.actor, g.action, g.commandId, g.approvalId.value];
      assert ts[0] in ts && ts[1] in ts && ts[2] in ts && ts[3] in ts;
    }
  }

  /** Where a request ends: nowhere without the permission; rejected unless it passes; blocked while there is
      no provider; otherwise as the provider answers, completed only with visible clean evidence and a
      duration within one day. */
  lemma SubmitExactly(x: Screen, e: Engine, user: Option<Account>, g: GateDecision, offer: Option<Reply>)
    ensures var s := Submit(x, e, user, g, offer);
      && (s == Unauthorized <==>
           user == None || RequiredPermission(e, g.action, g.commandId) !in user.value.permissions)
      && (s.Settled? && !Passes(x, e, g) ==> s == Settled(ControlledState.REJECTED, None, None))
      && (s.Settled? && Passes(x, e, g) && offer == None ==> s == Settled(BLOCKED_BY_DEFAULT, None, None))
      && (s.Settled? && Passes(x, e, g) && offer.Some? ==>
            && s.call == Some(ProviderCall(g.actor, "read", g.commandId))
            && match offer.value
               case Raised(name) => s.state == PROVIDER_FAILED && s.provider == Some(name)
               case NoEvidence => s.state == ControlledState.REJECTED && s.provider == None
               case Replied(v) =>
                 if Convincing(x, v) then s.state == PROVIDER_COMPLETED && s.provider == Some(x.redact(v.provider))
                 else s.state == ControlledState.REJECTED && s.provider == None)
  {
    PassesExactly(x, e, g);
  }

  predicate Convincing(x: Screen, v: Evidence) {
    && (exists i | 0 <= i < |v.provider| :: !Space(v.provider[i]))
    && (exists i | 0 <= i < |v.result| :: !Space(v.result[i]))
    && |v.provider| <= 256 && |v.result| <= 256 && x.Clean(v.provider) && x.Clean(v.result)
    && '\r' !in v.provider + v.result && '\n' !in v.provider + v.result && '\0' !in v.provider + v.result
    && (v.durationMs == None || 0 <= v.durationMs.value <= 24 * 60 * 60 * 1000)
  }

  // ----- the service -----

  /** A record, without its sentence. */
  datatype Record = Record(
    id: string, actor: string, action: string, commandId: string, risk: Risk, approvalId: Option<string>,
    state: ControlledState, provider: Option<string>)

  function RecordOf(x: Screen, id: string, g: GateDecision, s: ControlledState, provider: Option<string>): Record {
    Record(id, x.redact(g.actor), x.redact(g.action), x.redact(g.commandId), g.risk,
      if NonEmpty(g.approvalId) then Some(x.redact(g.approvalId.value)) else None,
      s, if NonEmpty(provider) then Some(x.redact(provider.value)) else None)
  }

  class ControlledExecutionService {
    const screen: Screen
    const engine: Engine
    const enabled: bool
    var records: seq<Record>
    var saved: seq<Record>
    /** Every call that reached the provider. */
    ghost var calls: seq<ProviderCall>

    constructor (screen: Screen, engine: Engine, enabled: bool)
      ensures this.screen == screen && this.engine == engine && this.enabled == enabled
      ensures records == [] && saved == [] && calls == []
    {
      this.screen, this.engine, this.enabled := screen, engine, enabled;
      records, saved, calls := [], [], [];
    }

    /** `_record` appends before it saves and does not take the record back when the save fails. */
    method Put(id: string, g: GateDecision, state: ControlledState, provider: Option<string>, saves: bool)
      modifies this`records, this`saved
      ensures records == old(records) + [RecordOf(screen, id, g, state, provider)]
      ensures saved == if saves then records else old(saved)
    {
      records := records + [RecordOf(screen, id, g, state, provider)];
      if saves {
        saved := records;
      }
    }

    /** One request.  It adds one record exactly when the session may make it, and the provider is
        called as the submission says.  The record is returned only when it was saved and audited; it
        stays in memory in any case. */
    method Request(user: Option<Account>, g: GateDecision, provider: Option<Reply>, id: string, saves: bool,
        audited: bool)
      returns (s: Submission, returned: bool)
      modifies this
      ensures s == Submit(screen, engine, user, g, if enabled then provider else None)
      ensures s == Unauthorized ==> records == old(records) && saved == old(saved)
      ensures s.Settled? ==> records == old(records) + [RecordOf(screen, id, g, s.state, s.provider)]
      ensures s.Settled? ==> saved == if saves then records else old(saved)
      ensures returned <==> s.Settled? && saves && audited
      ensures calls == old(calls) + if s.Settled? && s.call.Some? then [s.call.value] else []
    {
      s, returned := Unauthorized, false;
      if !Authorized(user, RequiredPermission(engine, g.action, g.commandId)) {
        return;
      }
      var refused := !TextsSubmittable(screen, g) || g.state != Eligible || !NonEmpty(g.approvalId)
        || g.action != "read" || g.risk != LOW
        || g.commandId !in engine.catalog || engine.catalog[g.commandId].kind != READ_SAFE
        || engine.catalog[g.commandId].sudo;
      if refused {
        Put(id, g, ControlledState.REJECTED, None, saves);
        return Settled(ControlledState.REJECTED, None, None), saves && audited;
      }
      if !enabled || provider == None {
        Put(id, g, BLOCKED_BY_DEFAULT, None, saves);
        return Settled(BLOCKED_BY_DEFAULT, None, None), saves && audited;
      }
      returned := saves && audited;
      var call := ProviderCall(g.actor, g.action, g.commandId);
      calls := calls + [call];
      match provider.value {
        case Raised(name) =>
          Put(id, g, PROVIDER_FAILED, Some(name), saves);
          s := Settled(PROVIDER_FAILED, Some(call), Some(name));
        case NoEvidence =>
          Put(id, g, ControlledState.REJECTED, None, saves);
          s := Settled(ControlledState.REJECTED, Some(call), None);
        case Replied(v) =>
          if ValidEvidence(screen, v) {
            Put(id, g, PROVIDER_COMPLETED, Some(screen.redact(v.provider)), saves);
            s := Settled(PROVIDER_COMPLETED, Some(call), Some(screen.redact(v.provider)));
          } else {
            Put(id, g, ControlledState.REJECTED, None, saves);
            s := Settled(ControlledState.REJECTED, Some(call), None);
          }
      }
    }
  }
}
