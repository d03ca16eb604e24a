/** Approval requests: how they are built, decided, expired, stored and read back. */
module Approvals {
  import opened Texts
  import opened Digests

  datatype Request = Request(
    id: string, timestamp: int, actor: string, action: string, risk: Risk, commandId: Option<string>,
    reason: string, status: ApprovalStatus, decidedBy: Option<string>, decidedAt: Option<int>,
    decidedByRole: Option<string>, snapshot: Snapshot, approvalHash: Option<HashText>)

  /** What a caller asks for. */
  datatype Draft = Draft(
    actor: string, action: string, risk: Risk, reason: string, commandId: Option<string>,
    actorRole: string, policyVersion: string, permissions: seq<string>, resource: string,
    planId: Option<string>, expiresAt: Option<Stamp>, operationId: Option<string>,
    branch: Option<string>, commit: Option<string>, backupId: Option<string>,
    commands: seq<string>, files: seq<string>, servicesAffected: seq<string>, impact: seq<string>,
    operationHash: Option<HashText>, planHash: Option<HashText>, approvalHash: Option<string>,
    executionHash: Option<HashText>)

  /** 24 hours in the unit of the clock. */
  const DAY := 86_400_000_000

  // ----- text checks -----

  predicate SafeOption(x: Screen, t: Option<string>) {
    t.Some? ==> x.Safe(t.value, 512)
  }

  predicate SafeHash(x: Screen, h: Option<HashText>) {
    h.Some? ==> match h.value
      case Empty => false
      case Digest(_) => true
      case Written(t) => x.Safe(t, 512)
  }

  predicate SafeList(x: Screen, l: seq<string>) {
    |l| <= 128 && forall t | t in l :: x.Safe(t, 512)
  }

  /** The stripped, non-blank permissions; a sorted tuple without repetition is a set here. */
  function Normalized(values: seq<string>): set<string> {
    set v | v in values && !Blank(v) :: Strip(v)
  }

  predicate PermissionsAccepted(x: Screen, values: seq<string>) {
    |Normalized(values)| == |values| && forall p | p in Normalized(values) :: x.Safe(p, 512)
  }

  // ----- building -----

  function Given(t: Option<string>): Option<string> {
    if t == Some("") then None else t
  }

  /** `_build_request` for a pending or a policy-denied request; `newPlan` is the generated plan id. */
  function Built(x: Screen, d: Draft, id: string, newPlan: string, denied: bool, now: int): Option<Request> {
    var plan := if Given(d.planId).Some? then d.planId.value else newPlan;
    var expiry := if d.expiresAt.Some? then d.expiresAt.value else Aware(now + DAY);
    if !PermissionsAccepted(x, d.permissions) || !x.Safe(d.actorRole, 512) || !x.Safe(d.policyVersion, 512)
       || !x.Safe(d.resource, 512) || !x.Safe(plan, 512) || expiry.Unusable?
       || (d.policyVersion != "legacy" && Normalized(d.permissions) == {}) then None
    else if !SafeOption(x, d.operationId) || !SafeOption(x, d.branch) || !SafeOption(x, d.commit)
       || !SafeOption(x, d.backupId) || !SafeOption(x, d.approvalHash)
       || !SafeHash(x, d.operationHash) || !SafeHash(x, d.planHash) || !SafeHash(x, d.executionHash) then None
    else if !SafeList(x, d.commands) || !SafeList(x, d.files) || !SafeList(x, d.servicesAffected)
      || !SafeList(x, d.impact) then None
    else
      var snapshot := Snapshot(
        d.actorRole, d.policyVersion, Normalized(d.permissions), d.resource, Some(plan), Some(expiry),
        if d.operationId.Some? then d.operationId else Some(plan), d.branch, d.commit, d.backupId,
        d.commands, d.files, d.servicesAffected, d.impact, d.operationHash, d.planHash, d.executionHash);
      Some(Request(
        id, now, x.redact(d.actor), x.redact(d.action), d.risk,
        if Given(d.commandId).Some? then Some(x.redact(d.commandId.value)) else None,
        x.redact(d.reason), if denied then DENIED else PENDING,
        if denied then Some("policy") else None, if denied then Some(now) else None,
        if denied then Some("POLICY") else None,
        snapshot, if d.approvalHash.Some? then Some(Written(d.approvalHash.value)) else None))
  }

  /** The checks of optional texts, hashes and lists. */
  lemma ChecksExactly(x: Screen, t: Option<string>, h: Option<HashText>, l: seq<string>)
    ensures SafeOption(x, t) <==> t == None || x.Safe(t.value, 512)
    ensures SafeHash(x, h) <==>
      h == None || (h.value != Empty && (h.value.Written? ==> x.Safe(h.value.text, 512)))
    ensures SafeList(x, l) <==> |l| <= 128 && forall t | t in l :: x.Safe(t, 512)
  {
  }

  /** What a creation accepts: safe snapshot texts, at most 128 per list, permissions that are visible and
      stay distinct when stripped, at least one of them for a versioned approval, and an expiry that can be
      read. */
  lemma BuiltExactly(x: Screen, d: Draft, id: string, newPlan: string, denied: bool, now: int)
    ensures Built(x, d, id, newPlan, denied, now).Some? <==>
      var normal := set v | v in d.permissions && !Blank(v) :: Strip(v);
      && |normal| == |d.permissions| && (forall p | p in normal :: x.Safe(p, 512))
      && (d.policyVersion == "legacy" || normal != {})
      && x.Safe(d.actorRole, 512) && x.Safe(d.policyVersion, 512) && x.Safe(d.resource, 512)
      && x.Safe(if d.planId in {None, Some("")} then newPlan else d.planId.value, 512)
      && d.expiresAt != Some(Unusable)
      && SafeOption(x, d.operationId) && SafeOption(x, d.branch) && SafeOption(x, d.commit)
      && SafeOption(x, d.backupId) && SafeOption(x, d.approvalHash)
      && SafeHash(x, d.operationHash) && SafeHash(x, d.planHash) && SafeHash(x, d.executionHash)
      && SafeList(x, d.commands) && SafeList(x, d.files) && SafeList(x, d.servicesAffected) && SafeList(x, d.impact)
  {
  }

  /** What it makes: a pending request, or one that the policy denied at once, with redacted texts, the
      declared snapshot, and an expiry one day ahead unless one is given. */
  lemma BuiltContents(x: Screen, d: Draft, id: string, newPlan: string, denied: bool, now: int)
    requires Built(x, d, id, newPlan, denied, now).Some?
    ensures var r := Built(x, d, id, newPlan, denied, now).value; var s := r.snapshot;
      var plan := if d.planId in {None, Some("")} then newPlan else d.planId.value;
      && r.id == id && r.timestamp == now && r.actor == x.redact(d.actor) && r.action == x.redact(d.action)
      && r.risk == d.risk && r.reason == x.redact(d.reason)
      && r.commandId == (if d.commandId in {None, Some("")} then None else Some(x.redact(d.commandId.value)))
      && r.status == (if denied then DENIED else PENDING)
      && r.decidedBy == (if denied then Some("policy") else None) && r.decidedAt == (if denied then Some(now) else None)
      && r.decidedByRole == (if denied then Some("POLICY") else None)
      && r.approvalHash == (if d.approvalHash == None then None else Some(Written(d.approvalHash.value)))
      && s.actorRole == d.actorRole && s.policyVersion == d.policyVersion && s.resource == d.resource
      && s.permissions == (set v | v in d.permissions && !Blank(v) :: Strip(v))
      && s.planId == Some(plan) && s.operationId == (if d.operationId == None then Some(plan) else d.operationId)
      && s.expiresAt == Some(if d.expiresAt == None then Aware(now + 24 * 60 * 60 * 1_000_000) else d.expiresAt.value)
      && s.branch == d.branch && s.commit == d.commit && s.backupId == d.backupId && s.commands == d.commands
      && s.files == d.files && s.servicesAffected == d.servicesAffected && s.impact == d.impact
      && s.operationHash == d.operationHash && s.planHash == d.planHash && s.executionHash == d.executionHash
  {
  }

  // ----- expiry and decision -----

  /** `_is_expired` */
  predicate Expired(t: Option<Stamp>, now: int) {
    t.Some? && (t.value.Unusable? || now >= t.value.at)
  }

  predicate Live(s: ApprovalStatus) {
    s == PENDING || s == ApprovalStatus.APPROVED
  }

  function Expire(r: Request, now: int): Request {
    if Live(r.status) && Expired(r.snapshot.expiresAt, now)
    then r.(status := ApprovalStatus.EXPIRED, decidedBy := Some("system"), decidedByRole := Some("SYSTEM"),
            decidedAt := Some(now), reason := "approval expired")
    else r
  }

  function SealOf(r: Request): Seal {
    Seal(r.id, r.actor, r.action, r.risk, r.commandId, r.reason, r.status, r.decidedBy, r.decidedByRole,
      r.snapshot.(planId := None, executionHash := None))
  }

  /** `_approval_hash` */
  function SealHash(r: Request): HashText {
    Digest(ApprovalRecord(SealOf(r)))
  }

  datatype Ruling = Ruling(approve: bool, decider: string, role: string, reason: string)

  /** `_decide` on one request; None when it raises. */
  function Decided(x: Screen, r: Request, d: Ruling, now: int): Option<Request> {
    var decider := x.redact(d.decider);
    if r.status != PENDING || r.actor == decider || !x.Safe(d.role, 512) then None
    else
      var updated := r.(status := if d.approve then ApprovalStatus.APPROVED else DENIED, decidedBy := Some(decider),
        decidedByRole := Some(d.role), decidedAt := Some(now), reason := x.redact(d.reason));
      Some(updated.(approvalHash := Some(SealHash(updated))))
  }

  /** When a request can be decided and what that changes: it is pending, the decider is not its actor and
      the role is safe text; the rest of the request stays. */
  lemma DecidedExactly(x: Screen, r: Request, d: Ruling, now: int)
    ensures Decided(x, r, d, now).Some? <==>
      r.status == PENDING && r.actor != x.redact(d.decider) && x.Safe(d.role, 512)
    ensures Decided(x, r, d, now).Some? ==>
      var n := Decided(x, r, d, now).value;
      && n.status == (if d.approve then ApprovalStatus.APPROVED else DENIED) && n.decidedBy == Some(x.redact(d.decider))
      && n.decidedByRole == Some(d.role) && n.decidedAt == Some(now) && n.reason == x.redact(d.reason)
      && n == r.(status := n.status, decidedBy := n.decidedBy, decidedByRole := n.decidedByRole,
                 decidedAt := n.decidedAt, reason := n.reason, approvalHash := Some(SealHash(n)))
  {
  }

  /** The hash tells two requests apart exactly when they differ in a member it covers: all but the time
      stamps, the plan id, the execution hash and the approval hash itself. */
  lemma SealCovers(a: Request, b: Request)
    ensures SealHash(a) == SealHash(b) <==>
      && a.id == b.id && a.actor == b.actor && a.action == b.action && a.risk == b.risk && a.commandId == b.commandId
      && a.reason == b.reason && a.status == b.status && a.decidedBy == b.decidedBy
      && a.decidedByRole == b.decidedByRole
      && a.snapshot.(planId := b.snapshot.planId, executionHash := b.snapshot.executionHash) == b.snapshot
  {
    assert a.snapshot.(planId := None, executionHash := None) == b.snapshot.(planId := None, executionHash := None) ==>
      a.snapshot.(planId := b.snapshot.planId, executionHash := b.snapshot.executionHash) == b.snapshot;
  }

  // ----- storing -----

  /** One stored record; only the two enumerations are texts of their own. */
  datatype Entry = Entry(body: Request, risk: EnumText<Risk>, status: EnumText<ApprovalStatus>)

  function Encode(r: Request): Entry {
    Entry(r, Known(r.risk), Known(r.status))
  }

  predicate Readable(x: Screen, t: string) {
    !Blank(t) && |t| <= 512 && x.Clean(t)
  }

  predicate ReadableOption(x: Screen, t: Option<string>) {
    t.Some? ==> Readable(x, t.value)
  }

  predicate ReadableHash(x: Screen, h: Option<HashText>) {
    h.Some? ==> match h.value
      case Empty => false
      case Digest(_) => true
      case Written(t) => Readable(x, t)
  }

  predicate ReadableList(x: Screen, l: seq<string>) {
    forall t | t in l :: Readable(x, t)
  }

  predicate ReadablePermissions(x: Screen, values: set<string>) {
    var normal := set v | v in values && !Blank(v) :: Strip(v);
    |normal| == |values| && forall p | p in normal :: x.Safe(p, 512)
  }

  predicate ReadableSnapshot(x: Screen, s: Snapshot) {
    && Readable(x, s.actorRole) && Readable(x, s.policyVersion) && Readable(x, s.resource)
    && ReadableOption(x, s.planId) && ReadableOption(x, s.operationId)
    && ReadableOption(x, s.branch) && ReadableOption(x, s.commit) && ReadableOption(x, s.backupId)
    && ReadableList(x, s.commands) && ReadableList(x, s.files) && ReadableList(x, s.servicesAffected)
    && ReadableList(x, s.impact)
    && ReadableHash(x, s.operationHash) && ReadableHash(x, s.planHash) && ReadableHash(x, s.executionHash)
    && ReadablePermissions(x, s.permissions) && s.expiresAt != Some(Unusable)
  }

  /** Every text of the record itself. */
  predicate ReadableTexts(x: Screen, r: Request) {
    && Readable(x, r.id) && Readable(x, r.actor) && Readable(x, r.action) && Readable(x, r.reason)
    && ReadableOption(x, r.commandId) && ReadableOption(x, r.decidedBy) && ReadableOption(x, r.decidedByRole)
    && ReadableHash(x, r.approvalHash)
  }

  predicate DecisionComplete(r: Request) {
    match r.status
    case PENDING => r.decidedBy == None && r.decidedAt == None
    case APPROVED => r.decidedBy.Some? && r.decidedAt.Some? && r.decidedBy.value != r.actor
    case _ => r.decidedBy.Some? && r.decidedAt.Some?
  }

  function Defaulted(r: Request): Request {
    var plan := if r.snapshot.planId.Some? then r.snapshot.planId else Some("plan-" + r.id);
    r.(snapshot := r.snapshot.(
      planId := plan,
      expiresAt := if r.snapshot.expiresAt.Some? then r.snapshot.expiresAt else Some(Aware(r.timestamp + DAY)),
      operationId := if r.snapshot.operationId.Some? then r.snapshot.operationId else plan))
  }

  /** The integrity hash is checked on approved and denied records that have one. */
  predicate SealMatches(r: Request) {
    r.approvalHash.Some? && r.status in {ApprovalStatus.APPROVED, DENIED} ==> r.approvalHash.value == SealHash(r)
  }

  /** `_decode_request` */
  function Decode(x: Screen, e: Entry): Option<Request> {
    if e.risk.Unknown? || e.status.Unknown? then None
    else
      var r := e.body.(risk := e.risk.value, status := e.status.value);
      if !ReadableTexts(x, r) || !ReadableSnapshot(x, r.snapshot) || !DecisionComplete(r) || !SealMatches(Defaulted(r))
        then None
      else Some(Defaulted(r))
  }

  /** What makes a request in memory survive a reload unchanged. */
  predicate Storable(x: Screen, r: Request) {
    && ReadableTexts(x, r) && ReadableSnapshot(x, r.snapshot) && DecisionComplete(r) && SealMatches(r)
    && r.snapshot.planId.Some? && r.snapshot.expiresAt.Some? && r.snapshot.operationId.Some?
  }

  /** Whatever else a stored record says: one that is decided and carries a hash is accepted only if it
      carries the hash of the very request it decodes to. */
  lemma AcceptedRecordsAreUntampered(x: Screen, e: Entry)
    requires Decode(x, e).Some?
    ensures var r := Decode(x, e).value;
      && e.risk == Known(r.risk) && e.status == Known(r.status) && r.approvalHash == e.body.approvalHash
      && (r.approvalHash.Some? && (r.status == ApprovalStatus.APPROVED || r.status == DENIED) ==>
            r.approvalHash.value == SealHash(r))
      && (r.status == ApprovalStatus.APPROVED ==>
            r.decidedBy.Some? && r.decidedAt.Some? && r.decidedBy.value != r.actor)
  {
  }

  lemma DecodeInvertsEncode(x: Screen, r: Request)
    requires r.snapshot.planId.Some? && r.snapshot.expiresAt.Some? && r.snapshot.operationId.Some?
    ensures Decode(x, Encode(r)) == if Storable(x, r) then Some(r) else None
  {
    assert Defaulted(r) == r;
  }

  // ----- what entry checks and what it does not -----

  /** The texts that are only redacted on entry. */
  predicate DraftTexts(x: Screen, d: Draft) {
    && Readable(x, x.redact(d.actor)) && Readable(x, x.redact(d.action)) && Readable(x, x.redact(d.reason))
    && (Given(d.commandId).Some? ==> Readable(x, x.redact(d.commandId.value)))
  }

  predicate DraftPersists(x: Screen, d: Draft, denied: bool) {
    DraftTexts(x, d) && (denied ==> d.approvalHash == None)
  }

  lemma NormalizedIsNormal(x: Screen, values: seq<string>)
    requires PermissionsAccepted(x, values)
    ensures ReadablePermissions(x, Normalized(values))
  {
    var s := Normalized(values);
    forall v | v in s ensures !Blank(v) && Strip(v) == v {
      var w :| w in values && !Blank(w) && v == Strip(w);
      StripIdempotent(w);
    }
    assert (set v | v in s && !Blank(v) :: Strip(v)) == s;
  }

  /** Short text that starts visibly and holds none of the characters every screened text has. */
  predicate Harmless(t: string) {
    t != "" && !Space(t[0]) && |t| <= 512 && ':' !in t && '=' !in t && '-' !in t
  }

  lemma HarmlessIsReadable(x: Screen, t: string)
    requires Harmless(t)
    ensures Readable(x, t)
  {
    assert x.Clean(t);
  }

  lemma PolicyHarmless()
    ensures Harmless("policy") && Harmless("POLICY")
  {
  }

  lemma SystemHarmless()
    ensures Harmless("system") && Harmless("SYSTEM")
  {
  }

  lemma ExpiryHarmless()
    ensures Harmless("approval expired")
  {
  }

  /** The texts of the policy's own denials are readable. */
  lemma PolicyReadable(x: Screen)
    ensures Readable(x, "policy") && Readable(x, "POLICY")
  {
    PolicyHarmless();
    HarmlessIsReadable(x, "policy");
    HarmlessIsReadable(x, "POLICY");
  }

  /** So are the texts of an expiry. */
  lemma ExpiryReadable(x: Screen)
    ensures Readable(x, "system") && Readable(x, "SYSTEM") && Readable(x, "approval expired")
  {
    SystemHarmless();
    ExpiryHarmless();
    HarmlessIsReadable(x, "system");
    HarmlessIsReadable(x, "SYSTEM");
    HarmlessIsReadable(x, "approval expired");
  }

  lemma SnapshotReadable(x: Screen, d: Draft, id: string, newPlan: string, denied: bool, now: int)
    requires Built(x, d, id, newPlan, denied, now).Some?
    ensures ReadableSnapshot(x, Built(x, d, id, newPlan, denied, now).value.snapshot)
  {
    NormalizedIsNormal(x, d.permissions);
  }

  lemma BuiltTexts(x: Screen, d: Draft, id: string, newPlan: string, denied: bool, now: int)
    requires Readable(x, id) && Built(x, d, id, newPlan, denied, now).Some?
    ensures ReadableTexts(x, Built(x, d, id, newPlan, denied, now).value) <==> DraftTexts(x, d)
  {
    PolicyReadable(x);
    assert d.approvalHash.Some? ==> Readable(x, d.approvalHash.value);
  }

  lemma BuiltSeal(x: Screen, d: Draft, id: string, newPlan: string, denied: bool, now: int)
    requires Built(x, d, id, newPlan, denied, now).Some?
    ensures SealMatches(Built(x, d, id, newPlan, denied, now).value) <==> (denied ==> d.approvalHash == None)
    ensures DecisionComplete(Built(x, d, id, newPlan, denied, now).value)
  {
  }

  /** An accepted creation survives a reload if and only if its redacted texts are readable and, for a
      policy denial, the caller supplied no approval hash of its own. */
  lemma BuiltStorableExactly(x: Screen, d: Draft, id: string, newPlan: string, denied: bool, now: int)
    requires Readable(x, id) && Built(x, d, id, newPlan, denied, now).Some?
    ensures var r := Built(x, d, id, newPlan, denied, now).value;
      Decode(x, Encode(r)) == if DraftPersists(x, d, denied) then Some(r) else None
  {
    var r := Built(x, d, id, newPlan, denied, now).value;
    SnapshotReadable(x, d, id, newPlan, denied, now);
    BuiltTexts(x, d, id, newPlan, denied, now);
    BuiltSeal(x, d, id, newPlan, denied, now);
    DecodeInvertsEncode(x, r);
  }

  predicate RulingPersists(x: Screen, d: Ruling) {
    Readable(x, x.redact(d.decider)) && Readable(x, x.redact(d.reason))
  }

  /** A decision on a storable request is storable if and only if the decider and the reason are
      readable after redaction; the hash it writes is the one the reload recomputes. */
  lemma DecidedStorableExactly(x: Screen, r: Request, d: Ruling, now: int)
    requires Storable(x, r) && Decided(x, r, d, now).Some?
    ensures var n := Decided(x, r, d, now).value;
      Decode(x, Encode(n)) == if RulingPersists(x, d) then Some(n) else None
  {
    DecodeInvertsEncode(x, Decided(x, r, d, now).value);
  }

  lemma ExpiredStorable(x: Screen, r: Request, now: int)
    requires Storable(x, r)
    ensures Storable(x, Expire(r, now))
  {
    ExpiryReadable(x);
  }

  /** A request with a blank reason is accepted and saved, and the saved record is then refused. */
  lemma BlankReasonIsSavedButNotReadable(x: Screen, d: Draft, id: string, newPlan: string, now: int)
    requires Readable(x, id) && d.reason == " " && Built(x, d, id, newPlan, false, now).Some?
    ensures Decode(x, Encode(Built(x, d, id, newPlan, false, now).value)) == None
  {
    assert Blank(" ");
    assert x.Clean(" ");
    assert x.redact(d.reason) == " ";
    BuiltStorableExactly(x, d, id, newPlan, false, now);
  }
}
