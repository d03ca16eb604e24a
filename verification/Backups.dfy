/** The backup catalog. */
module Backups {
  import opened Texts

  datatype BackupState = PREPARED | VERIFIED | RESTORE_TESTED | BLOCKED

  datatype BackupType = CODE | CONFIGURATION | DATABASE | APPLICATION | PRE_DEPLOY | MANUAL | SCHEDULED

  /** What the caller declares about a backup. */
  datatype Details = Details(
    project: string, kind: BackupType, source: string, destination: string, retention: string, server: string,
    environment: string, path: Option<string>, size: Option<int>, retentionUntil: Option<string>,
    operation: Option<string>, deployment: Option<string>)

  datatype Record = Record(
    id: string, details: Details, createdBy: string, checksum: string, state: BackupState,
    verifiedAt: Option<int>, restoreTestedAt: Option<int>, verified: bool, restoreTested: bool)

  datatype Evidence = Evidence(provider: string, checksum: string, result: string, verified: bool)

  predicate IsVerified(r: Record) {
    r.state in {VERIFIED, RESTORE_TESTED}
  }

  predicate ValidEvidence(x: Screen, e: Option<Evidence>) {
    e.Some? &&
    forall s | s in [e.value.provider, e.value.checksum, e.value.result] ::
      !Blank(s) && |s| <= 512 && x.Clean(s)
  }

  /** Every declared text is safe and a declared size is not negative. */
  predicate DetailsSafe(x: Screen, d: Details) {
    && (forall t | t in [d.project, d.source, d.destination, d.retention, d.server, d.environment] :: x.Safe(t, 256))
    && (forall t | t in [d.path, d.retentionUntil, d.operation, d.deployment] && t.Some? :: x.Safe(t.value, 256))
    && (d.size.Some? ==> 0 <= d.size.value)
  }

  /** `prepare`; None when the declared metadata is refused.  `checksum` is the digest computed here. */
  function Prepared(
      x: Screen, provider: bool, id: string, d: Details, user: string, checksum: string,
        e: Option<Evidence>): Option<Record>
  {
    if !DetailsSafe(x, d) then None
    else
      var good := !provider || ValidEvidence(x, e);
      Some(Record(id, d, user, if provider && good then e.value.checksum else checksum,
             if good then PREPARED else BLOCKED, None, None, false, false))
  }

  /** The provider's word counts only when a provider is configured. */
  predicate Holds(x: Screen, provider: bool, e: Option<Evidence>) {
    provider ==> ValidEvidence(x, e) && e.value.verified
  }

  function Verify(x: Screen, provider: bool, r: Record, e: Option<Evidence>, now: int): Option<Record> {
    if r.state != PREPARED then None
    else
      var ok := Holds(x, provider, e);
      Some(r.(state := if ok then VERIFIED else BLOCKED, verifiedAt := if ok then Some(now) else None, verified := ok))
  }

  function RestoreTest(x: Screen, provider: bool, r: Record, e: Option<Evidence>, now: int): Option<Record> {
    if r.state != VERIFIED then None
    else
      var ok := Holds(x, provider, e);
      Some(r.(
        state := if ok then RESTORE_TESTED else BLOCKED, restoreTestedAt := if ok then Some(now) else None,
        restoreTested := ok))
  }

  /** One catalog call and what it meets; `saves` says whether the snapshot could be written. */
  datatype Event =
    | Prepare(id: string, details: Details, user: string, checksum: string, evidence: Option<Evidence>)
    | VerifyIt(id: string, evidence: Option<Evidence>)
    | TestRestore(id: string, evidence: Option<Evidence>)

  function Step(x: Screen, provider: bool, records: map<string, Record>, e: Event, now: int, saves: bool)
    : map<string, Record>
  {
    if !saves then records
    else match e
      case Prepare(id, details, user, checksum, evidence) =>
        if id in records then records
        else (match Prepared(x, provider, id, details, user, checksum, evidence)
              case None => records
              case Some(r) => records[id := r])
      case VerifyIt(id, evidence) =>
        if id !in records then records
        else (match Verify(x, provider, records[id], evidence, now)
              case None => records
              case Some(r) => records[id := r])
      case TestRestore(id, evidence) =>
        if id !in records then records
        else (match RestoreTest(x, provider, records[id], evidence, now)
              case None => records
              case Some(r) => records[id := r])
  }

  /** The flags and times agree with the state; a verified flag on a backup that no longer counts
      as verified means that its restore test failed. */
  predicate Coherent(r: Record) {
    && (IsVerified(r) ==> r.verified)
    && (r.verified <==> r.verifiedAt.Some?)
    && (r.restoreTested <==> r.state == RESTORE_TESTED)
    && (r.restoreTested <==> r.restoreTestedAt.Some?)
    && (r.state == PREPARED ==> !r.verified)
  }

  /** Allowed moves of one backup: it never leaves BLOCKED or RESTORE_TESTED, and it counts as
      verified only after it was prepared. */
  predicate MayBecome(a: BackupState, b: BackupState) {
    || a == b
    || (a == PREPARED && b != RESTORE_TESTED)
    || (a == VERIFIED && (b == RESTORE_TESTED || b == BLOCKED))
  }

  /** Evidence that the provider gave, in visible clean text of limited length. */
  predicate Given(x: Screen, e: Option<Evidence>) {
    && e.Some? && !Blank(e.value.provider) && !Blank(e.value.checksum) && !Blank(e.value.result)
    && |e.value.provider| <= 512 && |e.value.checksum| <= 512 && |e.value.result| <= 512
    && x.Clean(e.value.provider) && x.Clean(e.value.checksum) && x.Clean(e.value.result)
  }

  lemma GivenExactly(x: Screen, e: Option<Evidence>)
    ensures ValidEvidence(x, e) <==> Given(x, e)
  {
    if e.Some? {
      var ts := [e.value.provider, e.value.checksum, e.value.result];
      assert ts[0] in ts && ts[1] in ts && ts[2] in ts;
    }
  }

  /** What a saved preparation adds: a record of safe metadata with the checksum that the provider reports,
      blocked if a configured provider did not give evidence. */
  lemma PrepareExactly(x: Screen, provider: bool, records: map<string, Record>, id: string, d: Details, user: string,
      checksum: string, e: Option<Evidence>, now: int)
    requires id !in records
    ensures Step(x, provider, records, Prepare(id, d, user, checksum, e), now, true) ==
      if !DetailsSafe(x, d) then records
      else records[id := Record(id, d, user, if provider && Given(x, e) then e.value.checksum else checksum,
                           if provider && !Given(x, e) then BLOCKED else PREPARED, None, None, false, false)]
  {
    GivenExactly(x, e);
  }

  lemma DetailsExactly(x: Screen, d: Details)
    ensures DetailsSafe(x, d) <==>
      && x.Safe(d.project, 256) && x.Safe(d.source, 256) && x.Safe(d.destination, 256) && x.Safe(d.retention, 256)
      && x.Safe(d.server, 256) && x.Safe(d.environment, 256) && (d.size.Some? ==> 0 <= d.size.value)
      && (d.path.Some? ==> x.Safe(d.path.value, 256))
      && (d.retentionUntil.Some? ==> x.Safe(d.retentionUntil.value, 256))
      && (d.operation.Some? ==> x.Safe(d.operation.value, 256))
      && (d.deployment.Some? ==> x.Safe(d.deployment.value, 256))
  {
    var ts := [d.project, d.source, d.destination, d.retention, d.server, d.environment];
    assert ts[0] in ts && ts[1] in ts && ts[2] in ts && ts[3] in ts && ts[4] in ts && ts[5] in ts;
    var os := [d.path, d.retentionUntil, d.operation, d.deployment];
    assert os[0] in os && os[1] in os && os[2] in os && os[3] in os;
  }

  /** What a saved verification changes: a prepared record becomes verified, or blocked when a configured
      provider does not affirm it. */
  lemma VerifyExactly(x: Screen, provider: bool, records: map<string, Record>, id: string, e: Option<Evidence>,
      now: int)
    ensures Step(x, provider, records, VerifyIt(id, e), now, true) ==
      if id !in records || records[id].state != PREPARED then records
      else if !provider || (Given(x, e) && e.value.verified)
      then records[id := records[id].(state := VERIFIED, verifiedAt := Some(now), verified := true)]
      else records[id := records[id].(state := BLOCKED, verifiedAt := None, verified := false)]
  {
    GivenExactly(x, e);
  }

  /** What a saved restore test changes. */
  lemma TestExactly(x: Screen, provider: bool, records: map<string, Record>, id: string, e: Option<Evidence>, now: int)
    ensures Step(x, provider, records, TestRestore(id, e), now, true) ==
      if id !in records || records[id].state != VERIFIED then records
      else if !provider || (Given(x, e) && e.value.verified)
      then records[id := records[id].(state := RESTORE_TESTED, restoreTestedAt := Some(now), restoreTested := true)]
      else records[id := records[id].(state := BLOCKED, restoreTestedAt := None, restoreTested := false)]
  {
    GivenExactly(x, e);
  }

  class BackupManager {
    const screen: Screen
    const provider: bool
    var records: map<string, Record>

    constructor (screen: Screen, provider: bool)
      ensures this.screen == screen && this.provider == provider && records == map[]
    {
      this.screen, this.provider, records := screen, provider, map[];
    }

    /** Every operation changes memory only after the snapshot was saved. */
    method Handle(event: Event, now: int, saves: bool)
      modifies this
      ensures records == Step(screen, provider, old(records), event, now, saves)
    {
      var updated := records;
      match event {
        case Prepare(id, details, user, checksum, evidence) =>
          if id !in records && DetailsSafe(screen, details) {
            var state, sum := PREPARED, checksum;
            if provider {
              if ValidEvidence(screen, evidence) {
                sum := evidence.value.checksum;
              } else {
                state := BLOCKED;
              }
            }
            updated := updated[id := Record(id, details, user, sum, state, None, None, false, false)];
          }
        case VerifyIt(id, evidence) =>
          if id in records {
            var next := Verify(screen, provider, records[id], evidence, now);
            if next.Some? {
              updated := updated[id := next.value];
            }
          }
        case TestRestore(id, evidence) =>
          if id in records {
            var next := RestoreTest(screen, provider, records[id], evidence, now);
            if next.Some? {
              updated := updated[id := next.value];
            }
          }
      }
      if saves {
        records := updated;
      }
    }
  }

  /** What a backup was declared to be; verification never changes it. */
  function Declared(r: Record): (string, Details, string, string) {
    (r.id, r.details, r.createdBy, r.checksum)
  }

  predicate Good(x: Screen, r: Record) {
    Coherent(r) && DetailsSafe(x, r.details)
  }

  ghost predicate AllGood(x: Screen, records: map<string, Record>) {
    forall id | id in records :: Good(x, records[id])
  }

  /** No record disappears, changes what was declared about it or moves along another edge. */
  ghost predicate Advances(before: map<string, Record>, after: map<string, Record>) {
    forall id | id in before ::
      id in after && Declared(after[id]) == Declared(before[id]) && MayBecome(before[id].state, after[id].state)
  }

  lemma PutAdvances(x: Screen, records: map<string, Record>, id: string, r: Record)
    requires AllGood(x, records) && Good(x, r)
    requires id in records ==> Declared(r) == Declared(records[id]) && MayBecome(records[id].state, r.state)
    ensures AllGood(x, records[id := r]) && Advances(records, records[id := r])
  {
  }

  /** Every catalog call keeps the flags in agreement and the declared metadata safe, and every backup
      only advances. */
  lemma StepCoherent(x: Screen, provider: bool, records: map<string, Record>, e: Event, now: int, saves: bool)
    requires AllGood(x, records)
    ensures var after := Step(x, provider, records, e, now, saves);
      AllGood(x, after) && Advances(records, after)
  {
    var after := Step(x, provider, records, e, now, saves);
    if after != records {
      match e {
        case Prepare(id, details, user, checksum, evidence) => PutAdvances(x, records, id, after[id]);
        case VerifyIt(id, evidence) =>
          assert Good(x, records[id]);
          PutAdvances(x, records, id, after[id]);
        case TestRestore(id, evidence) =>
          assert Good(x, records[id]);
          PutAdvances(x, records, id, after[id]);
      }
    }
  }

  /** A backup that counts as verified under a configured provider was confirmed by valid evidence: the
      only way into that state is a verification that the provider answered so. */
  lemma VerifiedMeansConfirmed(x: Screen, records: map<string, Record>, e: Event, now: int, saves: bool, id: string)
    requires id in records ==> !IsVerified(records[id])
    requires id in Step(x, true, records, e, now, saves) && IsVerified(Step(x, true, records, e, now, saves)[id])
    ensures saves && e.VerifyIt? && e.id == id && id in records && records[id].state == PREPARED
    ensures ValidEvidence(x, e.evidence) && e.evidence.value.verified
  {
  }
}
