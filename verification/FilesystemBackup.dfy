/** The filesystem backup provider, and the backup catalog over it. */
module FilesystemBackup {
  import opened Texts
  import opened Trees
  import opened Paths
  import opened Archive
  import A = ServiceActivation
  import B = Backups

  /** The result texts of the provider, by what they print. */
  datatype Note =
    | ArchiveCreated(files: nat, bytes: nat)
    | ChecksumVerified
    | ChecksumMismatch
    | RestoreSourceInvalid
    | RestoreTested(files: nat, bytes: nat)

  /** The declared roots and the provider's own texts: `folders` are the directories under the
      destination root, `sum` is the digest of an archive, `missing` stands for it when there is none. */
  datatype Declared = Declared(
    screen: Screen, folders: set<Path>, safe: Content -> bool, name: string, missing: string,
    sum: seq<Member> -> string, render: Note -> string)

  /** The archives under the destination root. */
  type Archives = map<Path, seq<Member>>

  /** Where a preparation fails, if anywhere: before the archive has its name, or after. */
  datatype Fault = NoFault | WriteFails | SealFails

  function WithoutLeadingDots(name: string): string {
    if name != "" && name[0] == '.' then WithoutLeadingDots(name[1..]) else name
  }

  /** The last two suffixes of a file name are `.tar` and `.gz`. */
  predicate TarGz(name: string) {
    var n := WithoutLeadingDots(name);
    7 <= |n| && n[|n| - 7..] == ".tar.gz"
  }

  /** `_destination_path` */
  function Destination(d: Declared, name: string): Option<Path> {
    match SafeRelative(name)
    case None => None
    case Some(p) => if p != [] && TarGz(p[|p| - 1]) && p[..|p| - 1] in d.folders then Some(p) else None
  }

  /** Some character before the last seven is no dot. */
  predicate Stemmed(name: string) {
    exists i :: 0 <= i < |name| - 7 && name[i] != '.'
  }

  lemma StemBehindDot(name: string)
    requires name != "" && name[0] == '.'
    ensures Stemmed(name) <==> Stemmed(name[1..])
  {
    if Stemmed(name) {
      var i :| 0 <= i < |name| - 7 && name[i] != '.';
      assert name[1..][i - 1] == name[i];
    }
    if Stemmed(name[1..]) {
      var i :| 0 <= i < |name| - 8 && name[1..][i] != '.';
      assert name[i + 1] == name[1..][i];
    }
  }

  lemma StemInFront(name: string)
    requires 7 < |name| && name[0] != '.'
    ensures Stemmed(name)
  {
  }

  /** The name ends in `.tar.gz`, behind at least one character that is no dot. */
  lemma {:induction false} TarGzExactly(name: string)
    ensures TarGz(name) <==> 7 <= |name| && name[|name| - 7..] == ".tar.gz" && Stemmed(name)
  {
    if name != "" && name[0] == '.' {
      TarGzExactly(name[1..]);
      StemBehindDot(name);
      if 8 <= |name| {
        assert name[1..][|name| - 8..] == name[|name| - 7..];
      }
    } else if |name| == 7 {
      assert name[0..] == name;
      assert name[0] != ".tar.gz"[0];
    } else if 7 < |name| {
      StemInFront(name);
    }
  }

  /** Where an archive may be put. */
  lemma DestinationExactly(d: Declared, name: string)
    ensures Destination(d, name).Some? <==>
      && SafeRelative(name).Some? && SafeRelative(name).value != []
      && (var p := SafeRelative(name).value; TarGz(p[|p| - 1]) && p[..|p| - 1] in d.folders)
    ensures Destination(d, name).Some? ==> Destination(d, name) == SafeRelative(name)
  {
  }

  // ----- prepare, verify, restore test -----

  /** What `prepare` is asked for; `tree` is the directory that the source label names, if it does. */
  datatype Job = Job(project: string, source: string, destination: string, tree: Option<Tree>)

  /** The archive gets its name: every check passes, the name is free and the writer accepts the tree. */
  predicate Writes(d: Declared, archives: Archives, j: Job, fault: Fault) {
    && A.SafeText(d.screen, j.project) && SafeRelative(j.source).Some? && j.tree.Some?
    && Destination(d, j.destination).Some?
    && Destination(d, j.destination).value !in archives && Destination(d, j.destination).value !in d.folders
    && !fault.WriteFails? && Accepts(Visits(j.tree.value), d.safe)
  }

  function Prepared(d: Declared, archives: Archives, j: Job, fault: Fault): (Archives, Option<B.Evidence>) {
    if !Writes(d, archives, j, fault) then (archives, None)
    else
      var vs := Visits(j.tree.value);
      (archives[Destination(d, j.destination).value := MembersOf(vs)],
       if fault.SealFails? then None
       else Some(B.Evidence(d.name, d.sum(MembersOf(vs)), d.render(ArchiveCreated(FileCount(vs), ByteCount(vs))),
         false)))
  }

  predicate Matches(d: Declared, archives: Archives, at: Path, checksum: string) {
    at in archives && d.sum(archives[at]) == checksum
  }

  /** None when the call raises. */
  function Verified(d: Declared, archives: Archives, r: B.Record): Option<B.Evidence> {
    match Destination(d, r.details.destination)
    case None => None
    case Some(at) =>
      var good := Matches(d, archives, at, r.checksum);
      Some(B.Evidence(d.name, if at in archives then d.sum(archives[at]) else d.missing,
        d.render(if good then ChecksumVerified else ChecksumMismatch), good))
  }

  /** None when the call raises, as it does when the extraction refuses the archive. */
  function RestoreTest(d: Declared, archives: Archives, r: B.Record): Option<B.Evidence> {
    match Destination(d, r.details.destination)
    case None => None
    case Some(at) =>
      if !Matches(d, archives, at, r.checksum)
      then Some(B.Evidence(d.name, d.missing, d.render(RestoreSourceInvalid), false))
      else if |archives[at]| > MAX_FILES then None
      else match Unpack(archives[at])
        case None => None
        case Some(t) => Some(B.Evidence(d.name, r.checksum, d.render(RestoreTested(t.count, t.bytes)), true))
  }

  /** When an archive is written, and when it is also reported. */
  lemma PreparedExactly(d: Declared, archives: Archives, j: Job, fault: Fault)
    ensures var (after, e) := Prepared(d, archives, j, fault); var at := Destination(d, j.destination);
      var writes := A.SafeText(d.screen, j.project) && SafeRelative(j.source).Some? && j.tree.Some? && at.Some?
        && at.value !in archives && at.value !in d.folders && fault != WriteFails
        && Accepts(Visits(j.tree.value), d.safe);
      && (!writes ==> after == archives && e == None)
      && (writes ==> after == archives[at.value := MembersOf(Visits(j.tree.value))])
      && (e.Some? <==> writes && fault == NoFault)
      && (e.Some? ==>
            var vs := Visits(j.tree.value);
            e.value == B.Evidence(d.name, d.sum(MembersOf(vs)), d.render(ArchiveCreated(FileCount(vs), ByteCount(vs))),
              false))
  {
  }

  class FilesystemBackupProvider {
    const declared: Declared
    var archives: Archives

    constructor (declared: Declared, archives: Archives)
      ensures this.declared == declared && this.archives == archives
    {
      this.declared, this.archives := declared, archives;
    }

    /** An existing archive is never overwritten; a failure after the archive got its name leaves it. */
    method Prepare(j: Job, fault: Fault) returns (e: Option<B.Evidence>)
      modifies this
      ensures (archives, e) == Prepared(declared, old(archives), j, fault)
    {
      var at := Destination(declared, j.destination);
      if !A.SafeText(declared.screen, j.project) || SafeRelative(j.source) == None || j.tree == None || at == None {
        return None;
      }
      if at.value in archives || at.value in declared.folders || fault.WriteFails? {
        return None;
      }
      var written := WriteArchive(Visits(j.tree.value), declared.safe);
      if written.Refused? {
        return None;
      }
      archives := archives[at.value := written.value.members];
      if fault.SealFails? {
        return None;
      }
      e := Some(B.Evidence(declared.name, declared.sum(archives[at.value]),
        declared.render(ArchiveCreated(written.value.files, written.value.bytes)), false));
    }

    method Verify(r: B.Record) returns (e: Option<B.Evidence>)
      ensures e == Verified(declared, archives, r)
    {
      var at := Destination(declared, r.details.destination);
      if at == None {
        return None;
      }
      if at.value !in archives {
        return Some(B.Evidence(declared.name, declared.missing, declared.render(ChecksumMismatch), false));
      }
      var sum := declared.sum(archives[at.value]);
      e := Some(B.Evidence(declared.name, sum,
        declared.render(if sum == r.checksum then ChecksumVerified else ChecksumMismatch), sum == r.checksum));
    }

    method TestRestore(r: B.Record) returns (e: Option<B.Evidence>)
      ensures e == RestoreTest(declared, archives, r)
    {
      var at := Destination(declared, r.details.destination);
      if at == None {
        return None;
      }
      if at.value !in archives || declared.sum(archives[at.value]) != r.checksum {
        return Some(B.Evidence(declared.name, declared.missing, declared.render(RestoreSourceInvalid), false));
      }
      var extracted := ExtractArchive(archives[at.value]);
      if extracted == None {
        return None;
      }
      e := Some(B.Evidence(declared.name, r.checksum,
        declared.render(RestoreTested(extracted.value.count, extracted.value.bytes)), true));
    }
  }

  // ----- the catalog over the provider -----

  /** The records, the archives and the tree that each archive was written from. */
  datatype Desk = Desk(records: map<string, B.Record>, archives: Archives, origins: map<Path, Tree>)

  datatype Event =
    | Prepare(id: string, details: B.Details, user: string, checksum: string, tree: Option<Tree>, fault: Fault)
    | VerifyIt(id: string)
    | TestRestore(id: string)

  function JobOf(e: Event): Job
    requires e.Prepare?
  {
    Job(e.details.project, e.details.source, e.details.destination, e.tree)
  }

  /** The catalog's call with what the provider answers to it. */
  function CatalogEvent(d: Declared, s: Desk, e: Event): B.Event {
    match e
    case Prepare(id, details, user, checksum, tree, fault) =>
      B.Prepare(id, details, user, checksum, Prepared(d, s.archives, JobOf(e), fault).1)
    case VerifyIt(id) => B.VerifyIt(id, if id in s.records then Verified(d, s.archives, s.records[id]) else None)
    case TestRestore(id) =>
      B.TestRestore(id, if id in s.records then RestoreTest(d, s.archives, s.records[id]) else None)
  }

  /** The event makes the provider write an archive. */
  predicate Archived(d: Declared, s: Desk, e: Event) {
    e.Prepare? && B.DetailsSafe(d.screen, e.details) && Writes(d, s.archives, JobOf(e), e.fault)
  }

  function Step(d: Declared, s: Desk, e: Event, now: int, saves: bool): Desk {
    var records := B.Step(d.screen, true, s.records, CatalogEvent(d, s, e), now, saves);
    if Archived(d, s, e) then
      Desk(records, Prepared(d, s.archives, JobOf(e), e.fault).0,
        s.origins[Destination(d, e.details.destination).value := e.tree.value])
    else s.(records := records)
  }

  function Run(d: Declared, events: seq<(Event, int, bool)>): Desk {
    if events == [] then Desk(map[], map[], map[])
    else
      var (e, now, saves) := events[|events| - 1];
      Step(d, Run(d, events[..|events| - 1]), e, now, saves)
  }

  // ----- what every run keeps -----

  /** The archive of a record is in its place, has its checksum and was written from an accepted tree. */
  ghost predicate Backed(d: Declared, s: Desk, r: B.Record) {
    var at := Destination(d, r.details.destination);
    && at.Some? && at.value in s.archives && at.value in s.origins
    && WellFormed(s.origins[at.value].entries) && Accepts(Visits(s.origins[at.value]), d.safe)
    && s.archives[at.value] == MembersOf(Visits(s.origins[at.value])) && d.sum(s.archives[at.value]) == r.checksum
  }

  /** The tree that a record's archive was written from. */
  function Origin(d: Declared, s: Desk, r: B.Record): Tree {
    var at := Destination(d, r.details.destination);
    if at.Some? && at.value in s.origins then s.origins[at.value] else Tree(true, End)
  }

  ghost predicate Restores(d: Declared, s: Desk, r: B.Record) {
    Extractable(Files(Scanned(Origin(d, s, r)), []))
  }

  ghost predicate RecordKept(d: Declared, s: Desk, r: B.Record) {
    (r.state != B.BLOCKED ==> Backed(d, s, r)) && (r.state == B.RESTORE_TESTED ==> Restores(d, s, r))
  }

  ghost predicate Kept(d: Declared, s: Desk) {
    forall id | id in s.records :: RecordKept(d, s, s.records[id])
  }

  /** Every source directory is one that a POSIX file system can hold. */
  predicate SourceProper(e: Event) {
    e.Prepare? && e.tree.Some? ==> WellFormed(e.tree.value.entries)
  }

  /** A new archive at a free name leaves every backed record backed. */
  lemma ArchivesGrow(d: Declared, s: Desk, n: Desk, at: Path, ms: seq<Member>, t: Tree, r: B.Record)
    requires at !in s.archives && n.archives == s.archives[at := ms] && n.origins == s.origins[at := t]
    requires RecordKept(d, s, r)
    ensures RecordKept(d, n, r)
  {
  }

  lemma NewRecordKept(d: Declared, s: Desk, n: Desk, e: Event, r: B.Record)
    requires e.Prepare? && SourceProper(e)
    requires B.Prepared(d.screen, true, e.id, e.details, e.user, e.checksum,
      Prepared(d, s.archives, JobOf(e), e.fault).1)
      == Some(r)
    requires Archived(d, s, e) ==>
      && n.archives == Prepared(d, s.archives, JobOf(e), e.fault).0
      && n.origins == s.origins[Destination(d, e.details.destination).value := e.tree.value]
    ensures RecordKept(d, n, r)
  {
  }

  lemma PrepareKeeps(d: Declared, s: Desk, e: Event, now: int, saves: bool)
    requires e.Prepare? && SourceProper(e) && Kept(d, s)
    ensures Kept(d, Step(d, s, e, now, saves))
  {
    var n := Step(d, s, e, now, saves);
    forall id | id in n.records ensures RecordKept(d, n, n.records[id]) {
      if id in s.records && n.records[id] == s.records[id] {
        assert RecordKept(d, s, s.records[id]);
        if Archived(d, s, e) {
          var at, vs := Destination(d, e.details.destination).value, Visits(e.tree.value);
          ArchivesGrow(d, s, n, at, MembersOf(vs), e.tree.value, s.records[id]);
        }
      } else {
        NewRecordKept(d, s, n, e, n.records[id]);
      }
    }
  }

  /** What a restore test of a backed record finds: it succeeds, with the totals of the preparation, if
      and only if the tree can be extracted. */
  lemma RestoreTestExactly(d: Declared, s: Desk, r: B.Record)
    requires Backed(d, s, r)
    ensures RestoreTest(d, s.archives, r) ==
      if Restores(d, s, r)
      then Some(B.Evidence(d.name, r.checksum,
        d.render(RestoreTested(FileCount(Visits(Origin(d, s, r))), ByteCount(Visits(Origin(d, s, r))))), true))
      else None
  {
    BackupRoundTrip(Origin(d, s, r), d.safe);
  }

  lemma MovedKept(d: Declared, s: Desk, e: Event, now: int, saves: bool)
    requires !e.Prepare? && Kept(d, s)
    ensures Kept(d, Step(d, s, e, now, saves))
  {
    var n := Step(d, s, e, now, saves);
    if e.id in s.records {
      var r := s.records[e.id];
      assert RecordKept(d, s, r);
      if r.state != B.BLOCKED { RestoreTestExactly(d, s, r); }
    }
    forall id | id in n.records ensures RecordKept(d, n, n.records[id]) {
      assert RecordKept(d, s, s.records[id]);
    }
  }

  /** Over every run, with failing writes and saves: no archive that was prepared for a record that is
      not blocked is ever lost or changed, and the tree of a restore-tested one can be extracted. */
  lemma {:induction false} EveryRunKeepsBackups(d: Declared, events: seq<(Event, int, bool)>)
    requires forall i | 0 <= i < |events| :: SourceProper(events[i].0)
    ensures Kept(d, Run(d, events))
  {
    if events != [] {
      var before := events[..|events| - 1];
      EveryRunKeepsBackups(d, before);
      var (e, now, saves) := events[|events| - 1];
      if e.Prepare? {
        PrepareKeeps(d, Run(d, before), e, now, saves);
      } else {
        MovedKept(d, Run(d, before), e, now, saves);
      }
    }
  }

  predicate Printable(x: Screen, t: string) {
    !Blank(t) && |t| <= 512 && x.Clean(t)
  }

  /** The provider's own texts pass the check of the catalog. */
  ghost predicate Presentable(d: Declared) {
    && Printable(d.screen, d.name) && (forall n :: Printable(d.screen, d.render(n)))
    && (forall ms :: Printable(d.screen, d.sum(ms)))
  }

  lemma PresentableEvidence(d: Declared, ms: seq<Member>, n: Note, verified: bool)
    requires Presentable(d)
    ensures B.ValidEvidence(d.screen, Some(B.Evidence(d.name, d.sum(ms), d.render(n), verified)))
  {
    assert Printable(d.screen, d.render(n)) && Printable(d.screen, d.sum(ms));
  }

  lemma BackedVerifies(d: Declared, s: Desk, r: B.Record, now: int)
    requires Presentable(d) && Backed(d, s, r) && r.state == B.PREPARED
    ensures var v := B.Verify(d.screen, true, r, Verified(d, s.archives, r), now);
      v.Some? && v.value.state == B.VERIFIED
  {
    PresentableEvidence(d, s.archives[Destination(d, r.details.destination).value], ChecksumVerified, true);
  }

  lemma BackedRestoresExactly(d: Declared, s: Desk, r: B.Record, now: int)
    requires Presentable(d) && Backed(d, s, r) && r.state == B.VERIFIED
    ensures var v := B.RestoreTest(d.screen, true, r, RestoreTest(d, s.archives, r), now);
      v.Some? && v.value.state == if Restores(d, s, r) then B.RESTORE_TESTED else B.BLOCKED
  {
    var vs := Visits(Origin(d, s, r));
    RestoreTestExactly(d, s, r);
    PresentableEvidence(d, s.archives[Destination(d, r.details.destination).value],
      RestoreTested(FileCount(vs), ByteCount(vs)), true);
  }

  lemma VerifiedRecord(d: Declared, s: Desk, id: string, now: int)
    requires id in s.records
    requires B.Verify(d.screen, true, s.records[id], Verified(d, s.archives, s.records[id]), now).Some?
    ensures Step(d, s, VerifyIt(id), now, true).records ==
      s.records[id := B.Verify(d.screen, true, s.records[id], Verified(d, s.archives, s.records[id]), now).value]
  {
  }

  lemma TestedRecord(d: Declared, s: Desk, id: string, now: int)
    requires id in s.records
    requires B.RestoreTest(d.screen, true, s.records[id], RestoreTest(d, s.archives, s.records[id]), now).Some?
    ensures Step(d, s, TestRestore(id), now, true).records ==
      s.records[id := B.RestoreTest(d.screen, true, s.records[id], RestoreTest(d, s.archives, s.records[id]),
        now).value]
  {
  }

  lemma RunRecordKept(d: Declared, events: seq<(Event, int, bool)>, id: string)
    requires (forall i | 0 <= i < |events| :: SourceProper(events[i].0)) && id in Run(d, events).records
    ensures RecordKept(d, Run(d, events), Run(d, events).records[id])
  {
    EveryRunKeepsBackups(d, events);
  }

  /** After every run a prepared backup is found verified whenever it is asked for. */
  lemma EveryPreparedBackupVerifies(d: Declared, events: seq<(Event, int, bool)>, id: string, now: int)
    requires Presentable(d) && forall i | 0 <= i < |events| :: SourceProper(events[i].0)
    requires id in Run(d, events).records && Run(d, events).records[id].state == B.PREPARED
    ensures var n := Step(d, Run(d, events), VerifyIt(id), now, true);
      id in n.records && n.records[id].state == B.VERIFIED
  {
    RunRecordKept(d, events, id);
    BackedVerifies(d, Run(d, events), Run(d, events).records[id], now);
    VerifiedRecord(d, Run(d, events), id, now);
  }

  /** After every run the restore test of a verified backup succeeds if and only if every path that
      the scans of its tree delivered can be restored and no file had two of them. */
  lemma EveryVerifiedBackupRestoresExactly(d: Declared, events: seq<(Event, int, bool)>, id: string, now: int)
    requires Presentable(d) && forall i | 0 <= i < |events| :: SourceProper(events[i].0)
    requires id in Run(d, events).records && Run(d, events).records[id].state == B.VERIFIED
    ensures var s := Run(d, events); var n := Step(d, s, TestRestore(id), now, true);
      && id in n.records
      && n.records[id].state == if Restores(d, s, s.records[id]) then B.RESTORE_TESTED else B.BLOCKED
  {
    RunRecordKept(d, events, id);
    BackedRestoresExactly(d, Run(d, events), Run(d, events).records[id], now);
    TestedRecord(d, Run(d, events), id, now);
  }

  /** A changed or missing archive: with a digest that never repeats, the verification is positive only
      for the very archive that the checksum was taken of. */
  lemma ChangedArchiveIsNoticed(d: Declared, archives: Archives, r: B.Record, original: seq<Member>)
    requires (forall a, b | d.sum(a) == d.sum(b) :: a == b) && r.checksum == d.sum(original)
    requires Destination(d, r.details.destination).Some?
    ensures var at, e := Destination(d, r.details.destination).value, Verified(d, archives, r);
      e.Some? && (e.value.verified <==> at in archives && archives[at] == original)
  {
  }
}
