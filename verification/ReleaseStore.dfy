/** The release root: published release directories and one CURRENT pointer per project. */
module ReleaseStore {
  import opened Texts
  import opened Trees
  import opened Paths
  import opened Archive

  /** `Pointer(v)` is a file that holds `v` and a newline, as `_write_current` leaves it. */
  datatype Entry = Dir | Plain(content: Content) | Pointer(value: string)

  /** Everything under the release root, by relative path. */
  type Disk = map<Path, Entry>

  // ----- copying an artifact -----

  /** The directory that `_copy_tree` builds, by path relative to it. */
  function Image(vs: seq<Visit>): Disk {
    if vs == [] then map[[] := Dir]
    else
      var rest, v := Image(vs[..|vs| - 1]), vs[|vs| - 1];
      if v.Leaf? then rest + (map q | q in Above(v.path) :: Dir) + map[v.path := Plain(v.node.content)] else rest
  }

  /** `_copy_tree` over the visits of the walk, with the running counters of the source. */
  method CopyTree(vs: seq<Visit>, safe: Content -> bool) returns (r: Result<(Disk, nat, nat)>)
    ensures r == if Accepts(vs, safe) then Ok((Image(vs), FileCount(vs), ByteCount(vs))) else Refused
  {
    var stage: Disk := map[[] := Dir];
    var files, total := 0, 0;
    for i := 0 to |vs|
      invariant stage == Image(vs[..i]) && files == FileCount(vs[..i]) && total == ByteCount(vs[..i])
      invariant forall j | 0 <= j < i :: Allowed(vs[j], safe)
      invariant files <= MAX_FILES && total <= MAX_TOTAL_BYTES
    {
      var v := vs[i];
      CountsGrow(vs, i + 1);
      assert vs[..i + 1][..i] == vs[..i];
      if !Allowed(v, safe) {
        return Refused;
      }
      if v.Leaf? {
        if total + |v.node.content| > MAX_TOTAL_BYTES {
          return Refused;
        }
        stage := stage + (map q | q in Above(v.path) :: Dir) + map[v.path := Plain(v.node.content)];
        files := files + 1;
        total := total + |v.node.content|;
        if files > MAX_FILES {
          return Refused;
        }
      }
    }
    assert vs[..|vs|] == vs;
    r := Ok((stage, files, total));
  }

  // ----- directory operations -----

  predicate IsDir(d: Disk, p: Path) {
    p in d && d[p].Dir?
  }

  function CurrentPath(project: Path): Path {
    project + ["CURRENT"]
  }

  /** `mkdir(parents=True, exist_ok=True)` */
  predicate CanMake(d: Disk, p: Path) {
    forall k | 0 <= k <= |p| && p[..k] in d :: d[p[..k]].Dir?
  }

  function Make(d: Disk, p: Path): Disk {
    d + map q | q in Above(p) + {p} :: Dir
  }

  /** A rename of the staged directory to a free place. */
  function Graft(d: Disk, at: Path, image: Disk): Disk {
    map p | p in d.Keys + (set q | q in image.Keys :: at + q) ::
      if at <= p && p[|at|..] in image then image[p[|at|..]] else if p in d then d[p] else Dir
  }

  lemma GraftAt(d: Disk, at: Path, image: Disk, p: Path)
    ensures p in Graft(d, at, image) <==> p in d || (at <= p && p[|at|..] in image)
    ensures p in Graft(d, at, image) ==>
      Graft(d, at, image)[p] == if at <= p && p[|at|..] in image then image[p[|at|..]] else d[p]
  {
    if at <= p && p[|at|..] in image {
      assert p == at + p[|at|..];
    }
    if q :| q in image.Keys && p == at + q {
      assert p[|at|..] == q;
    }
  }

  // ----- deploy, rollback -----

  /** The operation that fails, if any. */
  datatype Fault = NoFault | CopyFails | RenameFails | PointerFails

  datatype Outcome = Failed | Ready(files: nat, total: nat)

  datatype Request = Request(project: Path, commit: Path, visits: seq<Visit>)

  /** The checks before anything is changed: both names are accepted and the artifact exists. */
  function Admit(artifacts: map<Path, Tree>, project: string, commit: string): Option<Request> {
    match SafeRelative(project)
    case None => None
    case Some(p) =>
      match SafeRelative(commit)
      case None => None
      case Some(c) => if c in artifacts then Some(Request(p, c, Visits(artifacts[c]))) else None
  }

  /** The release directory appears: nothing is in its place, the copy and the rename succeed. */
  predicate Publishes(d: Disk, r: Request, safe: Content -> bool, fault: Fault) {
    && CanMake(d, r.project)
    && r.project + r.commit !in Make(d, r.project)
    && r.commit != []
    && !fault.CopyFails? && Accepts(r.visits, safe)
    && !fault.RenameFails? && IsDir(Make(d, r.project), r.project + r.commit[..|r.commit| - 1])
  }

  function Published(d: Disk, r: Request): Disk {
    Graft(Make(d, r.project), r.project + r.commit, Image(r.visits))
  }

  predicate CanPoint(d: Disk, project: Path, fails: bool) {
    !fails && !IsDir(d, CurrentPath(project))
  }

  function Pointed(d: Disk, project: Path, target: Path): Disk {
    d[CurrentPath(project) := Pointer(Posix(target))]
  }

  /** What `_read_current` returns is compared with the printed path. */
  predicate ReadsBack(target: Path) {
    Strip(Posix(target)) == Posix(target)
  }

  function Deployed(d: Disk, r: Request, safe: Content -> bool, fault: Fault): (Disk, Outcome) {
    if !CanMake(d, r.project) then (d, Failed)
    else if !Publishes(d, r, safe, fault) then (Make(d, r.project), Failed)
    else
      var published := Published(d, r);
      if !CanPoint(published, r.project, fault.PointerFails?) then (published, Failed)
      else if !ReadsBack(r.commit) then (Pointed(published, r.project, r.commit), Failed)
      else (Pointed(published, r.project, r.commit), Ready(FileCount(r.visits), ByteCount(r.visits)))
  }

  function RolledBack(d: Disk, project: Path, target: Path, fails: bool): (Disk, bool) {
    if !IsDir(d, project + target) || !CanPoint(d, project, fails) then (d, false)
    else (Pointed(d, project, target), ReadsBack(target))
  }

  class FilesystemReleaseProvider {
    const artifacts: map<Path, Tree>
    const safe: Content -> bool
    var disk: Disk

    constructor (artifacts: map<Path, Tree>, safe: Content -> bool)
      ensures this.artifacts == artifacts && this.safe == safe && disk == map[[] := Dir]
    {
      this.artifacts, this.safe := artifacts, safe;
      disk := map[[] := Dir];
    }

    method Deploy(project: string, commit: string, fault: Fault) returns (outcome: Outcome)
      modifies this
      ensures match Admit(artifacts, project, commit)
        case None => disk == old(disk) && outcome == Failed
        case Some(r) => (disk, outcome) == Deployed(old(disk), r, safe, fault)
    {
      var admitted := Admit(artifacts, project, commit);
      if admitted == None {
        return Failed;
      }
      var r := admitted.value;
      if !CanMake(disk, r.project) {
        return Failed;
      }
      disk := Make(disk, r.project);
      var release := r.project + r.commit;
      if release in disk {
        return Failed;
      }
      if fault.CopyFails? {
        return Failed;
      }
      var copied := CopyTree(r.visits, safe);
      if copied.Refused? || fault.RenameFails? || r.commit == [] {
        return Failed;
      }
      if !IsDir(disk, r.project + r.commit[..|r.commit| - 1]) {
        return Failed;
      }
      disk := Graft(disk, release, copied.value.0);
      if !CanPoint(disk, r.project, fault.PointerFails?) {
        return Failed;
      }
      disk := Pointed(disk, r.project, r.commit);
      if !ReadsBack(r.commit) {
        return Failed;
      }
      outcome := Ready(copied.value.1, copied.value.2);
    }

    method Rollback(project: string, target: string, fails: bool) returns (verified: bool)
      modifies this
      ensures match (SafeRelative(project), SafeRelative(target))
        case (Some(p), Some(t)) => (disk, verified) == RolledBack(old(disk), p, t, fails)
        case _ => disk == old(disk) && !verified
    {
      var p, t := SafeRelative(project), SafeRelative(target);
      if p == None || t == None || !IsDir(disk, p.value + t.value) || !CanPoint(disk, p.value, fails) {
        return false;
      }
      disk := Pointed(disk, p.value, t.value);
      verified := ReadsBack(t.value);
    }

    /** The post-check: the release is a directory and CURRENT reads back as the commit. */
    method Validate(project: string, commit: string) returns (verified: bool)
      ensures verified <==>
        && SafeRelative(project).Some? && SafeRelative(commit).Some?
        && IsDir(disk, SafeRelative(project).value + SafeRelative(commit).value)
        && ReadCurrent(disk, SafeRelative(project).value) == Some(Posix(SafeRelative(commit).value))
    {
      var p, c := SafeRelative(project), SafeRelative(commit);
      if p == None || c == None || !IsDir(disk, p.value + c.value) {
        return false;
      }
      var current := ReadCurrent(disk, p.value);
      verified := current == Some(Posix(c.value));
    }
  }

  /** `_read_current`; only files that `_write_current` wrote are readable in this model. */
  function ReadCurrent(d: Disk, project: Path): Option<string> {
    var at := CurrentPath(project);
    if at in d && d[at].Pointer? && Strip(d[at].value) != "" then Some(Strip(d[at].value)) else None
  }
}
