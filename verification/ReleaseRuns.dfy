/** Sequences of deploys and rollbacks on one release root. */
module ReleaseRuns {
  import opened Texts
  import opened Trees
  import opened Paths
  import opened Archive
  import opened ReleaseStore
  import opened ReleaseProofs

  datatype Op =
    | DeployOp(project: string, commit: string, fault: Fault)
    | RollbackOp(project: string, target: string, fails: bool)

  datatype Release = Release(at: Path, image: Disk)

  /** The disk with every release that ever appeared on it. */
  datatype World = World(disk: Disk, releases: seq<Release>)

  /** A declared artifact root: well-formed listings by commit path. */
  ghost predicate Declared(artifacts: map<Path, Tree>) {
    forall c | c in artifacts :: WellFormed(artifacts[c].entries)
  }

  function Apply(w: World, artifacts: map<Path, Tree>, safe: Content -> bool, op: Op): World {
    match op
    case DeployOp(project, commit, fault) =>
      (match Admit(artifacts, project, commit)
       case None => w
       case Some(r) =>
         World(
           Deployed(w.disk, r, safe, fault).0,
           w.releases +
             if Publishes(w.disk, r, safe, fault) then [Release(r.project + r.commit, Image(r.visits))] else []))
    case RollbackOp(project, target, fails) =>
      (match (SafeRelative(project), SafeRelative(target))
       case (Some(p), Some(t)) => w.(disk := RolledBack(w.disk, p, t, fails).0)
       case _ => w)
  }

  function Run(artifacts: map<Path, Tree>, safe: Content -> bool, ops: seq<Op>): World {
    if ops == [] then World(map[[] := Dir], [])
    else Apply(Run(artifacts, safe, ops[..|ops| - 1]), artifacts, safe, ops[|ops| - 1])
  }

  lemma AdmittedRequest(artifacts: map<Path, Tree>, project: string, commit: string)
    requires Declared(artifacts) && Admit(artifacts, project, commit).Some?
    ensures var r := Admit(artifacts, project, commit).value;
      && Placeable(r.visits) && Parts(Posix(r.commit), "") == r.commit
      && (r.commit == [] || ProperPath(r.commit)) && (r.project == [] || ProperPath(r.project))
  {
    AcceptedNamesAreStable(project);
    AcceptedNamesAreStable(commit);
    VisitsPlaceable(artifacts[SafeRelative(commit).value]);
  }

  /** Over every run, with any names and any failures: every entry lies in a directory and every
      CURRENT file names a directory that exists in its project. */
  lemma {:induction false} EveryRunKeepsPointers(artifacts: map<Path, Tree>, safe: Content -> bool, ops: seq<Op>)
    requires Declared(artifacts)
    ensures TreeShaped(Run(artifacts, safe, ops).disk) && PointersResolve(Run(artifacts, safe, ops).disk)
  {
    if ops != [] {
      var n := |ops| - 1;
      EveryRunKeepsPointers(artifacts, safe, ops[..n]);
      var w := Run(artifacts, safe, ops[..n]);
      match ops[n] {
        case DeployOp(project, commit, fault) =>
          if Admit(artifacts, project, commit).Some? {
            AdmittedRequest(artifacts, project, commit);
            DeployKeeps(w.disk, Admit(artifacts, project, commit).value, safe, fault);
          }
        case RollbackOp(project, target, fails) =>
          if SafeRelative(project).Some? && SafeRelative(target).Some? {
            AcceptedNamesAreStable(target);
            RollbackKeeps(w.disk, SafeRelative(project).value, SafeRelative(target).value, fails);
          }
      }
    }
  }

  // ----- runs whose names are single components -----

  predicate FlatName(name: string) {
    SafeRelative(name).Some? ==> |SafeRelative(name).value| == 1
  }

  predicate Flat(op: Op) {
    FlatName(op.project) && FlatName(if op.DeployOp? then op.commit else op.target)
  }

  ghost predicate ReleasedAt(w: World, p: Path) {
    exists i :: 0 <= i < |w.releases| && w.releases[i].at == p
  }

  ghost predicate ReleasesHold(d: Disk, releases: seq<Release>) {
    forall i | 0 <= i < |releases| ::
      |releases[i].at| == 2 && IsDir(d, releases[i].at) && Intact(d, releases[i].at, releases[i].image)
  }

  ghost predicate DirsAreReleases(w: World) {
    forall p | IsDir(w.disk, p) && |p| == 2 :: ReleasedAt(w, p)
  }

  ghost predicate FlatPointers(d: Disk) {
    forall p | p in d && d[p].Pointer? :: |p| == 2 && |Parts(d[p].value, "")| == 1
  }

  ghost predicate FlatKept(w: World) {
    && TreeShaped(w.disk) && PointersResolve(w.disk) && FlatPointers(w.disk)
    && ReleasesHold(w.disk, w.releases) && DirsAreReleases(w)
  }

  /** What a deploy can add or change, entry by entry. */
  lemma NewEntry(d: Disk, r: Request, safe: Content -> bool, fault: Fault, p: Path)
    requires TreeShaped(d) && Placeable(r.visits)
    requires p in Deployed(d, r, safe, fault).0 && !(p in d && d[p] == Deployed(d, r, safe, fault).0[p])
    ensures var after := Deployed(d, r, safe, fault).0;
      || (p !in d && after[p].Dir? && p <= r.project)
      || (p !in d && Publishes(d, r, safe, fault) && r.project + r.commit <= p && !after[p].Pointer?)
      || (p == CurrentPath(r.project) && after[p] == Pointer(Posix(r.commit)))
  {
    if CanMake(d, r.project) {
      if Publishes(d, r, safe, fault) {
        NewEntryPublished(d, r, safe, fault, p);
      } else {
        MakeShape(d, r.project);
      }
    }
  }

  lemma NewEntryPublished(d: Disk, r: Request, safe: Content -> bool, fault: Fault, p: Path)
    requires TreeShaped(d) && Placeable(r.visits) && Publishes(d, r, safe, fault)
    requires p in Deployed(d, r, safe, fault).0 && !(p in d && d[p] == Deployed(d, r, safe, fault).0[p])
    ensures var after := Deployed(d, r, safe, fault).0;
      || (p !in d && after[p].Dir? && p <= r.project)
      || (p !in d && r.project + r.commit <= p && !after[p].Pointer?)
      || (p == CurrentPath(r.project) && after[p] == Pointer(Posix(r.commit)))
  {
    PublishedShape(d, r, safe, fault);
    var after, published := Deployed(d, r, safe, fault).0, Published(d, r);
    assert after == published || after == Pointed(published, r.project, r.commit);
  }

  lemma FlatDeployReleases(w: World, r: Request, safe: Content -> bool, fault: Fault)
    requires TreeShaped(w.disk) && ReleasesHold(w.disk, w.releases)
    requires |r.project| == 1 && |r.commit| == 1 && Placeable(r.visits) && ProperPath(r.commit)
    requires DirsStay(w.disk, Deployed(w.disk, r, safe, fault).0)
    ensures ReleasesHold(Deployed(w.disk, r, safe, fault).0, w.releases)
  {
    var after := Deployed(w.disk, r, safe, fault).0;
    forall i | 0 <= i < |w.releases|
      ensures IsDir(after, w.releases[i].at) && Intact(after, w.releases[i].at, w.releases[i].image)
    {
      var q := w.releases[i].at;
      DeployAltersExactly(w.disk, r, safe, fault, q);
      if Publishes(w.disk, r, safe, fault) {
        MakeShape(w.disk, r.project);
        assert q != r.project + r.commit;
        assert !(q <= r.project + r.commit);
      }
      assert SameBelow(w.disk, after, q);
      assert Intact(w.disk, q, w.releases[i].image);
    }
  }

  lemma FlatDeployNew(d: Disk, r: Request, safe: Content -> bool, fault: Fault)
    requires TreeShaped(d) && Placeable(r.visits) && Publishes(d, r, safe, fault) && ProperPath(r.commit)
    ensures var after, at := Deployed(d, r, safe, fault).0, r.project + r.commit;
      IsDir(after, at) && Intact(after, at, Image(r.visits))
  {
    DeployPointer(d, r, safe, fault);
    ImageTreeShaped(r.visits);
    var after, at := Deployed(d, r, safe, fault).0, r.project + r.commit;
    assert at <= at && at[|at|..] == [];
  }

  lemma FlatDeployDirs(w: World, n: World, r: Request, safe: Content -> bool, fault: Fault)
    requires TreeShaped(w.disk) && DirsAreReleases(w) && Placeable(r.visits) && |r.project| == 1 && |r.commit| == 1
    requires n.disk == Deployed(w.disk, r, safe, fault).0 && w.releases <= n.releases
    requires Publishes(w.disk, r, safe, fault) ==> ReleasedAt(n, r.project + r.commit)
    ensures DirsAreReleases(n)
  {
    forall p | IsDir(n.disk, p) && |p| == 2 ensures ReleasedAt(n, p) {
      if IsDir(w.disk, p) {
        var i :| 0 <= i < |w.releases| && w.releases[i].at == p;
        assert n.releases[i].at == p;
      } else {
        NewEntry(w.disk, r, safe, fault, p);
        assert p == r.project + r.commit;
      }
    }
  }

  lemma FlatDeployPointers(d: Disk, r: Request, safe: Content -> bool, fault: Fault)
    requires TreeShaped(d) && FlatPointers(d) && Placeable(r.visits)
    requires |r.project| == 1 && |r.commit| == 1 && Parts(Posix(r.commit), "") == r.commit
    ensures FlatPointers(Deployed(d, r, safe, fault).0)
  {
    var after := Deployed(d, r, safe, fault).0;
    forall p | p in after && after[p].Pointer? ensures |p| == 2 && |Parts(after[p].value, "")| == 1 {
      if !(p in d && d[p] == after[p]) {
        NewEntry(d, r, safe, fault, p);
      }
    }
  }

  lemma HoldAppend(d: Disk, releases: seq<Release>, rel: Release)
    requires ReleasesHold(d, releases) && |rel.at| == 2 && IsDir(d, rel.at) && Intact(d, rel.at, rel.image)
    ensures ReleasesHold(d, releases + [rel])
  {
    forall i | 0 <= i <= |releases|
      ensures var x := (releases + [rel])[i]; |x.at| == 2 && IsDir(d, x.at) && Intact(d, x.at, x.image)
    {
      if i < |releases| {
        assert (releases + [rel])[i] == releases[i];
      }
    }
  }

  lemma FlatDeploy(w: World, r: Request, safe: Content -> bool, fault: Fault)
    requires FlatKept(w) && |r.project| == 1 && |r.commit| == 1
    requires Placeable(r.visits) && Parts(Posix(r.commit), "") == r.commit && ProperPath(r.commit)
    ensures FlatKept(World(Deployed(w.disk, r, safe, fault).0,
      w.releases + if Publishes(w.disk, r, safe, fault) then [Release(r.project + r.commit, Image(r.visits))] else []))
  {
    var published := Publishes(w.disk, r, safe, fault);
    var n := World(Deployed(w.disk, r, safe, fault).0,
      w.releases + if published then [Release(r.project + r.commit, Image(r.visits))] else []);
    DeployKeeps(w.disk, r, safe, fault);
    FlatDeployReleases(w, r, safe, fault);
    if published {
      FlatDeployNew(w.disk, r, safe, fault);
      assert n.releases[|w.releases|].at == r.project + r.commit;
      HoldAppend(n.disk, w.releases, Release(r.project + r.commit, Image(r.visits)));
    } else {
      assert n.releases == w.releases;
    }
    FlatDeployDirs(w, n, r, safe, fault);
    FlatDeployPointers(w.disk, r, safe, fault);
  }

  lemma FlatRollback(w: World, project: Path, target: Path, fails: bool)
    requires FlatKept(w) && |project| == 1 && |target| == 1 && Parts(Posix(target), "") == target
    ensures FlatKept(w.(disk := RolledBack(w.disk, project, target, fails).0))
  {
    var after := RolledBack(w.disk, project, target, fails).0;
    var n := w.(disk := after);
    RollbackKeeps(w.disk, project, target, fails);
    forall i | 0 <= i < |w.releases|
      ensures IsDir(after, w.releases[i].at) && Intact(after, w.releases[i].at, w.releases[i].image)
    {
      RollbackAltersExactly(w.disk, project, target, fails, w.releases[i].at);
      assert SameBelow(w.disk, after, w.releases[i].at);
      assert Intact(w.disk, w.releases[i].at, w.releases[i].image);
    }
    forall p | IsDir(after, p) && |p| == 2 ensures ReleasedAt(n, p) {
      assert ReleasedAt(w, p);
    }
  }

  lemma FlatStep(w: World, artifacts: map<Path, Tree>, safe: Content -> bool, op: Op)
    requires Declared(artifacts) && Flat(op) && FlatKept(w)
    ensures FlatKept(Apply(w, artifacts, safe, op))
  {
    match op {
      case DeployOp(project, commit, fault) =>
        if Admit(artifacts, project, commit).Some? {
          AdmittedRequest(artifacts, project, commit);
          FlatDeploy(w, Admit(artifacts, project, commit).value, safe, fault);
        }
      case RollbackOp(project, target, fails) =>
        if SafeRelative(project).Some? && SafeRelative(target).Some? {
          AcceptedNamesAreStable(target);
          FlatRollback(w, SafeRelative(project).value, SafeRelative(target).value, fails);
        }
    }
  }

  lemma FlatInitial()
    ensures FlatKept(World(map[[] := Dir], []))
  {
  }

  lemma {:induction false} FlatRunKept(artifacts: map<Path, Tree>, safe: Content -> bool, ops: seq<Op>)
    requires Declared(artifacts) && forall op | op in ops :: Flat(op)
    ensures FlatKept(Run(artifacts, safe, ops))
  {
    if ops == [] {
      FlatInitial();
    } else {
      FlatRunKept(artifacts, safe, ops[..|ops| - 1]);
      FlatStep(Run(artifacts, safe, ops[..|ops| - 1]), artifacts, safe, ops[|ops| - 1]);
    }
  }

  /** Over every run with single-component names and any failures: every release that ever
      appeared still holds exactly its copied tree, and every CURRENT names one of them. */
  lemma EveryFlatRunKeepsReleases(artifacts: map<Path, Tree>, safe: Content -> bool, ops: seq<Op>)
    requires Declared(artifacts) && forall op | op in ops :: Flat(op)
    ensures var w := Run(artifacts, safe, ops);
      && (forall i | 0 <= i < |w.releases| :: Intact(w.disk, w.releases[i].at, w.releases[i].image))
      && (forall p | p in w.disk && w.disk[p].Pointer? ::
            p != [] && p == CurrentPath(p[..|p| - 1]) && ReleasedAt(w, p[..|p| - 1] + Parts(w.disk[p].value, "")))
  {
    FlatRunKept(artifacts, safe, ops);
  }

  // ----- names of several components -----

  /** A commit name with several components is published inside the release that a shorter name
      already stands for, and alters it. */
  lemma NestedCommitAltersARelease(d: Disk, r: Request, safe: Content -> bool, image: Disk, k: nat)
    requires TreeShaped(d) && Placeable(r.visits) && Publishes(d, r, safe, NoFault)
    requires 0 < k < |r.commit| && Intact(d, r.project + r.commit[..k], image)
    ensures !Intact(Deployed(d, r, safe, NoFault).0, r.project + r.commit[..k], image)
  {
    var q, at, after := r.project + r.commit[..k], r.project + r.commit, Deployed(d, r, safe, NoFault).0;
    MakeShape(d, r.project);
    PublishedShape(d, r, safe, NoFault);
    ImageTreeShaped(r.visits);
    assert at <= at && at[|at|..] == [];
    assert q <= at && at in after && at !in d;
  }

  /** A short plain name is accepted as the path of that one component. */
  lemma PlainNameAccepted(n: string)
    requires ProperName(n) && !UnsafePart(n) && !Blank(n) && |n| <= 256 && n != ".."
    requires forall i | 0 <= i < |n| :: !Unprintable(n[i])
    ensures SafeRelative(n) == Some([n])
  {
    PosixRoundTrip([n]);
  }

  lemma NestedNameAccepted()
    ensures SafeRelative("v1/x") == Some(["v1", "x"])
  {
    PosixRoundTrip(["v1", "x"]);
    assert Posix(["v1", "x"]) == "v1/x" by { assert ["v1", "x"][1..] == ["x"]; }
    assert !Space("v1/x"[0]);
  }

  /** An artifact root with the directory `v1`, which holds the empty directory `x`. */
  const NESTED := map[["v1"] := Tree(true, Directory("x", true, End, End)), ["v1", "x"] := Tree(true, End)]

  const OUTER := Request(["app"], ["v1"], [Enter(["x"])])
  const INNER := Request(["app"], ["v1", "x"], [])

  lemma ShortNamesAccepted()
    ensures SafeRelative("app") == Some(["app"]) && SafeRelative("v1") == Some(["v1"])
  {
    assert !Space("app"[0]) && !Space("v1"[0]);
    PlainNameAccepted("app");
    PlainNameAccepted("v1");
  }

  lemma NestedRequests()
    ensures Declared(NESTED)
    ensures Admit(NESTED, "app", "v1") == Some(OUTER) && Admit(NESTED, "app", "v1/x") == Some(INNER)
  {
    ShortNamesAccepted();
    NestedNameAccepted();
    assert [] + ["x"] == ["x"];
    assert Seen(Directory("x", true, End, End)) == Directory("x", true, End, End);
    assert Walk(Directory("x", true, End, End), []) == [Enter(["x"])];
  }

  const EMPTY: Disk := map[[] := Dir]

  lemma OuterPublishes(safe: Content -> bool)
    ensures Publishes(EMPTY, OUTER, safe, NoFault) && Image(OUTER.visits) == map[[] := Dir] && TreeShaped(EMPTY)
    ensures Placeable(OUTER.visits)
  {
    assert ["app"][..0] == [] && ["app"][..1] == ["app"] && ["v1"][..0] == [] && ["app"] + [] == ["app"];
    assert OUTER.visits[..0] == [];
    MakeShape(EMPTY, ["app"]);
  }

  /** The disk after the first of the two deploys. */
  lemma OuterDeployed(safe: Content -> bool)
    ensures var d := Deployed(EMPTY, OUTER, safe, NoFault).0;
      TreeShaped(d) && IsDir(d, ["app", "v1"]) && Intact(d, ["app", "v1"], Image(OUTER.visits))
  {
    OuterPublishes(safe);
    FlatDeployNew(EMPTY, OUTER, safe, NoFault);
    assert OUTER.project + OUTER.commit == ["app", "v1"];
    assert PointersResolve(EMPTY);
    PosixRoundTrip(["v1"]);
    DeployKeeps(EMPTY, OUTER, safe, NoFault);
  }

  lemma InnerPublishes(d: Disk, safe: Content -> bool)
    requires TreeShaped(d) && IsDir(d, ["app", "v1"]) && Intact(d, ["app", "v1"], map[[] := Dir])
    ensures Publishes(d, INNER, safe, NoFault)
  {
    assert ["app"][..0] == [] && ["app"][..1] == ["app"] && ["v1", "x"][..1] == ["v1"];
    assert ["app", "v1"][..0] == [] && ["app", "v1"][..1] == ["app"];
    assert ["app"] + ["v1"] == ["app", "v1"] && ["app"] + ["v1", "x"] == ["app", "v1", "x"];
    assert ["app", "v1"] <= ["app", "v1", "x"] && ["app", "v1", "x"][2..] == ["x"];
  }

  /** A concrete run: `v1` is deployed, then `v1/x` is admitted and published inside it, and the
      first release is no longer what was deployed. */
  lemma NestedCommitIsAccepted(safe: Content -> bool)
    ensures Declared(NESTED)
    ensures var w := Run(NESTED, safe, [DeployOp("app", "v1", NoFault), DeployOp("app", "v1/x", NoFault)]);
      && w.releases == [Release(["app", "v1"], Image(OUTER.visits)), Release(["app", "v1", "x"], Image([]))]
      && !Intact(w.disk, ["app", "v1"], Image(OUTER.visits))
  {
    var d := Deployed(EMPTY, OUTER, safe, NoFault).0;
    OuterApplied(safe);
    OuterDeployed(safe);
    InnerApplied(World(d, [Release(["app", "v1"], Image(OUTER.visits))]), safe);
    RunOfTwo(NESTED, safe, DeployOp("app", "v1", NoFault), DeployOp("app", "v1/x", NoFault));
    NestedRequests();
  }

  lemma OuterApplied(safe: Content -> bool)
    ensures Apply(World(EMPTY, []), NESTED, safe, DeployOp("app", "v1", NoFault)) ==
      World(Deployed(EMPTY, OUTER, safe, NoFault).0, [Release(["app", "v1"], Image(OUTER.visits))])
    ensures Image(OUTER.visits) == map[[] := Dir]
  {
    NestedRequests();
    OuterPublishes(safe);
    assert OUTER.project + OUTER.commit == ["app", "v1"];
  }

  lemma InnerApplied(w: World, safe: Content -> bool)
    requires TreeShaped(w.disk) && IsDir(w.disk, ["app", "v1"]) && Intact(w.disk, ["app", "v1"], map[[] := Dir])
    ensures var after := Apply(w, NESTED, safe, DeployOp("app", "v1/x", NoFault));
      && after.releases == w.releases + [Release(["app", "v1", "x"], Image([]))]
      && !Intact(after.disk, ["app", "v1"], map[[] := Dir])
  {
    NestedRequests();
    InnerAlters(w.disk, safe);
    assert INNER.project + INNER.commit == ["app", "v1", "x"];
  }

  lemma InnerAlters(d: Disk, safe: Content -> bool)
    requires TreeShaped(d) && IsDir(d, ["app", "v1"]) && Intact(d, ["app", "v1"], map[[] := Dir])
    ensures Publishes(d, INNER, safe, NoFault)
    ensures !Intact(Deployed(d, INNER, safe, NoFault).0, ["app", "v1"], map[[] := Dir])
  {
    InnerPublishes(d, safe);
    assert INNER.project + INNER.commit[..1] == ["app", "v1"];
    NestedCommitAltersARelease(d, INNER, safe, map[[] := Dir], 1);
  }

  lemma RunOfTwo(artifacts: map<Path, Tree>, safe: Content -> bool, first: Op, second: Op)
    ensures Run(artifacts, safe, [first, second]) ==
      Apply(Apply(World(map[[] := Dir], []), artifacts, safe, first), artifacts, safe, second)
  {
    assert [first, second][..1] == [first] && [first][..0] == [];
    assert Run(artifacts, safe, []) == World(map[[] := Dir], []);
    assert Run(artifacts, safe, [first]) == Apply(World(map[[] := Dir], []), artifacts, safe, first);
  }

  // ----- rollbacks to a directory that is no release -----

  /** Every CURRENT names a release that was published. */
  ghost predicate PointersReleased(w: World) {
    forall p | p in w.disk && w.disk[p].Pointer? ::
      p != [] && ReleasedAt(w, p[..|p| - 1] + Parts(w.disk[p].value, ""))
  }

  /** A rollback that switches CURRENT. */
  predicate Switches(d: Disk, op: Op) {
    && op.RollbackOp? && SafeRelative(op.project).Some? && SafeRelative(op.target).Some?
    && IsDir(d, SafeRelative(op.project).value + SafeRelative(op.target).value)
    && CanPoint(d, SafeRelative(op.project).value, op.fails)
  }

  /** If the operation is such a rollback, its target is the path of a published release. */
  ghost predicate ToRelease(w: World, op: Op) {
    Switches(w.disk, op) ==> ReleasedAt(w, SafeRelative(op.project).value + SafeRelative(op.target).value)
  }

  /** At every step of a run. */
  ghost predicate AllToReleases(artifacts: map<Path, Tree>, safe: Content -> bool, ops: seq<Op>) {
    ops != [] ==>
      && AllToReleases(artifacts, safe, ops[..|ops| - 1])
      && ToRelease(Run(artifacts, safe, ops[..|ops| - 1]), ops[|ops| - 1])
  }

  /** At every moment of a run. */
  ghost predicate AlwaysReleased(artifacts: map<Path, Tree>, safe: Content -> bool, ops: seq<Op>) {
    && PointersReleased(Run(artifacts, safe, ops))
    && (ops != [] ==> AlwaysReleased(artifacts, safe, ops[..|ops| - 1]))
  }

  lemma StaysReleased(w: World, n: World, p: Path)
    requires ReleasedAt(w, p) && w.releases <= n.releases
    ensures ReleasedAt(n, p)
  {
    var i :| 0 <= i < |w.releases| && w.releases[i].at == p;
    assert n.releases[i].at == p;
  }

  lemma PublishedNow(w: World, r: Request)
    ensures ReleasedAt(w.(releases := w.releases + [Release(r.project + r.commit, Image(r.visits))]),
      r.project + r.commit)
  {
    var n := w.(releases := w.releases + [Release(r.project + r.commit, Image(r.visits))]);
    assert n.releases[|w.releases|].at == r.project + r.commit;
  }

  /** Only a deploy that published its release switches CURRENT. */
  lemma SwitchedToPublished(d: Disk, r: Request, safe: Content -> bool, fault: Fault, p: Path)
    requires TreeShaped(d) && Placeable(r.visits)
    requires p in Deployed(d, r, safe, fault).0 && Deployed(d, r, safe, fault).0[p].Pointer?
    requires !(p in d && d[p] == Deployed(d, r, safe, fault).0[p])
    ensures p == CurrentPath(r.project) && Deployed(d, r, safe, fault).0[p] == Pointer(Posix(r.commit))
    ensures Publishes(d, r, safe, fault)
  {
    NewEntry(d, r, safe, fault, p);
    if CanMake(d, r.project) && !Publishes(d, r, safe, fault) {
      MakeShape(d, r.project);
    }
  }

  lemma DeployReleased(w: World, artifacts: map<Path, Tree>, safe: Content -> bool, op: Op)
    requires Declared(artifacts) && op.DeployOp? && TreeShaped(w.disk) && PointersReleased(w)
    ensures PointersReleased(Apply(w, artifacts, safe, op))
  {
    var admitted := Admit(artifacts, op.project, op.commit);
    if admitted.Some? {
      var r, n := admitted.value, Apply(w, artifacts, safe, op);
      AdmittedRequest(artifacts, op.project, op.commit);
      forall p | p in n.disk && n.disk[p].Pointer?
        ensures p != [] && ReleasedAt(n, p[..|p| - 1] + Parts(n.disk[p].value, ""))
      {
        if p in w.disk && w.disk[p] == n.disk[p] {
          StaysReleased(w, n, p[..|p| - 1] + Parts(n.disk[p].value, ""));
        } else {
          SwitchedToPublished(w.disk, r, safe, op.fault, p);
          PublishedNow(w, r);
          assert p[..|p| - 1] == r.project;
        }
      }
    }
  }

  lemma RollbackReleased(w: World, artifacts: map<Path, Tree>, safe: Content -> bool, op: Op)
    requires op.RollbackOp? && PointersReleased(w)
    ensures PointersReleased(Apply(w, artifacts, safe, op)) <==> ToRelease(w, op)
  {
    if Switches(w.disk, op) {
      var project, target := SafeRelative(op.project).value, SafeRelative(op.target).value;
      var n, current := Apply(w, artifacts, safe, op), CurrentPath(project);
      AcceptedNamesAreStable(op.target);
      assert n.disk[current] == Pointer(Posix(target)) && current[..|current| - 1] == project;
      assert forall q :: ReleasedAt(n, q) <==> ReleasedAt(w, q);
    }
  }

  /** Over every run, with any names and any failures: every CURRENT names a published release at every
      moment if and only if every rollback that switched one was given the path of such a release. */
  lemma {:induction false} CurrentNamesAReleaseExactly(artifacts: map<Path, Tree>, safe: Content -> bool, ops: seq<Op>)
    requires Declared(artifacts)
    ensures AlwaysReleased(artifacts, safe, ops) <==> AllToReleases(artifacts, safe, ops)
  {
    if ops != [] {
      var n := |ops| - 1;
      var w := Run(artifacts, safe, ops[..n]);
      CurrentNamesAReleaseExactly(artifacts, safe, ops[..n]);
      EveryRunKeepsPointers(artifacts, safe, ops[..n]);
      if PointersReleased(w) {
        if ops[n].DeployOp? {
          DeployReleased(w, artifacts, safe, ops[n]);
        } else {
          RollbackReleased(w, artifacts, safe, ops[n]);
        }
      }
    }
  }

  /** A concrete run: the copy of the only deploy fails, and the rollback to "." that follows succeeds.
      No release was ever published, and CURRENT names the project directory itself. */
  lemma RollbackNeedsNoRelease(safe: Content -> bool)
    ensures Declared(NESTED)
    ensures var w := Run(NESTED, safe, [DeployOp("app", "v1", CopyFails), RollbackOp("app", ".", false)]);
      && w.releases == [] && ["app", "CURRENT"] in w.disk && w.disk[["app", "CURRENT"]] == Pointer(".")
      && !PointersReleased(w)
    ensures var d := Run(NESTED, safe, [DeployOp("app", "v1", CopyFails)]).disk; RolledBack(d, ["app"], [], false).1
  {
    var d := Make(EMPTY, ["app"]);
    NestedRequests();
    ProjectMade(safe);
    ProjectPointed(World(d, []), safe);
    RunOfTwo(NESTED, safe, DeployOp("app", "v1", CopyFails), RollbackOp("app", ".", false));
    assert [DeployOp("app", "v1", CopyFails)][..0] == [];
    assert Run(NESTED, safe, []) == World(EMPTY, []);
  }

  /** The failing deploy leaves the project directory, and no release. */
  lemma ProjectMade(safe: Content -> bool)
    ensures Apply(World(EMPTY, []), NESTED, safe, DeployOp("app", "v1", CopyFails)) == World(Make(EMPTY, ["app"]), [])
    ensures TreeShaped(Make(EMPTY, ["app"])) && IsDir(Make(EMPTY, ["app"]), ["app"])
    ensures ["app", "CURRENT"] !in Make(EMPTY, ["app"])
  {
    NestedRequests();
    assert ["app"][..0] == [] && ["app"][..1] == ["app"];
    MakeShape(EMPTY, ["app"]);
    assert !(["app", "CURRENT"] <= ["app"]);
  }

  lemma ProjectPointed(w: World, safe: Content -> bool)
    requires IsDir(w.disk, ["app"]) && ["app", "CURRENT"] !in w.disk && w.releases == []
    ensures var n := Apply(w, NESTED, safe, RollbackOp("app", ".", false));
      && n.releases == [] && ["app", "CURRENT"] in n.disk && n.disk[["app", "CURRENT"]] == Pointer(".")
      && !PointersReleased(n) && RolledBack(w.disk, ["app"], [], false).1
  {
    ShortNamesAccepted();
    DotAccepted();
    assert ["app"] + [] == ["app"] && CurrentPath(["app"]) == ["app", "CURRENT"];
  }

  lemma DotAccepted()
    ensures SafeRelative(".") == Some([]) && Posix([]) == "." && ReadsBack([])
  {
    var dot := ".";
    assert dot[0] == '.' && !Space(dot[0]) && dot[1..] == "";
    assert Parts(dot, "") == Parts("", "" + ['.']) == Part(dot) == [];
    assert StripLeft(dot) == dot && StripRight(dot) == dot;
  }

  // ----- undoing a deploy -----

  lemma PointerTarget(d: Disk, project: Path, v: string)
    requires PointersResolve(d) && CurrentPath(project) in d && d[CurrentPath(project)] == Pointer(v)
    ensures IsDir(d, project + Parts(v, ""))
  {
    var current := CurrentPath(project);
    assert current[..|current| - 1] == project;
  }

  /** Rolling back to the previous CURRENT after a successful deploy restores CURRENT and
      leaves everything else as the deploy left it. */
  lemma RollbackUndoesDeploy(d: Disk, r: Request, safe: Content -> bool, fault: Fault, previous: Path)
    requires TreeShaped(d) && PointersResolve(d) && Placeable(r.visits)
    requires Parts(Posix(r.commit), "") == r.commit && (r.commit == [] || ProperPath(r.commit))
    requires CurrentPath(r.project) in d && d[CurrentPath(r.project)] == Pointer(Posix(previous))
    requires Parts(Posix(previous), "") == previous && ReadsBack(previous)
    requires Deployed(d, r, safe, fault).1.Ready?
    ensures var after, current := Deployed(d, r, safe, fault).0, CurrentPath(r.project);
      && current in after && after[current] == Pointer(Posix(r.commit))
      && RolledBack(after, r.project, previous, false) == (after[current := d[current]], true)
  {
    var after := Deployed(d, r, safe, fault).0;
    PointerTarget(d, r.project, Posix(previous));
    assert DirsStay(d, after) by { DeployKeeps(d, r, safe, fault); }
    assert IsDir(after, r.project + previous);
    DeployReadyPointer(d, r, safe, fault);
  }

  lemma DeployReadyPointer(d: Disk, r: Request, safe: Content -> bool, fault: Fault)
    requires Deployed(d, r, safe, fault).1.Ready?
    ensures var after, current := Deployed(d, r, safe, fault).0, CurrentPath(r.project);
      current in after && after[current] == Pointer(Posix(r.commit))
  {
  }
}
