/** What every deploy and rollback keeps on the release root, whatever step fails. */
module ReleaseProofs {
  import opened Texts
  import opened Trees
  import opened Paths
  import opened Archive
  import opened ReleaseStore

  /** Every entry lies in a directory. */
  ghost predicate TreeShaped(d: Disk) {
    IsDir(d, []) && forall p, k | p in d && 0 <= k < |p| :: IsDir(d, p[..k])
  }

  ghost predicate SameBelow(a: Disk, b: Disk, q: Path) {
    forall p | q <= p :: (p in a <==> p in b) && (p in a ==> a[p] == b[p])
  }

  ghost predicate DirsStay(a: Disk, b: Disk) {
    forall p | IsDir(a, p) :: IsDir(b, p)
  }

  /** Every pointer is a CURRENT file that names an existing directory beside it. */
  ghost predicate PointersResolve(d: Disk) {
    forall p | p in d && d[p].Pointer? ::
      p != [] && p == CurrentPath(p[..|p| - 1]) && IsDir(d, p[..|p| - 1] + Parts(d[p].value, ""))
  }

  /** Exactly the copied tree is at `at`. */
  ghost predicate Intact(d: Disk, at: Path, image: Disk) {
    forall p | at <= p :: (p in d <==> p[|at|..] in image) && (p in d ==> d[p] == image[p[|at|..]])
  }

  lemma AncestorsPresent(d: Disk, at: Path, q: Path)
    requires TreeShaped(d) && q in d && at <= q
    ensures at in d
  {
    if |at| < |q| {
      assert IsDir(d, q[..|at|]) && q[..|at|] == at;
    } else {
      assert at == q;
    }
  }

  lemma PrefixesCompare(a: Path, b: Path, p: Path)
    requires a <= p && b <= p
    ensures a <= b || b <= a
  {
    if |a| <= |b| {
      assert a == b[..|a|];
    } else {
      assert b == a[..|b|];
    }
  }

  lemma PrefixOfCurrent(q: Path, project: Path)
    ensures q <= CurrentPath(project) <==> q <= project || q == CurrentPath(project)
  {
    var current := CurrentPath(project);
    if q <= current && |q| <= |project| {
      assert q == current[..|q|] == project[..|q|];
    }
  }

  // ----- the copied tree -----

  ghost predicate LeafAt(vs: seq<Visit>, p: Path, c: Content) {
    exists i :: 0 <= i < |vs| && vs[i].Leaf? && vs[i].path == p && vs[i].node.content == c
  }

  lemma {:induction false} ImageEntries(vs: seq<Visit>, p: Path)
    requires Placeable(vs)
    ensures IsDir(Image(vs), [])
    ensures p in Image(vs) ==> match Image(vs)[p]
      case Plain(c) => LeafAt(vs, p, c)
      case Dir => p == [] || LeafBelow(vs, p)
      case Pointer(_) => false
  {
    if vs != [] {
      var n := |vs| - 1;
      assert Placeable(vs[..n]);
      ImageEntries(vs[..n], p);
      LeavesStay(vs, p);
      if vs[n].Leaf? {
        assert vs[n].path != [];
        LastLeaf(vs);
        assert p == vs[n].path ==> LeafAt(vs, p, vs[n].node.content);
      }
      if p in Image(vs[..n]) && Image(vs)[p] == Image(vs[..n])[p] && Image(vs)[p].Plain? {
        LeafAtStays(vs, p, Image(vs)[p].content);
      }
    }
  }

  lemma LeafAtStays(vs: seq<Visit>, p: Path, c: Content)
    requires vs != [] && LeafAt(vs[..|vs| - 1], p, c)
    ensures LeafAt(vs, p, c)
  {
    var n := |vs| - 1;
    var i :| 0 <= i < n && vs[..n][i].Leaf? && vs[..n][i].path == p && vs[..n][i].node.content == c;
    assert vs[i].path == p;
  }

  lemma {:induction false} ImageParents(vs: seq<Visit>, i: nat, k: nat)
    requires Placeable(vs) && i < |vs| && vs[i].Leaf? && k < |vs[i].path|
    ensures IsDir(Image(vs), vs[i].path[..k])
    decreases |vs|
  {
    var n := |vs| - 1;
    var q := vs[i].path[..k];
    assert Placeable(vs[..n]);
    if i < n {
      ImageParents(vs[..n], i, k);
    }
    if vs[n].Leaf? {
      assert q <= vs[i].path && q != vs[i].path;
      assert q != vs[n].path;
      if i == n {
        assert q in Above(vs[n].path);
      }
    }
  }

  lemma ImageTreeShaped(vs: seq<Visit>)
    requires Placeable(vs)
    ensures TreeShaped(Image(vs))
    ensures forall p | p in Image(vs) :: !Image(vs)[p].Pointer?
  {
    ImageEntries(vs, []);
    forall p, k | p in Image(vs) && 0 <= k < |p| ensures IsDir(Image(vs), p[..k]) {
      ImageEntries(vs, p);
      if Image(vs)[p].Plain? {
        var i :| 0 <= i < |vs| && vs[i].Leaf? && vs[i].path == p;
        ImageParents(vs, i, k);
      } else {
        var i, m :| 0 <= i < |vs| && vs[i].Leaf? && 0 <= m < |vs[i].path| && p == vs[i].path[..m];
        ImageParents(vs, i, k);
        assert p[..k] == vs[i].path[..k];
      }
    }
    forall p | p in Image(vs) ensures !Image(vs)[p].Pointer? {
      ImageEntries(vs, p);
    }
  }

  /** The files of a copied tree by relative path. */
  function CopiedFiles(image: Disk): map<Path, Content> {
    map p | p in image && image[p].Plain? :: image[p].content
  }

  lemma EarlierNotAbove(vs: seq<Visit>, q: Path)
    requires vs != [] && vs[|vs| - 1].Leaf? && Placeable(vs) && q in FileMap(vs[..|vs| - 1])
    ensures q !in Above(vs[|vs| - 1].path)
  {
    var n := |vs| - 1;
    FileMapMembers(vs[..n], q);
    var f :| Leaf(q, f) in vs[..n];
    var i :| 0 <= i < n && vs[..n][i] == Leaf(q, f);
    assert vs[i].path == q;
    assert q <= vs[n].path ==> |q| == |vs[n].path|;
  }

  lemma {:induction false} ImageFiles(vs: seq<Visit>)
    requires Placeable(vs)
    ensures CopiedFiles(Image(vs)) == FileMap(vs)
  {
    if vs != [] {
      var n := |vs| - 1;
      assert Placeable(vs[..n]);
      ImageFiles(vs[..n]);
      if vs[n].Leaf? {
        forall q | q in FileMap(vs[..n]) ensures q !in Above(vs[n].path) {
          EarlierNotAbove(vs, q);
        }
        assert forall p :: p in CopiedFiles(Image(vs)) <==> p in FileMap(vs);
      }
    }
  }

  /** A copy holds exactly the files that the scans of the artifact deliver, with their contents; these
      are all files of the artifact if and only if every directory that cannot be listed holds none. */
  lemma ImageComplete(t: Tree)
    requires WellFormed(t.entries)
    ensures CopiedFiles(Image(Visits(t))) == Contents(Files(Scanned(t), []))
    ensures CopiedFiles(Image(Visits(t))) == Contents(Files(t.entries, [])) <==> TreeExposed(t)
  {
    VisitsPlaceable(t);
    ImageFiles(Visits(t));
    WalkFileMap(t);
    ContentsComplete(t);
  }

  // ----- the three operations -----

  lemma MakeShape(d: Disk, p: Path)
    requires TreeShaped(d) && CanMake(d, p)
    ensures TreeShaped(Make(d, p)) && IsDir(Make(d, p), p)
    ensures forall q :: q in Make(d, p) <==> q in d || q <= p
    ensures forall q | q in d :: Make(d, p)[q] == d[q]
    ensures forall q | q <= p :: IsDir(Make(d, p), q)
  {
    forall q ensures q in Above(p) + {p} <==> q <= p {
      if q <= p { assert q == p[..|q|]; }
      if q == p { assert p[..|p|] == p; }
    }
    forall q | q in d && q <= p ensures d[q].Dir? {
      assert q == p[..|q|];
    }
    forall q, k | q in Make(d, p) && 0 <= k < |q| ensures IsDir(Make(d, p), q[..k]) {
      if q in d {
        assert IsDir(d, q[..k]);
      } else {
        assert q[..k] <= p;
      }
    }
  }

  lemma GraftShape(d: Disk, at: Path, image: Disk)
    requires TreeShaped(d) && TreeShaped(image)
    requires at != [] && at !in d && IsDir(d, at[..|at| - 1])
    ensures var g := Graft(d, at, image);
      && TreeShaped(g) && Intact(g, at, image)
      && (forall q | q in d :: q in g && g[q] == d[q])
      && (forall q | q in g && q !in d :: at <= q && g[q] == image[q[|at|..]])
  {
    var g := Graft(d, at, image);
    forall q | q in d ensures !(at <= q) {
      if at <= q { AncestorsPresent(d, at, q); }
    }
    forall q ensures q in g <==> q in d || (at <= q && q[|at|..] in image)
      ensures q in g ==> g[q] == if at <= q && q[|at|..] in image then image[q[|at|..]] else d[q]
    {
      GraftAt(d, at, image, q);
    }
    forall p, k | p in g && 0 <= k < |p| ensures IsDir(g, p[..k]) {
      if p in d {
        assert IsDir(d, p[..k]);
      } else if k >= |at| {
        assert p[..k][|at|..] == p[|at|..][..k - |at|];
        assert at <= p[..k];
      } else {
        var parent := at[..|at| - 1];
        assert p[..k] == parent[..k];
        assert k == |parent| ==> parent[..k] == parent;
        assert IsDir(d, p[..k]);
      }
    }
  }

  lemma PointShape(d: Disk, project: Path, target: Path)
    requires TreeShaped(d) && IsDir(d, project) && !IsDir(d, CurrentPath(project))
    ensures TreeShaped(Pointed(d, project, target)) && DirsStay(d, Pointed(d, project, target))
  {
    var n := Pointed(d, project, target);
    forall p, k | p in n && 0 <= k < |p| ensures IsDir(n, p[..k]) {
      if p == CurrentPath(project) {
        assert p[..k] == project[..k];
        assert k < |project| ==> IsDir(d, project[..k]);
        assert k == |project| ==> project[..k] == project;
      } else {
        assert IsDir(d, p[..k]);
      }
    }
  }

  lemma PublishedShape(d: Disk, r: Request, safe: Content -> bool, fault: Fault)
    requires TreeShaped(d) && Placeable(r.visits) && Publishes(d, r, safe, fault)
    ensures var made, g, at := Make(d, r.project), Published(d, r), r.project + r.commit;
      && TreeShaped(g) && IsDir(g, r.project) && Intact(g, at, Image(r.visits))
      && (forall q | q in d :: q in g && g[q] == d[q])
      && (forall q | q in g && q !in d :: if at <= q then !g[q].Pointer? else q <= r.project && g[q].Dir?)
      && at !in d
  {
    var made, at := Make(d, r.project), r.project + r.commit;
    MakeShape(d, r.project);
    assert IsDir(made, r.project);
    ImageTreeShaped(r.visits);
    assert at[..|at| - 1] == r.project + r.commit[..|r.commit| - 1];
    GraftShape(made, at, Image(r.visits));
  }

  // ----- pointers -----

  lemma PointedResolves(d: Disk, project: Path, target: Path)
    requires PointersResolve(d) && !IsDir(d, CurrentPath(project))
    requires IsDir(d, project + target) && Parts(Posix(target), "") == target
    ensures PointersResolve(Pointed(d, project, target))
  {
    var n, at := Pointed(d, project, target), CurrentPath(project);
    assert at[..|at| - 1] == project;
    forall p | p in n && n[p].Pointer?
      ensures p != [] && p == CurrentPath(p[..|p| - 1]) && IsDir(n, p[..|p| - 1] + Parts(n[p].value, ""))
    {
      if p != at {
        assert p in d && d[p] == n[p];
      }
    }
  }

  /** One deploy, wherever it fails: directories stay, and every pointer still resolves. */
  lemma DeployKeeps(d: Disk, r: Request, safe: Content -> bool, fault: Fault)
    requires TreeShaped(d) && PointersResolve(d) && Placeable(r.visits) && Parts(Posix(r.commit), "") == r.commit
    ensures var after := Deployed(d, r, safe, fault).0;
      TreeShaped(after) && PointersResolve(after) && DirsStay(d, after)
  {
    if CanMake(d, r.project) {
      MakeShape(d, r.project);
      if Publishes(d, r, safe, fault) {
        PublishedShape(d, r, safe, fault);
        var g := Published(d, r);
        forall p | p in g && g[p].Pointer?
          ensures p != [] && p == CurrentPath(p[..|p| - 1]) && IsDir(g, p[..|p| - 1] + Parts(g[p].value, ""))
        {
          assert p in d;
          assert IsDir(d, p[..|p| - 1] + Parts(d[p].value, ""));
        }
        assert IsDir(g, r.project + r.commit) by {
          ImageTreeShaped(r.visits);
          var at := r.project + r.commit;
          assert at <= at && at[|at|..] == [];
        }
        if CanPoint(g, r.project, fault.PointerFails?) {
          PointShape(g, r.project, r.commit);
          PointedResolves(g, r.project, r.commit);
        }
      } else {
        var m := Make(d, r.project);
        forall p | p in m && m[p].Pointer?
          ensures p != [] && p == CurrentPath(p[..|p| - 1]) && IsDir(m, p[..|p| - 1] + Parts(m[p].value, ""))
        {
          assert p in d;
          assert IsDir(d, p[..|p| - 1] + Parts(d[p].value, ""));
        }
      }
    }
  }

  lemma RollbackKeeps(d: Disk, project: Path, target: Path, fails: bool)
    requires TreeShaped(d) && PointersResolve(d) && Parts(Posix(target), "") == target
    ensures var after := RolledBack(d, project, target, fails).0;
      TreeShaped(after) && PointersResolve(after) && DirsStay(d, after)
  {
    if IsDir(d, project + target) && CanPoint(d, project, fails) {
      assert IsDir(d, project) by {
        if target != [] {
          assert (project + target)[..|project|] == project;
        } else {
          assert project + target == project;
        }
      }
      PointShape(d, project, target);
      PointedResolves(d, project, target);
    }
  }

  // ----- published releases -----

  /** Exactly when a deploy changes anything at or below an existing directory `q`: when it
      publishes at or below `q`, or creates its project directory below `q`. */
  lemma DeployAltersExactly(d: Disk, r: Request, safe: Content -> bool, fault: Fault, q: Path)
    requires TreeShaped(d) && Placeable(r.visits) && IsDir(d, q)
    ensures SameBelow(d, Deployed(d, r, safe, fault).0, q) <==>
      !(if Publishes(d, r, safe, fault) then q <= r.project + r.commit
        else CanMake(d, r.project) && q <= r.project && r.project !in d)
  {
    var after := Deployed(d, r, safe, fault).0;
    if !CanMake(d, r.project) {
    } else if !Publishes(d, r, safe, fault) {
      MakeShape(d, r.project);
      if q <= r.project && r.project in d {
        forall p | q <= p && p in after ensures p in d {
          if p <= r.project && |p| < |r.project| { assert p == r.project[..|p|]; }
        }
      }
    } else {
      PublishedShape(d, r, safe, fault);
      var at := r.project + r.commit;
      assert at in Published(d, r) by {
        ImageTreeShaped(r.visits);
        assert at <= at && at[|at|..] == [];
      }
      if q <= at {
        assert at in after && at !in d;
      } else {
        var current := CurrentPath(r.project);
        assert !(at <= q) by {
          if at <= q { AncestorsPresent(d, at, q); }
        }
        assert q != current || IsDir(Published(d, r), current);
        PrefixOfCurrent(q, r.project);
        forall p | q <= p ensures (p in d <==> p in after) && (p in d ==> d[p] == after[p]) {
          if at <= p { PrefixesCompare(at, q, p); }
        }
      }
    }
  }

  /** Exactly when a rollback does: when it rewrites a pointer below `q` with another value. */
  lemma RollbackAltersExactly(d: Disk, project: Path, target: Path, fails: bool, q: Path)
    requires TreeShaped(d) && IsDir(d, q)
    ensures SameBelow(d, RolledBack(d, project, target, fails).0, q) <==>
      !(IsDir(d, project + target) && CanPoint(d, project, fails) && q <= project
        && !(CurrentPath(project) in d && d[CurrentPath(project)] == Pointer(Posix(target))))
  {
    var after := RolledBack(d, project, target, fails).0;
    var current := CurrentPath(project);
    if IsDir(d, project + target) && CanPoint(d, project, fails) {
      if q <= project {
        assert q <= current && after[current] == Pointer(Posix(target));
      } else {
        PrefixOfCurrent(q, project);
      }
    }
  }

  /** A failed deploy leaves CURRENT as it was or naming the new release, which is exactly the copy of
      the visits; a successful one always does the latter, and its pointer reads back. */
  lemma DeployPointer(d: Disk, r: Request, safe: Content -> bool, fault: Fault)
    requires TreeShaped(d) && Placeable(r.visits) && (r.commit == [] || ProperPath(r.commit))
    ensures var (after, outcome) := Deployed(d, r, safe, fault);
      var current := CurrentPath(r.project);
      var switched := current in after && after[current] == Pointer(Posix(r.commit))
        && Intact(after, r.project + r.commit, Image(r.visits));
      && (Publishes(d, r, safe, fault) ==> Intact(after, r.project + r.commit, Image(r.visits)))
      && (outcome.Ready? ==> switched && ReadCurrent(after, r.project) == Some(Posix(r.commit)))
      && (outcome.Failed? ==>
            || switched
            || (current in d && current in after && after[current] == d[current])
            || (current !in d && (current !in after || IsDir(after, current))))
  {
    if CanMake(d, r.project) {
      MakeShape(d, r.project);
      var current, at := CurrentPath(r.project), r.project + r.commit;
      assert !(current <= r.project);
      if Publishes(d, r, safe, fault) {
        PublishedShape(d, r, safe, fault);
        var g := Published(d, r);
        if CanPoint(g, r.project, fault.PointerFails?) {
          ImageTreeShaped(r.visits);
          PrefixOfCurrent(at, r.project);
          assert IsDir(g, at) by { assert at <= at && at[|at|..] == []; }
          assert !(at <= current);
          var after := Pointed(g, r.project, r.commit);
          assert Intact(after, at, Image(r.visits));
          if ReadsBack(r.commit) {
            PosixNonEmpty(r.commit);
          }
        } else if current !in d && current in g {
          PrefixOfCurrent(at, r.project);
          assert at == current;
          ImageTreeShaped(r.visits);
          assert current[|at|..] == [];
        }
      }
    }
  }

  /** When a deploy succeeds: nothing but directories on the way to the project, a free place for the
      release in an existing directory, an accepted artifact, no failing operation, a place for CURRENT
      and a name that reads back. */
  lemma DeployReadyExactly(d: Disk, r: Request, safe: Content -> bool, fault: Fault)
    requires TreeShaped(d) && Placeable(r.visits)
    ensures Deployed(d, r, safe, fault).1.Ready? <==>
      && (forall k | 0 <= k <= |r.project| && r.project[..k] in d :: d[r.project[..k]].Dir?)
      && r.commit != [] && r.project + r.commit !in d
      && (|r.commit| == 1 || IsDir(d, r.project + r.commit[..|r.commit| - 1]))
      && Accepts(r.visits, safe) && fault == NoFault
      && !IsDir(d, r.project + ["CURRENT"]) && r.commit != ["CURRENT"] && Strip(Posix(r.commit)) == Posix(r.commit)
    ensures Deployed(d, r, safe, fault).1.Ready? ==>
      Deployed(d, r, safe, fault).1 == Ready(FileCount(r.visits), ByteCount(r.visits))
  {
    if CanMake(d, r.project) {
      MakeShape(d, r.project);
      PublishesExactly(d, r, safe, fault);
      if Publishes(d, r, safe, fault) {
        CurrentIsFree(d, r, safe, fault);
      }
    }
  }

  lemma PublishesExactly(d: Disk, r: Request, safe: Content -> bool, fault: Fault)
    requires TreeShaped(d) && CanMake(d, r.project)
    ensures Publishes(d, r, safe, fault) <==>
      && r.commit != [] && r.project + r.commit !in d
      && (|r.commit| == 1 || IsDir(d, r.project + r.commit[..|r.commit| - 1]))
      && Accepts(r.visits, safe) && fault != CopyFails && fault != RenameFails
  {
    MakeShape(d, r.project);
    if r.commit != [] {
      assert !(r.project + r.commit <= r.project);
      var parent := r.project + r.commit[..|r.commit| - 1];
      if |r.commit| == 1 {
        assert parent == r.project;
      } else {
        assert !(parent <= r.project);
      }
    } else {
      assert r.project + r.commit == r.project;
    }
  }

  lemma CurrentIsFree(d: Disk, r: Request, safe: Content -> bool, fault: Fault)
    requires TreeShaped(d) && Placeable(r.visits) && Publishes(d, r, safe, fault)
    ensures IsDir(Published(d, r), CurrentPath(r.project)) <==>
      IsDir(d, CurrentPath(r.project)) || r.commit == ["CURRENT"]
  {
    var at, current := r.project + r.commit, CurrentPath(r.project);
    PublishedShape(d, r, safe, fault);
    ImageTreeShaped(r.visits);
    assert !(current <= r.project);
    if r.commit == ["CURRENT"] {
      assert at == current && current[|at|..] == [];
    } else {
      assert at != current by { assert at[|r.project|..] == r.commit; }
    }
  }

  /** When a rollback is reported verified, and what it then changed. */
  lemma RollbackVerifiedExactly(d: Disk, project: Path, target: Path, fails: bool)
    ensures var (after, verified) := RolledBack(d, project, target, fails); var current := project + ["CURRENT"];
      && (verified <==>
            && project + target in d && d[project + target].Dir? && !fails && !(current in d && d[current].Dir?)
            && Strip(Posix(target)) == Posix(target))
      && (verified ==> after == d[current := Pointer(Posix(target))])
  {
  }

  lemma PosixNonEmpty(p: Path)
    requires p == [] || ProperPath(p)
    ensures Posix(p) != ""
  {
  }
}
