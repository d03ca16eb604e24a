/** The backup archive: writing a tree into it and extracting it again. */
module Archive {
  import opened Texts
  import opened Trees
  import opened Paths

  /** `HardLink` is a second name of a file that is a member already. */
  datatype Member =
    | Regular(name: string, content: Content)
    | HardLink(name: string, target: string)
    | Folder(name: string)
    | Unsupported(name: string)

  /** The directory an extraction fills, with its running counters. */
  datatype Target = Target(files: map<Path, Content>, folders: set<Path>, count: nat, bytes: nat)

  const EMPTY := Target(map[], {}, 0, 0)

  // ----- writing -----

  /** The files that an archive holds so far: the first name of each inode. */
  type Inodes = map<nat, string>

  /** `TarFile.gettarinfo` without dereferencing. */
  function MemberFor(known: Inodes, name: string, f: Node): Member {
    if f.inode in known && known[f.inode] != name then HardLink(name, known[f.inode]) else Regular(name, f.content)
  }

  function Recorded(known: Inodes, name: string, f: Node): Inodes {
    if f.inode in known then known else known[f.inode := name]
  }

  function InodesOf(vs: seq<Visit>): Inodes {
    if vs == [] then map[]
    else
      var rest, v := InodesOf(vs[..|vs| - 1]), vs[|vs| - 1];
      if v.Leaf? then Recorded(rest, Posix(v.path), v.node) else rest
  }

  function MembersOf(vs: seq<Visit>): seq<Member> {
    if vs == [] then []
    else
      var before, v := vs[..|vs| - 1], vs[|vs| - 1];
      MembersOf(before) + if v.Leaf? then [MemberFor(InodesOf(before), Posix(v.path), v.node)] else []
  }

  datatype Written = Written(members: seq<Member>, files: nat, bytes: nat)

  /** `_write_archive` over the visits of the walk, with the running counters of the source. */
  method WriteArchive(vs: seq<Visit>, safe: Content -> bool) returns (r: Result<Written>)
    ensures r == if Accepts(vs, safe) then Ok(Written(MembersOf(vs), FileCount(vs), ByteCount(vs))) else Refused
  {
    var members: seq<Member> := [];
    var known: Inodes := map[];
    var files, bytes := 0, 0;
    for i := 0 to |vs|
      invariant members == MembersOf(vs[..i]) && known == InodesOf(vs[..i])
      invariant files == FileCount(vs[..i]) && bytes == ByteCount(vs[..i])
      invariant forall j | 0 <= j < i :: Allowed(vs[j], safe)
      invariant files <= MAX_FILES && bytes <= MAX_TOTAL_BYTES
    {
      var v := vs[i];
      CountsGrow(vs, i + 1);
      assert vs[..i + 1][..i] == vs[..i];
      if !Allowed(v, safe) {
        return Refused;
      }
      if v.Leaf? {
        if bytes + |v.node.content| > MAX_TOTAL_BYTES {
          return Refused;
        }
        members := members + [MemberFor(known, Posix(v.path), v.node)];
        known := Recorded(known, Posix(v.path), v.node);
        files := files + 1;
        bytes := bytes + |v.node.content|;
        if files > MAX_FILES {
          return Refused;
        }
      }
    }
    assert vs[..|vs|] == vs;
    r := Ok(Written(members, files, bytes));
  }

  // ----- extracting -----

  function Above(p: Path): set<Path> {
    set k | 0 <= k < |p| :: p[..k]
  }

  /** One member: refused by its name, kind or size, or because a file stands where a directory
      is needed, or a directory where the file should go. */
  function Place(t: Target, m: Member): Option<Target> {
    match SafeRelative(m.name)
    case None => None
    case Some(p) =>
      match m
      case Folder(_) =>
        if p in t.files || exists k | 0 <= k < |p| :: p[..k] in t.files then None
        else Some(t.(folders := t.folders + Above(p) + {p}))
      case HardLink(_, _) => None
      case Unsupported(_) => None
      case Regular(_, c) =>
        if |c| > MAX_FILE_BYTES || t.bytes + |c| > MAX_TOTAL_BYTES then None
        else if p == [] || p in t.folders || exists k | 0 <= k < |p| :: p[..k] in t.files then None
        else Some(Target(t.files[p := c], t.folders + Above(p), t.count + 1, t.bytes + |c|))
  }

  function Unpack(ms: seq<Member>): Option<Target> {
    if ms == [] then Some(EMPTY)
    else
      match Unpack(ms[..|ms| - 1])
      case None => None
      case Some(t) => Place(t, ms[|ms| - 1])
  }

  lemma {:induction false} UnpackStops(ms: seq<Member>, k: nat)
    requires k <= |ms| && Unpack(ms[..k]) == None
    ensures Unpack(ms) == None
    decreases |ms|
  {
    if k == |ms| {
      assert ms[..k] == ms;
    } else {
      assert ms[..k] == ms[..|ms| - 1][..k];
      UnpackStops(ms[..|ms| - 1], k);
    }
  }

  /** `_extract_archive`, member by member. */
  method ExtractArchive(ms: seq<Member>) returns (r: Option<Target>)
    ensures r == if |ms| > MAX_FILES then None else Unpack(ms)
  {
    if |ms| > MAX_FILES {
      return None;
    }
    var t := EMPTY;
    for i := 0 to |ms|
      invariant Unpack(ms[..i]) == Some(t)
    {
      assert ms[..i + 1][..i] == ms[..i];
      var placed := Place(t, ms[i]);
      if placed == None {
        UnpackStops(ms, i + 1);
        return None;
      }
      t := placed.value;
    }
    assert ms[..|ms|] == ms;
    r := Some(t);
  }

  // ----- which archives can be extracted -----

  function PathOf(m: Member): Path {
    match SafeRelative(m.name)
    case Some(p) => p
    case None => []
  }

  /** The member needs a directory at `f`: above its path, or its path if it is one itself. */
  ghost predicate NeedsDirectory(m: Member, f: Path) {
    f < PathOf(m) || (m.Folder? && PathOf(m) == f)
  }

  /** What a member must meet behind others: an accepted name, a file or a directory, a limited size, and
      no file in the place of a directory or the other way round. */
  ghost predicate Lands(before: seq<Member>, m: Member) {
    && SafeRelative(m.name).Some? && (m.Regular? || m.Folder?)
    && (m.Regular? ==> |m.content| <= 10 * 1024 * 1024 && PathOf(m) != [])
    && (m.Regular? ==> forall o | o in before :: !NeedsDirectory(o, PathOf(m)))
    && (forall o | o in before && o.Regular? :: !NeedsDirectory(m, PathOf(o)))
  }

  function RegularBytes(ms: seq<Member>): nat {
    if ms == [] then 0
    else RegularBytes(ms[..|ms| - 1]) + if ms[|ms| - 1].Regular? then |ms[|ms| - 1].content| else 0
  }

  /** The files of an archive, later members over earlier ones. */
  function RegularFiles(ms: seq<Member>): map<Path, Content> {
    if ms == [] then map[]
    else
      var files, m := RegularFiles(ms[..|ms| - 1]), ms[|ms| - 1];
      if m.Regular? then files[PathOf(m) := m.content] else files
  }

  ghost predicate DirectoryIn(ms: seq<Member>, f: Path) {
    exists m :: m in ms && NeedsDirectory(m, f)
  }

  ghost predicate FileIn(ms: seq<Member>, f: Path) {
    exists m :: m in ms && m.Regular? && PathOf(m) == f
  }

  /** The directory that an extraction of `ms` has filled. */
  ghost predicate Extracted(t: Target, ms: seq<Member>) {
    && t.files == RegularFiles(ms) && t.bytes == RegularBytes(ms)
    && (forall f :: f in t.folders <==> DirectoryIn(ms, f)) && (forall f :: f in t.files <==> FileIn(ms, f))
  }

  lemma OneMoreMember(ms: seq<Member>, m: Member, f: Path)
    ensures DirectoryIn(ms + [m], f) <==> DirectoryIn(ms, f) || NeedsDirectory(m, f)
    ensures FileIn(ms + [m], f) <==> FileIn(ms, f) || (m.Regular? && PathOf(m) == f)
  {
    assert forall o :: o in ms + [m] <==> o in ms || o == m;
  }

  lemma AboveMeans(p: Path, f: Path)
    ensures f in Above(p) <==> f < p
  {
    if f < p { assert f == p[..|f|]; }
  }

  lemma BlockedByFile(t: Target, ms: seq<Member>, p: Path)
    requires Extracted(t, ms)
    ensures (exists k | 0 <= k < |p| :: p[..k] in t.files) <==> exists o :: o in ms && o.Regular? && PathOf(o) < p
  {
    if k :| 0 <= k < |p| && p[..k] in t.files {
      assert FileIn(ms, p[..k]);
      var o :| o in ms && o.Regular? && PathOf(o) == p[..k];
      assert PathOf(o) < p;
    }
    if o :| o in ms && o.Regular? && PathOf(o) < p {
      assert FileIn(ms, PathOf(o)) && PathOf(o) == p[..|PathOf(o)|];
    }
  }

  /** When one more member finds its place. */
  lemma PlacedExactly(t: Target, before: seq<Member>, m: Member)
    requires Extracted(t, before) && t.bytes <= MAX_TOTAL_BYTES
    ensures Place(t, m).Some? <==>
      Lands(before, m) && t.bytes + (if m.Regular? then |m.content| else 0) <= 256 * 1024 * 1024
  {
    var p := PathOf(m);
    BlockedByFile(t, before, p);
    assert p in t.folders <==> DirectoryIn(before, p);
    assert p in t.files <==> FileIn(before, p);
  }

  lemma PlacedIsExtracted(t: Target, before: seq<Member>, m: Member)
    requires Extracted(t, before) && Place(t, m).Some?
    ensures Extracted(Place(t, m).value, before + [m])
  {
    assert (before + [m])[..|before|] == before;
    forall f ensures f in Above(PathOf(m)) <==> f < PathOf(m) {
      AboveMeans(PathOf(m), f);
    }
    forall f ensures DirectoryIn(before + [m], f) <==> DirectoryIn(before, f) || NeedsDirectory(m, f)
      ensures FileIn(before + [m], f) <==> FileIn(before, f) || (m.Regular? && PathOf(m) == f)
    {
      OneMoreMember(before, m, f);
    }
  }

  /** Every member lands behind the ones before it. */
  ghost predicate AllLand(ms: seq<Member>) {
    ms != [] ==> AllLand(ms[..|ms| - 1]) && Lands(ms[..|ms| - 1], ms[|ms| - 1])
  }

  /** For every archive, whoever wrote it: the extraction succeeds if and only if every member lands and
      the files together are small enough, and it then leaves exactly the files of the archive. */
  lemma {:induction false} UnpacksExactly(ms: seq<Member>)
    ensures Unpack(ms).Some? <==> AllLand(ms) && RegularBytes(ms) <= 256 * 1024 * 1024
    ensures Unpack(ms).Some? ==> Extracted(Unpack(ms).value, ms)
  {
    if ms != [] {
      var before, m := ms[..|ms| - 1], ms[|ms| - 1];
      assert ms == before + [m];
      UnpacksExactly(before);
      if Unpack(before).Some? {
        PlacedExactly(Unpack(before).value, before, m);
        if Unpack(ms).Some? { PlacedIsExtracted(Unpack(before).value, before, m); }
      }
    }
  }

  // ----- the round trip -----

  /** What the extraction demands of a path and the writer does not check. */
  predicate Restorable(p: Path) {
    !Blank(Posix(p)) && |Posix(p)| <= 256 && forall i | 0 <= i < |Posix(p)| :: !Unprintable(Posix(p)[i])
  }

  function FileMap(vs: seq<Visit>): map<Path, Content> {
    if vs == [] then map[]
    else
      var v := vs[|vs| - 1];
      if v.Leaf? then FileMap(vs[..|vs| - 1])[v.path := v.node.content] else FileMap(vs[..|vs| - 1])
  }

  /** No leaf of `vs` lies above another, and every path is a proper one. */
  ghost predicate Placeable(vs: seq<Visit>) {
    && (forall i | 0 <= i < |vs| && vs[i].Leaf? :: ProperPath(vs[i].path))
    && (forall i, j | 0 <= i < |vs| && 0 <= j < |vs| && vs[i].Leaf? && vs[j].Leaf? && vs[i].path <= vs[j].path ::
          vs[i].path == vs[j].path)
  }

  lemma NameAccepted(p: Path)
    requires ProperPath(p) && !UnsafeParts(p)
    ensures SafeRelative(Posix(p)) == if Restorable(p) then Some(p) else None
  {
    PosixRoundTrip(p);
    assert Posix(p)[0] == p[0][0];
  }

  /** A leaf lies below `f`. */
  ghost predicate LeafBelow(vs: seq<Visit>, f: Path) {
    exists i, k :: 0 <= i < |vs| && vs[i].Leaf? && 0 <= k < |vs[i].path| && f == vs[i].path[..k]
  }

  ghost predicate LeafOn(vs: seq<Visit>, q: Path) {
    exists i :: 0 <= i < |vs| && vs[i].Leaf? && vs[i].path == q
  }

  /** The state of a successful extraction after the visits `vs`. */
  ghost predicate Mirrors(t: Target, vs: seq<Visit>) {
    && t.files == FileMap(vs) && t.count == FileCount(vs) && t.bytes == ByteCount(vs)
    && (forall f | f in t.folders :: LeafBelow(vs, f))
    && (forall q | q in t.files :: LeafOn(vs, q))
  }

  lemma LeavesStay(vs: seq<Visit>, p: Path)
    requires vs != []
    ensures LeafBelow(vs[..|vs| - 1], p) ==> LeafBelow(vs, p)
    ensures LeafOn(vs[..|vs| - 1], p) ==> LeafOn(vs, p)
  {
    var n := |vs| - 1;
    if LeafBelow(vs[..n], p) {
      var i, k :| 0 <= i < n && vs[..n][i].Leaf? && 0 <= k < |vs[..n][i].path| && p == vs[..n][i].path[..k];
      assert vs[i].path[..k] == p;
    }
    if LeafOn(vs[..n], p) {
      var i :| 0 <= i < n && vs[..n][i].Leaf? && vs[..n][i].path == p;
      assert vs[i].path == p;
    }
  }

  lemma LastLeaf(vs: seq<Visit>)
    requires vs != [] && vs[|vs| - 1].Leaf?
    ensures LeafOn(vs, vs[|vs| - 1].path) && forall f | f in Above(vs[|vs| - 1].path) :: LeafBelow(vs, f)
  {
    var n := |vs| - 1;
    assert vs[n].path == vs[n].path;
    forall f | f in Above(vs[n].path) ensures LeafBelow(vs, f) {
      var k :| 0 <= k < |vs[n].path| && f == vs[n].path[..k];
      assert vs[n].path[..k] == f;
    }
  }

  /** The last leaf is no directory of another one, and no leaf is a directory of the last. */
  lemma NotBelowALeaf(vs: seq<Visit>)
    requires vs != [] && vs[|vs| - 1].Leaf? && Placeable(vs)
    ensures var p := vs[|vs| - 1].path; !LeafBelow(vs, p) && forall k | 0 <= k < |p| :: !LeafOn(vs, p[..k])
  {
    var p := vs[|vs| - 1].path;
    forall i, k | 0 <= i < |vs| && vs[i].Leaf? && 0 <= k < |vs[i].path| ensures p != vs[i].path[..k] {
      assert vs[i].path[..k] <= vs[i].path;
    }
    forall k, i | 0 <= k < |p| && 0 <= i < |vs| && vs[i].Leaf? ensures vs[i].path != p[..k] {
      assert p[..k] <= p;
    }
  }

  /** Nothing that was extracted before stands in the way of the last leaf. */
  lemma PlaceIsFree(t: Target, vs: seq<Visit>)
    requires vs != [] && vs[|vs| - 1].Leaf? && Placeable(vs) && Mirrors(t, vs[..|vs| - 1])
    ensures var p := vs[|vs| - 1].path; p !in t.folders && !exists k | 0 <= k < |p| :: p[..k] in t.files
  {
    var p := vs[|vs| - 1].path;
    NotBelowALeaf(vs);
    LeavesStay(vs, p);
    forall k | 0 <= k < |p| ensures p[..k] !in t.files {
      LeavesStay(vs, p[..k]);
    }
  }

  lemma PlaceMirrors(t: Target, vs: seq<Visit>, safe: Content -> bool)
    requires vs != [] && Placeable(vs) && Accepts(vs, safe) && Mirrors(t, vs[..|vs| - 1])
    requires vs[|vs| - 1].Leaf?
    ensures var v := vs[|vs| - 1]; var placed := Place(t, Regular(Posix(v.path), v.node.content));
      if Restorable(v.path) then placed.Some? && Mirrors(placed.value, vs) else placed == None
  {
    var v := vs[|vs| - 1];
    assert Allowed(v, safe);
    NameAccepted(v.path);
    if Restorable(v.path) {
      PlaceIsFree(t, vs);
      LastLeaf(vs);
      forall p ensures LeafBelow(vs[..|vs| - 1], p) ==> LeafBelow(vs, p)
        ensures LeafOn(vs[..|vs| - 1], p) ==> LeafOn(vs, p)
      {
        LeavesStay(vs, p);
      }
    }
  }

  predicate AllRestorable(vs: seq<Visit>) {
    forall i | 0 <= i < |vs| && vs[i].Leaf? :: Restorable(vs[i].path)
  }

  /** No two leaves are names of one file. */
  ghost predicate SingleLinks(vs: seq<Visit>) {
    forall i, j | 0 <= i < |vs| && 0 <= j < |vs| && vs[i].Leaf? && vs[j].Leaf? &&
                  vs[i].node.inode == vs[j].node.inode :: vs[i].path == vs[j].path
  }

  /** The known inodes are those of the leaves, each with the name of one of them. */
  lemma {:induction false} FirstName(vs: seq<Visit>, k: nat) returns (i: nat)
    requires k in InodesOf(vs)
    ensures i < |vs| && vs[i].Leaf? && vs[i].node.inode == k && Posix(vs[i].path) == InodesOf(vs)[k]
  {
    var n := |vs| - 1;
    if k in InodesOf(vs[..n]) {
      i := FirstName(vs[..n], k);
    } else {
      i := n;
    }
  }

  lemma {:induction false} LeavesKnown(vs: seq<Visit>, i: nat)
    requires i < |vs| && vs[i].Leaf?
    ensures vs[i].node.inode in InodesOf(vs)
    decreases |vs|
  {
    var n := |vs| - 1;
    if i < n {
      assert vs[..n][i] == vs[i];
      LeavesKnown(vs[..n], i);
    }
  }

  /** What the last leaf must meet for the whole walk to be without links. */
  lemma LastLinks(vs: seq<Visit>)
    requires vs != [] && vs[|vs| - 1].Leaf? && SingleLinks(vs[..|vs| - 1])
    ensures SingleLinks(vs) <==>
      forall j | 0 <= j < |vs| - 1 && vs[j].Leaf? && vs[j].node.inode == vs[|vs| - 1].node.inode ::
        vs[j].path == vs[|vs| - 1].path
  {
    var n := |vs| - 1;
    assert forall j | 0 <= j < n :: vs[..n][j] == vs[j];
  }

  /** The last leaf becomes a regular member exactly when no leaf before it is a name of its file. */
  lemma RegularExactly(vs: seq<Visit>)
    requires vs != [] && vs[|vs| - 1].Leaf? && Placeable(vs) && SingleLinks(vs[..|vs| - 1])
    ensures var v := vs[|vs| - 1];
      MemberFor(InodesOf(vs[..|vs| - 1]), Posix(v.path), v.node).Regular? <==> SingleLinks(vs)
  {
    var n := |vs| - 1;
    var v, known := vs[n], InodesOf(vs[..n]);
    LastLinks(vs);
    if v.node.inode in known {
      var i := FirstName(vs[..n], v.node.inode);
      assert vs[..n][i] == vs[i];
      SamePrinted(vs[i].path, v.path);
      SameFileSamePath(vs[..n], i);
      assert forall j | 0 <= j < n :: vs[..n][j] == vs[j];
    } else {
      forall j | 0 <= j < n && vs[j].Leaf? ensures vs[j].node.inode != v.node.inode {
        LeavesKnown(vs[..n], j);
      }
    }
  }

  lemma SamePrinted(p: Path, q: Path)
    requires ProperPath(p) && ProperPath(q)
    ensures Posix(p) == Posix(q) <==> p == q
  {
    PosixRoundTrip(p);
    PosixRoundTrip(q);
  }

  lemma SameFileSamePath(vs: seq<Visit>, i: nat)
    requires SingleLinks(vs) && i < |vs| && vs[i].Leaf?
    ensures forall j | 0 <= j < |vs| && vs[j].Leaf? && vs[j].node.inode == vs[i].node.inode :: vs[j].path == vs[i].path
  {
  }

  lemma UnpackLast(ms: seq<Member>, m: Member)
    ensures Unpack(ms + [m]) == match Unpack(ms) case None => None case Some(t) => Place(t, m)
  {
    assert (ms + [m])[..|ms|] == ms;
  }

  /** What the extraction of a walk gives. */
  ghost predicate Unpacks(vs: seq<Visit>) {
    var t := Unpack(MembersOf(vs));
    if AllRestorable(vs) && SingleLinks(vs) then t.Some? && Mirrors(t.value, vs) else t == None
  }

  lemma LeafMember(vs: seq<Visit>)
    requires vs != [] && vs[|vs| - 1].Leaf?
    ensures var v, before := vs[|vs| - 1], vs[..|vs| - 1];
      Unpack(MembersOf(vs)) ==
        match Unpack(MembersOf(before))
        case None => None
        case Some(t) => Place(t, MemberFor(InodesOf(before), Posix(v.path), v.node))
  {
    var v, before := vs[|vs| - 1], vs[..|vs| - 1];
    UnpackLast(MembersOf(before), MemberFor(InodesOf(before), Posix(v.path), v.node));
  }

  lemma LastRestorable(vs: seq<Visit>)
    requires vs != [] && vs[|vs| - 1].Leaf?
    ensures AllRestorable(vs) <==> AllRestorable(vs[..|vs| - 1]) && Restorable(vs[|vs| - 1].path)
  {
  }

  /** The member of the last leaf finds its place exactly when it is a regular one with a restorable path. */
  lemma LeafPlaced(t: Target, vs: seq<Visit>, safe: Content -> bool)
    requires vs != [] && vs[|vs| - 1].Leaf? && Placeable(vs) && Accepts(vs, safe)
    requires Mirrors(t, vs[..|vs| - 1]) && SingleLinks(vs[..|vs| - 1])
    ensures var v, before := vs[|vs| - 1], vs[..|vs| - 1];
      var placed := Place(t, MemberFor(InodesOf(before), Posix(v.path), v.node));
      if Restorable(v.path) && SingleLinks(vs) then placed.Some? && Mirrors(placed.value, vs) else placed == None
  {
    RegularExactly(vs);
    PlaceMirrors(t, vs, safe);
  }

  lemma LeafUnpacks(vs: seq<Visit>, safe: Content -> bool)
    requires vs != [] && vs[|vs| - 1].Leaf? && Placeable(vs) && Accepts(vs, safe) && Unpacks(vs[..|vs| - 1])
    ensures Unpacks(vs)
  {
    var before := vs[..|vs| - 1];
    LeafMember(vs);
    LastRestorable(vs);
    PrefixLinks(vs);
    if AllRestorable(before) && SingleLinks(before) {
      LeafPlaced(Unpack(MembersOf(before)).value, vs, safe);
    }
  }

  lemma PrefixLinks(vs: seq<Visit>)
    requires vs != []
    ensures SingleLinks(vs) ==> SingleLinks(vs[..|vs| - 1])
    ensures !vs[|vs| - 1].Leaf? ==> (SingleLinks(vs) <==> SingleLinks(vs[..|vs| - 1]))
  {
    var n := |vs| - 1;
    assert forall j | 0 <= j < n :: vs[..n][j] == vs[j];
  }

  lemma OtherUnpacks(vs: seq<Visit>)
    requires vs != [] && !vs[|vs| - 1].Leaf? && Unpacks(vs[..|vs| - 1])
    ensures Unpacks(vs)
  {
    var before := vs[..|vs| - 1];
    assert MembersOf(vs) == MembersOf(before);
    assert AllRestorable(vs) <==> AllRestorable(before);
    PrefixLinks(vs);
    if AllRestorable(vs) && SingleLinks(vs) {
      SkipMirrors(Unpack(MembersOf(vs)).value, vs);
    }
  }

  /** The extraction of an accepted walk gives its files and totals when every path can be restored
      and no file has two names, and refuses otherwise. */
  lemma {:induction false} UnpackMirrors(vs: seq<Visit>, safe: Content -> bool)
    requires Placeable(vs) && Accepts(vs, safe)
    ensures Unpacks(vs)
    decreases |vs|
  {
    if vs != [] {
      CountsGrow(vs, |vs| - 1);
      UnpackMirrors(vs[..|vs| - 1], safe);
      if vs[|vs| - 1].Leaf? {
        LeafUnpacks(vs, safe);
      } else {
        OtherUnpacks(vs);
      }
    }
  }

  lemma SkipMirrors(t: Target, vs: seq<Visit>)
    requires vs != [] && !vs[|vs| - 1].Leaf? && Mirrors(t, vs[..|vs| - 1])
    ensures Mirrors(t, vs)
  {
    forall p ensures LeafBelow(vs[..|vs| - 1], p) ==> LeafBelow(vs, p)
      ensures LeafOn(vs[..|vs| - 1], p) ==> LeafOn(vs, p)
    {
      LeavesStay(vs, p);
    }
  }

  lemma {:induction false} FilesProper(l: Listing, prefix: Path, q: Path)
    requires WellFormed(l) && q in Files(l, prefix)
    requires forall i | 0 <= i < |prefix| :: ProperName(prefix[i])
    ensures ProperPath(q)
  {
    match l {
      case File(n, _, next) =>
        if q != prefix + [n] { FilesProper(next, prefix, q); }
      case Directory(n, _, inside, next) =>
        if q in Files(inside, prefix + [n]) {
          FilesProper(inside, prefix + [n], q);
        } else {
          FilesProper(next, prefix, q);
        }
      case Other(_, next) => FilesProper(next, prefix, q);
    }
  }

  lemma VisitsPlaceable(t: Tree)
    requires WellFormed(t.entries)
    ensures Placeable(Visits(t))
  {
    var vs, seen := Visits(t), Files(Scanned(t), []);
    WalkComplete(t);
    forall i | 0 <= i < |vs| && vs[i].Leaf? ensures vs[i].path in seen && ProperPath(vs[i].path) {
      assert Leaf(vs[i].path, vs[i].node) in vs;
      FilesProper(Scanned(t), [], vs[i].path);
    }
    forall i, j | 0 <= i < |vs| && 0 <= j < |vs| && vs[i].Leaf? && vs[j].Leaf? && vs[i].path <= vs[j].path
      ensures vs[i].path == vs[j].path
    {
      FilesHaveNoChildren(Scanned(t), [], vs[i].path, vs[j].path);
    }
  }

  lemma {:induction false} FileMapMembers(vs: seq<Visit>, q: Path)
    ensures q in FileMap(vs) ==> exists f :: Leaf(q, f) in vs && f.content == FileMap(vs)[q]
    ensures (exists f :: Leaf(q, f) in vs) ==> q in FileMap(vs)
  {
    if vs != [] {
      var n := |vs| - 1;
      FileMapMembers(vs[..n], q);
      assert forall v | v in vs :: v in vs[..n] || v == vs[n];
      if vs[n].Leaf? && vs[n].path == q {
        assert Leaf(q, vs[n].node) in vs;
      } else if q in FileMap(vs) {
        var f :| Leaf(q, f) in vs[..n] && f.content == FileMap(vs[..n])[q];
        assert Leaf(q, f) in vs;
      }
    }
  }

  /** The files met by the walk are the files that the scans deliver. */
  lemma WalkFileMap(t: Tree)
    requires WellFormed(t.entries)
    ensures FileMap(Visits(t)) == Contents(Files(Scanned(t), []))
  {
    var vs, seen := Visits(t), Files(Scanned(t), []);
    WalkComplete(t);
    forall q ensures q in FileMap(vs) <==> q in seen
      ensures q in FileMap(vs) ==> FileMap(vs)[q] == seen[q].content
    {
      FileMapMembers(vs, q);
      if q in seen {
        assert Leaf(q, seen[q]) in vs;
      }
    }
  }

  lemma {:induction false} MemberCount(vs: seq<Visit>)
    ensures |MembersOf(vs)| == FileCount(vs)
  {
    if vs != [] {
      MemberCount(vs[..|vs| - 1]);
    }
  }

  /** No file has two names among these. */
  ghost predicate NoHardLinks(files: map<Path, Node>) {
    forall p, q | p in files && q in files && files[p].inode == files[q].inode :: p == q
  }

  /** What the extraction demands of the files and the writer does not check. */
  ghost predicate Extractable(files: map<Path, Node>) {
    (forall p | p in files :: Restorable(p)) && NoHardLinks(files)
  }

  lemma VisitsExtractable(t: Tree)
    requires WellFormed(t.entries)
    ensures AllRestorable(Visits(t)) && SingleLinks(Visits(t)) <==> Extractable(Files(Scanned(t), []))
  {
    var vs, seen := Visits(t), Files(Scanned(t), []);
    WalkComplete(t);
    forall i | 0 <= i < |vs| && vs[i].Leaf? ensures vs[i].path in seen && seen[vs[i].path] == vs[i].node {
      assert Leaf(vs[i].path, vs[i].node) in vs;
    }
    forall p | p in seen ensures exists i :: 0 <= i < |vs| && vs[i] == Leaf(p, seen[p]) {
      assert Leaf(p, seen[p]) in vs;
    }
  }

  /** Equal contents of all files mean that no file is missing. */
  lemma ContentsComplete(t: Tree)
    requires WellFormed(t.entries)
    ensures Contents(Files(Scanned(t), [])) == Contents(Files(t.entries, [])) <==> TreeExposed(t)
  {
    ScannedFiles(t);
    var seen, all := Files(Scanned(t), []), Files(t.entries, []);
    assert Contents(seen).Keys == seen.Keys && Contents(all).Keys == all.Keys;
  }

  /** For every tree the writer accepts: the extraction succeeds if and only if every path that the
      scans deliver can be restored and no file has two of them, and refuses otherwise.  It then
      rebuilds exactly those files, with the same file count and byte total, and they are all files of
      the tree if and only if every directory that cannot be listed holds none. */
  lemma BackupRoundTrip(t: Tree, safe: Content -> bool)
    requires WellFormed(t.entries) && Accepts(Visits(t), safe)
    ensures var vs, seen := Visits(t), Files(Scanned(t), []); var unpacked := Unpack(MembersOf(vs));
      && |MembersOf(vs)| <= MAX_FILES
      && (unpacked.Some? <==> Extractable(seen))
      && (unpacked.Some? ==>
            && unpacked.value.files == Contents(seen)
            && unpacked.value.count == FileCount(vs) && unpacked.value.bytes == ByteCount(vs)
            && (unpacked.value.files == Contents(Files(t.entries, [])) <==> TreeExposed(t)))
  {
    var vs := Visits(t);
    MemberCount(vs);
    VisitsPlaceable(t);
    UnpackMirrors(vs, safe);
    VisitsExtractable(t);
    WalkFileMap(t);
    ContentsComplete(t);
  }

  // ----- three trees that are archived and do not come back -----

  /** The writer accepts a file whose name is one space; the archive can then not be restored. */
  lemma BlankNameIsArchivedButNotRestored(safe: Content -> bool)
    requires safe([])
    ensures var t := Tree(true, File(" ", Node(1, []), End));
      WellFormed(t.entries) && Accepts(Visits(t), safe) && Unpack(MembersOf(Visits(t))) == None
  {
    var t := Tree(true, File(" ", Node(1, []), End));
    OneFileVisits(" ", Node(1, []));
    OneLeafAccepted([" "], Node(1, []), safe);
    BackupRoundTrip(t, safe);
    assert [" "] in Files(t.entries, []) by { assert [] + [" "] == [" "]; }
    assert Posix([" "]) == " " && Blank(" ");
    assert !Restorable([" "]);
  }

  predicate OnlyFiles(l: Listing) {
    l.End? || (l.File? && OnlyFiles(l.next))
  }

  /** A listing without directories has nothing to descend into. */
  lemma {:induction false} FilesOnly(l: Listing, prefix: Path)
    requires OnlyFiles(l)
    ensures Directories(l, prefix) == [] && Descend(l, prefix) == []
  {
    if l.File? { FilesOnly(l.next, prefix); }
  }

  lemma OneFileVisits(name: string, f: Node)
    ensures Visits(Tree(true, File(name, f, End))) == [Leaf([name], f)]
  {
    var l := File(name, f, End);
    assert Seen(l) == l;
    assert Leaves(l, []) == [Leaf([name], f)] by { assert [] + [name] == [name]; }
    FilesOnly(l, []);
  }

  lemma OneLeafAccepted(p: Path, f: Node, safe: Content -> bool)
    requires !UnsafeParts(p) && f.content == [] && safe([])
    ensures Accepts([Leaf(p, f)], safe)
  {
    assert [Leaf(p, f)][..0] == [];
    assert FileCount([Leaf(p, f)]) == 1 && ByteCount([Leaf(p, f)]) == 0;
  }

  const LINKED := Tree(true, File("a", Node(1, []), File("b", Node(1, []), End)))

  /** The writer accepts two names of one file and stores the second one as a link, which the
      extraction refuses. */
  lemma HardLinkIsArchivedButNotRestored(safe: Content -> bool)
    requires safe([])
    ensures WellFormed(LINKED.entries) && Accepts(Visits(LINKED), safe)
    ensures MembersOf(Visits(LINKED)) == [Regular("a", []), HardLink("b", "a")]
    ensures Unpack(MembersOf(Visits(LINKED))) == None
  {
    var a, b := Leaf(["a"], Node(1, [])), Leaf(["b"], Node(1, []));
    LinkedVisits();
    assert [a, b][..1] == [a] && [a][..0] == [] && [a, b][1] == b;
    assert FileCount([a]) == 1 && ByteCount([a]) == 0;
    assert FileCount([a, b]) == 2 && ByteCount([a, b]) == 0;
    assert !UnsafePart("a") && !UnsafePart("b");
    assert InodesOf([]) == map[] && MembersOf([]) == [];
    assert MembersOf([a]) == [Regular("a", [])] && InodesOf([a]) == map[1 := "a"];
    var ms := [Regular("a", []), HardLink("b", "a")];
    assert Unpack(ms) == None by { assert ms[..|ms| - 1] == [Regular("a", [])]; }
  }

  lemma LinkedVisits()
    ensures Visits(LINKED) == [Leaf(["a"], Node(1, [])), Leaf(["b"], Node(1, []))]
    ensures WellFormed(LINKED.entries)
  {
    var rest := File("b", Node(1, []), End);
    var l := File("a", Node(1, []), rest);
    assert Seen(l) == l by { assert Seen(rest) == rest; }
    assert [] + ["a"] == ["a"] && [] + ["b"] == ["b"];
    assert Leaves(rest, []) == [Leaf(["b"], Node(1, []))];
    FilesOnly(l, []);
  }

  const CLOSED := Tree(true, Directory("d", false, File("a", Node(1, []), End), End))

  /** The writer accepts a directory that it cannot list; the file in it is not archived, and nothing
      reports that. */
  lemma UnlistedFileIsNotArchived(safe: Content -> bool)
    ensures WellFormed(CLOSED.entries) && Accepts(Visits(CLOSED), safe) && MembersOf(Visits(CLOSED)) == []
    ensures Unpack([]) == Some(EMPTY) && ["d", "a"] in Files(CLOSED.entries, []) && !TreeExposed(CLOSED)
  {
    var l := Directory("d", false, End, End);
    assert Scanned(CLOSED) == l;
    assert [] + ["d"] == ["d"] && ["d"] + ["a"] == ["d", "a"];
    assert Walk(End, ["d"]) == [];
    assert Visits(CLOSED) == [Enter(["d"])];
    assert [Enter(["d"])][..0] == [];
    assert FileCount([Enter(["d"])]) == 0 && ByteCount([Enter(["d"])]) == 0;
    assert !UnsafePart("d");
    assert MembersOf([]) == [];
    assert Files(CLOSED.entries, []) == Files(File("a", Node(1, []), End), ["d"]);
  }

  // ----- the counters count files -----

  lemma {:induction false} FileCountSplits(a: seq<Visit>, b: seq<Visit>)
    ensures FileCount(a + b) == FileCount(a) + FileCount(b)
  {
    if b == [] {
      assert a + b == a;
    } else {
      FileCountSplits(a, b[..|b| - 1]);
      assert (a + b)[..|a + b| - 1] == a + b[..|b| - 1];
    }
  }

  lemma {:induction false} NoLeaves(vs: seq<Visit>)
    requires forall v | v in vs :: !v.Leaf?
    ensures FileCount(vs) == 0
  {
    if vs != [] {
      NoLeaves(vs[..|vs| - 1]);
    }
  }

  lemma {:induction false} LevelCount(l: Listing, prefix: Path)
    requires WellFormed(l)
    ensures FileCount(Leaves(l, prefix)) + FileCount(Descend(l, prefix)) == |Files(l, prefix)|
    decreases l, 0
  {
    match l {
      case End =>
      case File(n, f, next) =>
        LevelCount(next, prefix);
        FileCountSplits([Leaf(prefix + [n], f)], Leaves(next, prefix));
        assert [Leaf(prefix + [n], f)][..0] == [];
        if prefix + [n] in Files(next, prefix) { FilesUnder(next, prefix, prefix + [n]); }
      case Directory(n, _, inside, next) =>
        LevelCount(next, prefix);
        ListingCount(inside, prefix + [n]);
        FileCountSplits(Walk(inside, prefix + [n]), Descend(next, prefix));
        var a, b := Files(next, prefix), Files(inside, prefix + [n]);
        forall q | q in b ensures q !in a {
          FilesUnder(inside, prefix + [n], q);
          assert q[|prefix|] == q[..|prefix| + 1][|prefix|] == n;
          if q in a { FilesUnder(next, prefix, q); }
        }
        assert (a + b).Keys == a.Keys + b.Keys && a.Keys !! b.Keys;
        assert |(a + b).Keys| == |a.Keys| + |b.Keys|;
      case Other(n, next) =>
        LevelCount(next, prefix);
        FileCountSplits([Odd(prefix + [n])], Leaves(next, prefix));
        assert [Odd(prefix + [n])][..0] == [];
    }
  }

  lemma {:induction false} ListingCount(l: Listing, prefix: Path)
    requires WellFormed(l)
    ensures FileCount(Walk(l, prefix)) == |Files(l, prefix)|
    decreases l, 1
  {
    DirectoriesOnly(l, prefix);
    NoLeaves(Directories(l, prefix));
    FileCountSplits(Directories(l, prefix), Leaves(l, prefix));
    FileCountSplits(Directories(l, prefix) + Leaves(l, prefix), Descend(l, prefix));
    LevelCount(l, prefix);
  }

  /** The reported count is the number of files that the scans deliver, met once each; it is the
      number of files of the tree exactly when no directory hides one. */
  lemma WalkCount(t: Tree)
    requires WellFormed(t.entries)
    ensures FileCount(Visits(t)) == |Files(Scanned(t), [])|
    ensures FileCount(Visits(t)) == |Files(t.entries, [])| <==> TreeExposed(t)
  {
    ScannedFiles(t);
    ListingCount(Scanned(t), []);
    var seen, all := Files(Scanned(t), []).Keys, Files(t.entries, []).Keys;
    assert all == seen + (all - seen);
    if |seen| == |all| {
      assert |all - seen| == 0;
    }
  }
}
