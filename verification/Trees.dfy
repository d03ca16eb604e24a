/** Declared directory trees, what a walk sees of them and in which order, and the limits that both
    the backup archive and the release copy put on them. */
module Trees {
  import opened Texts

  type Content = seq<bv8>
  type Path = seq<string>

  /** A regular file behind a name.  Two names with one inode number are hard links. */
  datatype Node = Node(inode: nat, content: Content)

  /** A directory listing in name order.  A directory that is not `listed` has entries that a scan
      cannot read.  `Other` is anything that is neither a regular file nor a directory, symbolic
      links of both kinds included. */
  datatype Listing =
    | End
    | File(name: string, node: Node, next: Listing)
    | Directory(name: string, listed: bool, inside: Listing, next: Listing)
    | Other(name: string, next: Listing)

  /** A root directory. */
  datatype Tree = Tree(listed: bool, entries: Listing)

  predicate ProperName(n: string) {
    n != "" && n != "." && n != ".." && '/' !in n && '\0' !in n
  }

  function Names(l: Listing): set<string> {
    match l
    case End => {}
    case File(n, _, next) => {n} + Names(next)
    case Directory(n, _, _, next) => {n} + Names(next)
    case Other(n, next) => {n} + Names(next)
  }

  /** What a POSIX file system guarantees. */
  predicate WellFormed(l: Listing) {
    match l
    case End => true
    case File(n, _, next) => ProperName(n) && n !in Names(next) && WellFormed(next)
    case Directory(n, _, inside, next) =>
      ProperName(n) && n !in Names(next) && WellFormed(inside) && WellFormed(next)
    case Other(n, next) => ProperName(n) && n !in Names(next) && WellFormed(next)
  }

  /** The files of a listing by relative path, whether or not a scan can reach them. */
  function Files(l: Listing, prefix: Path): map<Path, Node> {
    match l
    case End => map[]
    case File(n, f, next) => Files(next, prefix)[prefix + [n] := f]
    case Directory(n, _, inside, next) => Files(next, prefix) + Files(inside, prefix + [n])
    case Other(_, next) => Files(next, prefix)
  }

  /** The contents of files, links forgotten. */
  function Contents(files: map<Path, Node>): map<Path, Content> {
    map p | p in files :: files[p].content
  }

  // ----- what the scans of a walk deliver -----

  /** `os.walk` without an error handler: a directory that cannot be listed counts as empty. */
  function Seen(l: Listing): Listing {
    match l
    case End => End
    case File(n, f, next) => File(n, f, Seen(next))
    case Directory(n, listed, inside, next) => Directory(n, listed, if listed then Seen(inside) else End, Seen(next))
    case Other(n, next) => Other(n, Seen(next))
  }

  function Scanned(t: Tree): Listing {
    if t.listed then Seen(t.entries) else End
  }

  /** No file anywhere in the listing. */
  predicate Fileless(l: Listing) {
    match l
    case End => true
    case File(_, _, _) => false
    case Directory(_, _, inside, next) => Fileless(inside) && Fileless(next)
    case Other(_, next) => Fileless(next)
  }

  /** Every directory that cannot be listed holds no file. */
  predicate Exposed(l: Listing) {
    match l
    case End => true
    case File(_, _, next) => Exposed(next)
    case Directory(_, listed, inside, next) => (if listed then Exposed(inside) else Fileless(inside)) && Exposed(next)
    case Other(_, next) => Exposed(next)
  }

  predicate TreeExposed(t: Tree) {
    if t.listed then Exposed(t.entries) else Fileless(t.entries)
  }

  // ----- the top-down walk -----

  datatype Visit =
    | Enter(path: Path)
    | Leaf(path: Path, node: Node)
    | Odd(path: Path)

  function Directories(l: Listing, prefix: Path): seq<Visit> {
    match l
    case End => []
    case Directory(n, _, _, next) => [Enter(prefix + [n])] + Directories(next, prefix)
    case File(_, _, next) => Directories(next, prefix)
    case Other(_, next) => Directories(next, prefix)
  }

  function Leaves(l: Listing, prefix: Path): seq<Visit> {
    match l
    case End => []
    case Directory(_, _, _, next) => Leaves(next, prefix)
    case File(n, f, next) => [Leaf(prefix + [n], f)] + Leaves(next, prefix)
    case Other(n, next) => [Odd(prefix + [n])] + Leaves(next, prefix)
  }

  /** `os.walk(topdown=True)` over scanned directories: this level's directories and files, then each
      directory in turn. */
  function Walk(l: Listing, prefix: Path): seq<Visit>
    decreases l, 1
  {
    Directories(l, prefix) + Leaves(l, prefix) + Descend(l, prefix)
  }

  function Descend(l: Listing, prefix: Path): seq<Visit>
    decreases l, 0
  {
    match l
    case End => []
    case Directory(n, _, inside, next) => Walk(inside, prefix + [n]) + Descend(next, prefix)
    case File(_, _, next) => Descend(next, prefix)
    case Other(_, next) => Descend(next, prefix)
  }

  /** The walk of a root directory. */
  function Visits(t: Tree): seq<Visit> {
    Walk(Scanned(t), [])
  }

  // ----- the limits -----

  const MAX_FILES := 10_000
  const MAX_FILE_BYTES := 10 * 1024 * 1024
  const MAX_TOTAL_BYTES := 256 * 1024 * 1024
  const PROTECTED: set<string> := {".env", ".git", "AGENTS.md", "INVENTORY.json", "logs", "backups"}

  predicate UnsafePart(part: string) {
    part in PROTECTED || ".env" <= part
  }

  predicate UnsafeParts(p: Path) {
    exists i | 0 <= i < |p| :: UnsafePart(p[i])
  }

  /** What a walk may meet; `safe` is the UTF-8 and content screen of one file. */
  predicate Allowed(v: Visit, safe: Content -> bool) {
    match v
    case Enter(p) => !UnsafeParts(p)
    case Leaf(p, f) => !UnsafeParts(p) && |f.content| <= MAX_FILE_BYTES && safe(f.content)
    case Odd(_) => false
  }

  function FileCount(vs: seq<Visit>): nat {
    if vs == [] then 0 else FileCount(vs[..|vs| - 1]) + if vs[|vs| - 1].Leaf? then 1 else 0
  }

  function ByteCount(vs: seq<Visit>): nat {
    if vs == [] then 0
    else ByteCount(vs[..|vs| - 1]) + if vs[|vs| - 1].Leaf? then |vs[|vs| - 1].node.content| else 0
  }

  /** The whole walk stays inside every limit. */
  predicate Accepts(vs: seq<Visit>, safe: Content -> bool) {
    && (forall i | 0 <= i < |vs| :: Allowed(vs[i], safe))
    && FileCount(vs) <= MAX_FILES
    && ByteCount(vs) <= MAX_TOTAL_BYTES
  }

  lemma {:induction false} CountsGrow(vs: seq<Visit>, k: nat)
    requires k <= |vs|
    ensures FileCount(vs[..k]) <= FileCount(vs) && ByteCount(vs[..k]) <= ByteCount(vs)
    decreases |vs|
  {
    if k < |vs| {
      assert vs[..k] == vs[..|vs| - 1][..k];
      CountsGrow(vs[..|vs| - 1], k);
    } else {
      assert vs[..k] == vs;
    }
  }

  /** Which walks are accepted: directories and regular files only, no protected part, files of safe
      content and limited size, and both totals within their limits. */
  lemma AcceptedWalksExactly(vs: seq<Visit>, safe: Content -> bool)
    ensures Accepts(vs, safe) <==>
      && (forall v | v in vs :: !v.Odd? && forall part | part in v.path ::
            !(".env" <= part) && part !in {".git", "AGENTS.md", "INVENTORY.json", "logs", "backups"})
      && (forall v | v in vs && v.Leaf? :: |v.node.content| <= 10 * 1024 * 1024 && safe(v.node.content))
      && FileCount(vs) <= 10_000 && ByteCount(vs) <= 256 * 1024 * 1024
  {
    forall v | v in vs ensures v.Odd? || (UnsafeParts(v.path) <==> exists part :: part in v.path && UnsafePart(part)) {
    }
  }

  // ----- where files lie -----

  lemma {:induction false} FilesUnder(l: Listing, prefix: Path, q: Path)
    requires q in Files(l, prefix)
    ensures |prefix| < |q| && q[..|prefix|] == prefix && q[|prefix|] in Names(l)
  {
    match l {
      case File(n, g, next) =>
        if q != prefix + [n] { FilesUnder(next, prefix, q); }
      case Directory(n, _, inside, next) =>
        if q in Files(inside, prefix + [n]) {
          FilesUnder(inside, prefix + [n], q);
          assert q[|prefix|] == q[..|prefix| + 1][|prefix|];
          assert q[..|prefix|] == q[..|prefix| + 1][..|prefix|];
        } else {
          FilesUnder(next, prefix, q);
        }
      case Other(_, next) => FilesUnder(next, prefix, q);
    }
  }

  lemma InsideHead(inside: Listing, prefix: Path, n: string, q: Path)
    requires WellFormed(inside) && q in Files(inside, prefix + [n])
    ensures |q| > |prefix| && q[|prefix|] == n
  {
    FilesUnder(inside, prefix + [n], q);
    assert q[|prefix|] == q[..|prefix| + 1][|prefix|];
  }

  // ----- what the scans hide -----

  lemma {:induction false} SeenWellFormed(l: Listing)
    requires WellFormed(l)
    ensures WellFormed(Seen(l)) && Names(Seen(l)) == Names(l)
  {
    match l {
      case End =>
      case File(_, _, next) => SeenWellFormed(next);
      case Directory(_, _, inside, next) =>
        SeenWellFormed(inside);
        SeenWellFormed(next);
      case Other(_, next) => SeenWellFormed(next);
    }
  }

  lemma {:induction false} FilelessExactly(l: Listing, prefix: Path)
    ensures Fileless(l) <==> Files(l, prefix) == map[]
  {
    match l {
      case End =>
      case File(n, _, next) => assert prefix + [n] in Files(l, prefix);
      case Directory(n, _, inside, next) =>
        FilelessExactly(inside, prefix + [n]);
        FilelessExactly(next, prefix);
        assert Files(l, prefix).Keys == Files(next, prefix).Keys + Files(inside, prefix + [n]).Keys;
      case Other(_, next) => FilelessExactly(next, prefix);
    }
  }

  /** The scans deliver files of the listing only, and all of them exactly when no file is hidden. */
  lemma {:induction false} SeenFiles(l: Listing, prefix: Path)
    requires WellFormed(l)
    ensures forall q | q in Files(Seen(l), prefix) ::
      q in Files(l, prefix) && Files(Seen(l), prefix)[q] == Files(l, prefix)[q]
    ensures Files(Seen(l), prefix).Keys == Files(l, prefix).Keys <==> Exposed(l)
    decreases l, 0
  {
    match l {
      case End =>
      case File(n, f, next) =>
        SeenFiles(next, prefix);
        NotBelow(next, prefix, n, prefix + [n]);
        var seen, all := Files(Seen(next), prefix).Keys, Files(next, prefix).Keys;
        assert Files(Seen(l), prefix).Keys == seen + {prefix + [n]} && Files(l, prefix).Keys == all + {prefix + [n]};
        assert seen + {prefix + [n]} == all + {prefix + [n]} ==> seen == all;
      case Directory(n, listed, inside, next) =>
        SeenFiles(next, prefix);
        SeenBelow(n, listed, inside, prefix);
        forall q | q in Files(inside, prefix + [n]) ensures q !in Files(next, prefix) {
          InsideHead(inside, prefix, n, q);
          NotBelow(next, prefix, n, q);
        }
        var deep := if listed then Seen(inside) else End;
        assert Files(Seen(l), prefix) == Files(Seen(next), prefix) + Files(deep, prefix + [n]);
        SplitKeys(Files(Seen(next), prefix).Keys, Files(deep, prefix + [n]).Keys, Files(next, prefix).Keys,
          Files(inside, prefix + [n]).Keys);
      case Other(_, next) => SeenFiles(next, prefix);
    }
  }

  /** The case of one directory. */
  lemma SeenBelow(n: string, listed: bool, inside: Listing, prefix: Path)
    requires WellFormed(inside)
    ensures var deep := if listed then Seen(inside) else End; var at := prefix + [n];
      && (forall q | q in Files(deep, at) :: q in Files(inside, at) && Files(deep, at)[q] == Files(inside, at)[q])
      && (Files(deep, at).Keys == Files(inside, at).Keys <==> if listed then Exposed(inside) else Fileless(inside))
    decreases inside, 1
  {
    if listed {
      SeenFiles(inside, prefix + [n]);
    } else {
      FilelessExactly(inside, prefix + [n]);
      assert Files(inside, prefix + [n]).Keys == {} <==> Files(inside, prefix + [n]) == map[];
    }
  }

  lemma NotBelow(l: Listing, prefix: Path, n: string, q: Path)
    requires n !in Names(l) && |prefix| < |q| && q[|prefix|] == n
    ensures q !in Files(l, prefix)
  {
    if q in Files(l, prefix) { FilesUnder(l, prefix, q); }
  }

  lemma SplitKeys<T>(a: set<T>, b: set<T>, c: set<T>, d: set<T>)
    requires a <= c && b <= d && c !! d
    ensures a + b == c + d <==> a == c && b == d
  {
    if a + b == c + d {
      assert forall x | x in c :: x in a + b && x !in b;
      assert forall x | x in d :: x in a + b && x !in a;
    }
  }

  // ----- the walk meets the files that the scans deliver, and only those -----

  /** A path is met with a file exactly when the listing has it there. */
  ghost predicate Met(l: Listing, prefix: Path, q: Path, f: Node) {
    q in Files(l, prefix) && Files(l, prefix)[q] == f
  }

  lemma {:induction false} LevelComplete(l: Listing, prefix: Path, q: Path, f: Node)
    requires WellFormed(l)
    ensures Leaf(q, f) in Leaves(l, prefix) + Descend(l, prefix) <==> Met(l, prefix, q, f)
    decreases l, 0
  {
    match l {
      case End =>
      case File(n, g, next) =>
        LevelComplete(next, prefix, q, f);
        if prefix + [n] in Files(next, prefix) {
          FilesUnder(next, prefix, prefix + [n]);
        }
      case Directory(n, _, inside, next) =>
        LevelComplete(next, prefix, q, f);
        WalkMeets(inside, prefix + [n], q, f);
        if q in Files(next, prefix) {
          FilesUnder(next, prefix, q);
        }
        if q in Files(inside, prefix + [n]) {
          InsideHead(inside, prefix, n, q);
        }
      case Other(n, next) =>
        LevelComplete(next, prefix, q, f);
    }
  }

  lemma {:induction false} DirectoriesOnly(l: Listing, prefix: Path)
    ensures forall v | v in Directories(l, prefix) :: v.Enter?
  {
    match l {
      case End =>
      case File(_, _, next) => DirectoriesOnly(next, prefix);
      case Directory(_, _, _, next) => DirectoriesOnly(next, prefix);
      case Other(_, next) => DirectoriesOnly(next, prefix);
    }
  }

  /** The walk of a scanned listing yields exactly its files. */
  lemma {:induction false} WalkMeets(l: Listing, prefix: Path, q: Path, f: Node)
    requires WellFormed(l)
    ensures Leaf(q, f) in Walk(l, prefix) <==> Met(l, prefix, q, f)
    decreases l, 1
  {
    DirectoriesOnly(l, prefix);
    LevelComplete(l, prefix, q, f);
  }

  /** The walk of a root directory yields files of the tree only, each as it is there, and all of them
      exactly when every directory that cannot be listed holds no file. */
  lemma WalkComplete(t: Tree)
    requires WellFormed(t.entries)
    ensures WellFormed(Scanned(t))
    ensures forall q, f :: Leaf(q, f) in Visits(t) <==> Met(Scanned(t), [], q, f)
    ensures forall q, f | Leaf(q, f) in Visits(t) :: Met(t.entries, [], q, f)
    ensures (forall q | q in Files(t.entries, []) :: Leaf(q, Files(t.entries, [])[q]) in Visits(t)) <==> TreeExposed(t)
  {
    ScannedFiles(t);
    forall q, f ensures Leaf(q, f) in Visits(t) <==> Met(Scanned(t), [], q, f) {
      WalkMeets(Scanned(t), [], q, f);
    }
    var seen, all := Files(Scanned(t), []), Files(t.entries, []);
    if forall q | q in all :: Leaf(q, all[q]) in Visits(t) {
      assert forall q | q in all :: Met(Scanned(t), [], q, all[q]);
      assert seen.Keys == all.Keys;
    }
  }

  lemma ScannedFiles(t: Tree)
    requires WellFormed(t.entries)
    ensures WellFormed(Scanned(t))
    ensures var seen, all := Files(Scanned(t), []), Files(t.entries, []);
      && (forall q | q in seen :: q in all && seen[q] == all[q])
      && (seen.Keys == all.Keys <==> TreeExposed(t))
  {
    if t.listed {
      SeenWellFormed(t.entries);
      SeenFiles(t.entries, []);
    } else {
      FilelessExactly(t.entries, []);
      assert Files(t.entries, []).Keys == {} <==> Files(t.entries, []) == map[];
    }
  }

  /** No file lies below another file. */
  lemma {:induction false} FilesHaveNoChildren(l: Listing, prefix: Path, p: Path, q: Path)
    requires WellFormed(l) && p in Files(l, prefix) && q in Files(l, prefix) && p <= q
    ensures p == q
  {
    FilesUnder(l, prefix, p);
    FilesUnder(l, prefix, q);
    assert q[|prefix|] == p[|prefix|];
    match l {
      case File(n, g, next) =>
        if p in Files(next, prefix) && q in Files(next, prefix) {
          FilesHaveNoChildren(next, prefix, p, q);
        } else if p in Files(next, prefix) {
          FilesUnder(next, prefix, p);
        } else if q in Files(next, prefix) {
          FilesUnder(next, prefix, q);
        }
      case Directory(n, _, inside, next) =>
        var deep := prefix + [n];
        if p in Files(next, prefix) { FilesUnder(next, prefix, p); }
        if q in Files(next, prefix) { FilesUnder(next, prefix, q); }
        if p in Files(inside, deep) {
          FilesUnder(inside, deep, p);
          assert p[|prefix|] == p[..|prefix| + 1][|prefix|];
        }
        if q in Files(inside, deep) {
          FilesUnder(inside, deep, q);
          assert q[|prefix|] == q[..|prefix| + 1][|prefix|];
        }
        if p in Files(inside, deep) {
          FilesHaveNoChildren(inside, deep, p, q);
        } else {
          FilesHaveNoChildren(next, prefix, p, q);
        }
      case Other(_, next) => FilesHaveNoChildren(next, prefix, p, q);
    }
  }
}
