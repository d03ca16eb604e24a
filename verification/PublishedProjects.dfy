/** The catalog of published projects: unique bounded ids over any directory listing. */
module PublishedProjects {
  import opened Texts
  import opened Numerals
  import opened Sets

  // ----- from a name to the base of its id -----

  predicate Plain(c: char) {
    'a' <= c <= 'z' || 'A' <= c <= 'Z' || '0' <= c <= '9' || c == '_' || c == '.' || c == '-'
  }

  /** Every run of other characters becomes one dash; `run` tells whether one is going on. */
  function Dashed(s: string, run: bool): (t: string)
    ensures forall i | 0 <= i < |t| :: Plain(t[i])
  {
    if s == "" then ""
    else if Plain(s[0]) then [s[0]] + Dashed(s[1..], false)
    else (if run then "" else "-") + Dashed(s[1..], true)
  }

  predicate Edge(c: char) {
    c == '.' || c == '-'
  }

  function Trimmed(s: string): (t: string)
    ensures (forall i | 0 <= i < |s| :: Plain(s[i])) ==> forall i | 0 <= i < |t| :: Plain(t[i])
    ensures t != "" ==> !Edge(t[0]) && !Edge(t[|t| - 1])
  {
    if s == "" then ""
    else if Edge(s[0]) then Trimmed(s[1..])
    else if Edge(s[|s| - 1]) then Trimmed(s[..|s| - 1])
    else s
  }

  function Lower(s: string): (t: string)
    ensures |t| == |s|
    ensures forall i | 0 <= i < |s| && Plain(s[i]) :: Plain(t[i]) && !('A' <= t[i] <= 'Z')
  {
    seq(|s|, i requires 0 <= i < |s| => if 'A' <= s[i] <= 'Z' then (s[i] as int + 32) as char else s[i])
  }

  const PREFIX := "published-"

  function Slug(name: string): (t: string)
    ensures t != "" && forall i | 0 <= i < |t| :: Plain(t[i])
  {
    var t := Lower(Trimmed(Dashed(name, false)));
    if t == "" then "project" else t
  }

  lemma {:induction false} PlainStays(s: string, run: bool)
    requires forall i | 0 <= i < |s| :: Plain(s[i])
    ensures Dashed(s, run) == s
  {
    if s != "" { PlainStays(s[1..], false); }
  }

  /** Other characters between two plain texts become one dash. */
  lemma {:induction false} GapIsOneDash(s: string, gap: string, t: string, run: bool)
    requires (forall i | 0 <= i < |s| :: Plain(s[i])) && (s != "" || !run)
    requires gap != "" && forall i | 0 <= i < |gap| :: !Plain(gap[i])
    ensures Dashed(s + gap + t, run) == s + "-" + Dashed(t, true)
  {
    if s == "" {
      assert s + gap + t == gap + t;
      assert (gap + t)[1..] == gap[1..] + t;
      GapEnds(gap[1..], t);
    } else {
      assert (s + gap + t)[1..] == s[1..] + gap + t;
      GapIsOneDash(s[1..], gap, t, false);
    }
  }

  lemma {:induction false} GapEnds(gap: string, t: string)
    requires forall i | 0 <= i < |gap| :: !Plain(gap[i])
    ensures Dashed(gap + t, true) == Dashed(t, true)
  {
    if gap == "" {
      assert gap + t == t;
    } else {
      assert (gap + t)[1..] == gap[1..] + t;
      GapEnds(gap[1..], t);
    }
  }

  /** A plain name without dots or dashes at its ends becomes itself, letter by letter in lower case. */
  lemma SlugOfPlainName(name: string)
    requires name != "" && (forall i | 0 <= i < |name| :: Plain(name[i])) && !Edge(name[0]) && !Edge(name[|name| - 1])
    ensures |Slug(name)| == |name|
    ensures forall i | 0 <= i < |name| ::
      Slug(name)[i] as int == if 65 <= name[i] as int <= 90 then name[i] as int + 32 else name[i] as int
    ensures |name| <= 110 ==> Base(name) == "published-" + Slug(name)
    ensures |name| > 110 ==> Base(name) == "published-" + Slug(name)[..110]
  {
    PlainStays(name, false);
    assert Trimmed(name) == name;
    var full := PREFIX + Slug(name);
    assert |PREFIX| == 10;
    assert |name| > 110 ==> full[..120] == PREFIX + Slug(name)[..110];
  }

  lemma {:induction false} EdgesFall(before: string, core: string, after: string)
    requires core != "" && !Edge(core[0]) && !Edge(core[|core| - 1])
    requires (forall i | 0 <= i < |before| :: Edge(before[i])) && forall i | 0 <= i < |after| :: Edge(after[i])
    ensures Trimmed(before + core + after) == core
    decreases |before| + |after|
  {
    if before != "" {
      assert (before + core + after)[1..] == before[1..] + core + after;
      EdgesFall(before[1..], core, after);
    } else if after != "" {
      var s := before + core + after;
      assert s[..|s| - 1] == before + core + after[..|after| - 1];
      EdgesFall(before, core, after[..|after| - 1]);
    } else {
      assert before + core + after == core;
    }
  }

  /** All dots and dashes at the ends of a plain name fall away, and nothing else does. */
  lemma SlugWithoutEdges(before: string, core: string, after: string)
    requires core != "" && (forall i | 0 <= i < |core| :: Plain(core[i])) && !Edge(core[0]) && !Edge(core[|core| - 1])
    requires forall i | 0 <= i < |before| :: before[i] == '.' || before[i] == '-'
    requires forall i | 0 <= i < |after| :: after[i] == '.' || after[i] == '-'
    ensures Slug(before + core + after) == Slug(core)
  {
    PlainStays(before + core + after, false);
    PlainStays(core, false);
    EdgesFall(before, core, after);
    EdgesFall("", core, "");
    assert "" + core + "" == core;
  }

  /** A name of nothing but other characters, dots and dashes is called a project. */
  lemma {:induction false} NothingLeft(s: string)
    requires forall i | 0 <= i < |s| :: Edge(s[i])
    ensures Trimmed(s) == ""
  {
    if s != "" { NothingLeft(s[1..]); }
  }

  lemma {:induction false} OnlyEdges(s: string, run: bool)
    requires forall i | 0 <= i < |s| :: Plain(s[i]) ==> Edge(s[i])
    ensures forall i | 0 <= i < |Dashed(s, run)| :: Edge(Dashed(s, run)[i])
  {
    if s != "" { OnlyEdges(s[1..], !Plain(s[0])); }
  }

  lemma SlugOfNothing(name: string)
    requires forall i | 0 <= i < |name| :: Plain(name[i]) ==> name[i] == '.' || name[i] == '-'
    ensures Base(name) == "published-project"
  {
    OnlyEdges(name, false);
    NothingLeft(Dashed(name, false));
  }

  function Upto(s: string, k: nat): (t: string)
    ensures |t| <= k && |t| <= |s| && t == s[..|t|] && (|s| <= k ==> t == s)
  {
    if |s| <= k then s else s[..k]
  }

  /** The first candidate. */
  function Base(name: string): (t: string)
    ensures 10 < |t| <= 120 && forall i | 0 <= i < |t| :: Plain(t[i])
  {
    Upto(PREFIX + Slug(name), 120)
  }

  // ----- candidates -----

  function Cut(suffix: nat): nat {
    if 119 - |Decimal(suffix)| >= 1 then 119 - |Decimal(suffix)| else 1
  }

  function Suffixed(base: string, suffix: nat): string {
    Upto(base, Cut(suffix)) + "-" + Decimal(suffix)
  }

  /** The candidates in the order in which they are tried: the base, then suffix 2, 3 and so on. */
  function Candidate(base: string, k: nat): string {
    if k == 0 then base else Suffixed(base, k + 1)
  }

  /** The k-th retry ends in a dash and the number k + 1, behind as much of the base as 120 characters hold. */
  lemma CandidateExactly(base: string, k: nat)
    requires 0 < k && |Decimal(k + 1)| < 119
    ensures var d := Decimal(k + 1); var room := 119 - |d|;
      Candidate(base, k) == (if |base| <= room then base else base[..room]) + "-" + d
  {
  }

  /** How many characters follow the last dash. */
  function TailLength(s: string): nat {
    if s == "" || s[|s| - 1] == '-' then 0 else 1 + TailLength(s[..|s| - 1])
  }

  lemma {:induction false} TailBehindDash(p: string, d: string)
    requires '-' !in d
    ensures TailLength(p + "-" + d) == |d|
  {
    var s := p + "-" + d;
    if d != "" {
      TailBehindDash(p, d[..|d| - 1]);
      assert s[..|s| - 1] == p + "-" + d[..|d| - 1];
    }
  }

  /** Candidates with different suffixes differ: the digits after the last dash are the suffix. */
  lemma SuffixesDiffer(base: string, m: nat, n: nat)
    requires Suffixed(base, m) == Suffixed(base, n)
    ensures m == n
  {
    var s, d, e := Suffixed(base, m), Decimal(m), Decimal(n);
    TailBehindDash(Upto(base, Cut(m)), d);
    TailBehindDash(Upto(base, Cut(n)), e);
    assert s[|s| - |d|..] == d && s[|s| - |e|..] == e;
    DecimalInjective(m, n);
  }

  /** The suffixed candidates that were tried. */
  function Tried(base: string, k: nat): set<string> {
    if k == 0 then {} else Tried(base, k - 1) + {Candidate(base, k)}
  }

  lemma {:induction false} TriedIsTried(base: string, k: nat, t: string)
    requires t in Tried(base, k)
    ensures exists j :: 1 <= j <= k && t == Candidate(base, j)
  {
    if t in Tried(base, k - 1) {
      TriedIsTried(base, k - 1, t);
    }
  }

  lemma {:induction false} TriedAreDistinct(base: string, k: nat)
    ensures |Tried(base, k)| == k
  {
    if k > 0 {
      TriedAreDistinct(base, k - 1);
      if Candidate(base, k) in Tried(base, k - 1) {
        TriedIsTried(base, k - 1, Candidate(base, k));
        var j :| 1 <= j <= k - 1 && Candidate(base, k) == Candidate(base, j);
        SuffixesDiffer(base, j + 1, k + 1);
      }
    }
  }

  /** Pigeonhole: not all of the first candidates can be in use. */
  lemma SomeCandidateIsFree(base: string, used: set<string>, k: nat)
    requires Tried(base, k) <= used
    ensures k <= |used|
  {
    TriedAreDistinct(base, k);
    SubsetIsSmaller(Tried(base, k), used);
  }

  lemma CandidateIsShort(base: string, k: nat)
    requires |base| <= 120 && k < 999
    ensures |Candidate(base, k)| <= 120
  {
    if k > 0 {
      assert Power10(3) == 1000;
      DecimalLength(k + 1, 3);
    }
  }

  /** A text of plain characters passes the text check. */
  lemma PlainIsSafe(x: Screen, t: string, limit: nat)
    requires t != "" && |t| <= limit && forall i | 0 <= i < |t| :: Plain(t[i])
    ensures x.Safe(t, limit)
  {
    assert x.Clean(t);
    assert !Space(t[0]);
  }

  lemma CandidateIsPlain(base: string, k: nat)
    requires base != "" && forall i | 0 <= i < |base| :: Plain(base[i])
    ensures var t := Candidate(base, k); t != "" && forall i | 0 <= i < |t| :: Plain(t[i])
  {
  }

  /** `_project_id`: the first candidate that is not in use, after at most one suffix more than there
      are ids in use. */
  method ProjectId(name: string, used: set<string>) returns (id: string, ghost k: nat)
    ensures id == Candidate(Base(name), k) && id !in used
    ensures AllUsed(Base(name), used, k)
    ensures k <= |used| + 1
    ensures |used| <= 256 ==> |id| <= 120
  {
    var base := Base(name);
    id := base;
    k := 0;
    var suffix := 2;
    while id in used
      invariant suffix == k + 2 && id == Candidate(base, k)
      invariant k - 1 <= |used|
      invariant AllUsed(base, used, k)
      decreases |used| + 1 - k
    {
      OneMoreUsed(base, used, k);
      id := Upto(base, Cut(suffix)) + "-" + Decimal(suffix);
      suffix := suffix + 1;
      k := k + 1;
    }
    if |used| <= 256 {
      CandidateIsShort(base, k);
    }
  }

  /** The candidates before the k-th are in use. */
  predicate AllUsed(base: string, used: set<string>, k: nat) {
    forall j | 0 <= j < k :: Candidate(base, j) in used
  }

  lemma OneMoreUsed(base: string, used: set<string>, k: nat)
    requires AllUsed(base, used, k) && Candidate(base, k) in used
    ensures AllUsed(base, used, k + 1) && k <= |used|
  {
    forall t | t in Tried(base, k) ensures t in used {
      TriedIsTried(base, k, t);
    }
    SomeCandidateIsFree(base, used, k);
  }

  // ----- the listing -----

  /** The marker names that are looked for; evidence may name another one. */
  datatype Marker =
    | GIT | CARGO_TOML | DOCKERFILE | COMPOSER_JSON | COMPOSE_YML | DOCKER_COMPOSE_YML | GO_MOD
    | INDEX_HTML | MANAGE_PY | PACKAGE_JSON | PUBLIC | PYPROJECT_TOML | REQUIREMENTS_TXT | SRC
    | OtherMarker(name: string)

  /** The texts of the kinds that are told apart, or another text in their place. */
  datatype Kind = NODE | PYTHON | PHP | RUST | GO | WEB | GIT_ONLY | DIRECTORY | OtherKind(text: string)

  datatype Scope = DirectChildrenOnly | OtherScope(text: string)

  /** What the file system says about an entry: an error, no plain directory of the root, or a
      directory with some markers. */
  datatype Look = Unreadable | Hidden | Folder(names: set<Marker>)
  datatype Entry = Entry(name: string, look: Look)

  /** Evidence as a provider hands it over: a field is None where its value has another type, and
      `described` tells whether the state of a project is a text. */
  datatype Project = Project(
    id: string, name: string, relativePath: string, kind: Kind, markers: Option<set<Marker>>, git: Option<bool>,
    described: bool)

  datatype Evidence = Evidence(root: string, scope: Scope, projects: seq<Project>, skipped: Option<int>)

  function KindFor(m: set<Marker>): (k: Kind)
    ensures !k.OtherKind?
  {
    if PACKAGE_JSON in m then NODE
    else if PYPROJECT_TOML in m || REQUIREMENTS_TXT in m || MANAGE_PY in m then PYTHON
    else if COMPOSER_JSON in m then PHP
    else if CARGO_TOML in m then RUST
    else if GO_MOD in m then GO
    else if INDEX_HTML in m || PUBLIC in m then WEB
    else if GIT in m then GIT_ONLY
    else DIRECTORY
  }

  /** What each marker means: the first of the languages that shows decides, then a web page, then a
      repository. */
  lemma KindsExactly(m: set<Marker>)
    ensures KindFor(m) == NODE <==> PACKAGE_JSON in m
    ensures KindFor(m) == PYTHON <==>
      PACKAGE_JSON !in m && (PYPROJECT_TOML in m || REQUIREMENTS_TXT in m || MANAGE_PY in m)
    ensures KindFor(m) == PHP <==>
      COMPOSER_JSON in m && m !! {PACKAGE_JSON, PYPROJECT_TOML, REQUIREMENTS_TXT, MANAGE_PY}
    ensures KindFor(m) == RUST <==>
      CARGO_TOML in m && m !! {PACKAGE_JSON, PYPROJECT_TOML, REQUIREMENTS_TXT, MANAGE_PY, COMPOSER_JSON}
    ensures KindFor(m) == GO <==>
      GO_MOD in m && m !! {PACKAGE_JSON, PYPROJECT_TOML, REQUIREMENTS_TXT, MANAGE_PY, COMPOSER_JSON, CARGO_TOML}
    ensures KindFor(m) == WEB <==>
      (INDEX_HTML in m || PUBLIC in m)
      && m !! {PACKAGE_JSON, PYPROJECT_TOML, REQUIREMENTS_TXT, MANAGE_PY, COMPOSER_JSON, CARGO_TOML, GO_MOD}
    ensures KindFor(m) in {GIT_ONLY, DIRECTORY} ==> (KindFor(m) == GIT_ONLY <==> GIT in m)
  {
  }

  /** `_read_markers`: the known names among the children. */
  function MarkersOf(e: Entry): (known: set<Marker>)
    ensures forall m | m in known :: !m.OtherMarker?
  {
    if e.look.Folder? then set m | m in e.look.names && !m.OtherMarker? else {}
  }

  /** The markers of an entry are its known names, and none when it cannot be read. */
  lemma MarkersExactly(e: Entry, m: Marker)
    ensures m in MarkersOf(e) <==> e.look.Folder? && m in e.look.names && !m.OtherMarker?
  {
  }

  const MAX_PUBLISHED_PROJECTS := 256

  /** The entries that could be listed, in order. */
  function Visible(excluded: string -> bool, entries: seq<Entry>): seq<Entry> {
    if entries == [] then []
    else
      var e := entries[|entries| - 1];
      Visible(excluded, entries[..|entries| - 1]) + if excluded(e.name) || e.look.Hidden? then [] else [e]
  }

  lemma {:induction false} VisiblePrefix(excluded: string -> bool, entries: seq<Entry>, i: nat)
    requires i <= |entries|
    ensures |Visible(excluded, entries[..i])| <= |Visible(excluded, entries)|
    ensures Visible(excluded, entries[..i]) == Visible(excluded, entries)[..|Visible(excluded, entries[..i])|]
    decreases |entries|
  {
    if i == |entries| {
      assert entries[..i] == entries;
    } else {
      assert entries[..|entries| - 1][..i] == entries[..i];
      VisiblePrefix(excluded, entries[..|entries| - 1], i);
    }
  }

  /** The entries that are listed. */
  function Listed(visible: seq<Entry>, most: nat): seq<Entry> {
    if |visible| <= most then visible else visible[..most]
  }

  predicate Matches(p: Project, e: Entry) {
    && p.name == Strip(e.name) && p.relativePath == p.name
    && p.markers == Some(MarkersOf(e)) && p.kind == KindFor(MarkersOf(e)) && p.git == Some(GIT in MarkersOf(e))
    && p.described
  }

  function ProjectFor(id: string, name: string, markers: set<Marker>): Project {
    Project(id, name, name, KindFor(markers), Some(markers), Some(GIT in markers), true)
  }

  lemma ProjectForIsAccepted(x: Screen, id: string, name: string, markers: set<Marker>)
    requires x.Safe(id, 128) && x.Safe(name, 128) && forall m | m in markers :: !m.OtherMarker?
    ensures ProjectAccepted(x, ProjectFor(id, name, markers))
  {
  }

  ghost predicate Shows(projects: seq<Project>, listed: seq<Entry>) {
    |projects| == |listed| && forall i | 0 <= i < |projects| :: Matches(projects[i], listed[i])
  }

  ghost predicate DistinctIds(projects: seq<Project>) {
    forall i, j | 0 <= i < j < |projects| :: projects[i].id != projects[j].id
  }

  predicate ProjectAccepted(x: Screen, p: Project) {
    && x.Safe(p.id, 128) && x.Safe(p.name, 128) && x.Safe(p.relativePath, 128) && p.relativePath == p.name
    && (p.kind.OtherKind? ==> x.Safe(p.kind.text, 32))
    && p.markers.Some? && (forall m | m in p.markers.value :: !m.OtherMarker?)
    && p.git.Some? && p.described
  }

  /** What `_validate_evidence` accepts. */
  ghost predicate Accepted(x: Screen, e: Evidence) {
    && x.Safe(e.root, 256) && e.scope == DirectChildrenOnly && e.skipped.Some? && 0 <= e.skipped.value
    && |e.projects| <= MAX_PUBLISHED_PROJECTS && DistinctIds(e.projects)
    && forall i | 0 <= i < |e.projects| :: ProjectAccepted(x, e.projects[i])
  }

  /** `_validate_evidence`, with its growing set of seen ids. */
  method ValidateEvidence(x: Screen, e: Evidence) returns (ok: bool)
    ensures ok <==> Accepted(x, e)
  {
    if !x.Safe(e.root, 256) || e.scope != DirectChildrenOnly || e.skipped == None || e.skipped.value < 0 {
      return false;
    }
    if |e.projects| > MAX_PUBLISHED_PROJECTS {
      return false;
    }
    var seen: set<string> := {};
    for i := 0 to |e.projects|
      invariant AcceptedUpto(x, e.projects, i)
      invariant seen == set j | 0 <= j < i :: e.projects[j].id
    {
      var p := e.projects[i];
      if !ProjectAccepted(x, p) || p.id in seen {
        return false;
      }
      seen := seen + {p.id};
    }
    ok := true;
  }

  ghost predicate AcceptedUpto(x: Screen, projects: seq<Project>, n: nat)
    requires n <= |projects|
  {
    && (forall i | 0 <= i < n :: ProjectAccepted(x, projects[i]))
    && (forall i, j | 0 <= i < j < n :: projects[i].id != projects[j].id)
  }

  /** The collected projects and the ids in use. */
  ghost predicate Sound(x: Screen, projects: seq<Project>, used: set<string>) {
    && (forall i | 0 <= i < |projects| :: projects[i].id in used && ProjectAccepted(x, projects[i]))
    && |used| == |projects| && DistinctIds(projects) && ShortIds(projects)
  }

  predicate Shown(excluded: string -> bool, e: Entry) {
    !excluded(e.name) && !e.look.Hidden?
  }

  lemma VisibleStep(excluded: string -> bool, entries: seq<Entry>, i: nat)
    requires i < |entries|
    ensures Visible(excluded, entries[..i + 1]) ==
      Visible(excluded, entries[..i]) + if Shown(excluded, entries[i]) then [entries[i]] else []
  {
    assert entries[..i + 1][..i] == entries[..i];
  }

  ghost predicate AllSafe(x: Screen, listed: seq<Entry>) {
    forall e | e in listed :: x.Safe(e.name, 128)
  }

  lemma NextIsListed(excluded: string -> bool, entries: seq<Entry>, i: nat, most: nat)
    requires i < |entries| && Shown(excluded, entries[i]) && |Visible(excluded, entries[..i])| < most
    ensures entries[i] in Listed(Visible(excluded, entries), most)
  {
    VisibleStep(excluded, entries, i);
    VisiblePrefix(excluded, entries, i + 1);
    var n := |Visible(excluded, entries[..i])|;
    assert Visible(excluded, entries)[n] == entries[i];
    assert Listed(Visible(excluded, entries), most)[n] == entries[i];
  }

  lemma UnsafeNext(projects: seq<Project>, x: Screen, excluded: string -> bool, entries: seq<Entry>, i: nat, most: nat)
    requires i < |entries| && Mirrors(projects, x, excluded, entries[..i], most)
    requires |projects| < most && Shown(excluded, entries[i]) && !x.Safe(entries[i].name, 128)
    ensures !AllSafe(x, Listed(Visible(excluded, entries), most))
  {
    NextIsListed(excluded, entries, i, most);
  }

  lemma SoundIsAccepted(x: Screen, e: Evidence, used: set<string>)
    requires Sound(x, e.projects, used) && |e.projects| <= MAX_PUBLISHED_PROJECTS && x.Safe(e.root, 256)
    requires e.scope == DirectChildrenOnly && e.skipped.Some? && 0 <= e.skipped.value
    ensures DistinctIds(e.projects) && ShortIds(e.projects) && Accepted(x, e)
  {
  }

  lemma ListedStep(visible: seq<Entry>, e: Entry, most: nat)
    ensures Listed(visible + [e], most) == Listed(visible, most) + if |visible| < most then [e] else []
  {
  }

  /** What the collected projects mirror after the first `i` entries. */
  ghost predicate Mirrors(projects: seq<Project>, x: Screen, excluded: string -> bool, entries: seq<Entry>, most: nat) {
    var listed := Listed(Visible(excluded, entries), most);
    Shows(projects, listed) && AllSafe(x, listed)
  }

  lemma MirrorSkips(projects: seq<Project>, x: Screen, excluded: string -> bool, entries: seq<Entry>, i: nat, most: nat)
    requires i < |entries| && Mirrors(projects, x, excluded, entries[..i], most)
    requires |projects| >= most || !Shown(excluded, entries[i])
    ensures Mirrors(projects, x, excluded, entries[..i + 1], most)
  {
    VisibleStep(excluded, entries, i);
    if Shown(excluded, entries[i]) {
      ListedStep(Visible(excluded, entries[..i]), entries[i], most);
    }
  }

  lemma MirrorGrows(projects: seq<Project>, p: Project, x: Screen, excluded: string -> bool, entries: seq<Entry>,
      i: nat, most: nat)
    requires i < |entries| && Mirrors(projects, x, excluded, entries[..i], most)
    requires |projects| < most && Shown(excluded, entries[i]) && x.Safe(entries[i].name, 128) && Matches(p, entries[i])
    ensures Mirrors(projects + [p], x, excluded, entries[..i + 1], most)
  {
    VisibleStep(excluded, entries, i);
    ListedStep(Visible(excluded, entries[..i]), entries[i], most);
  }

  lemma SoundGrows(x: Screen, projects: seq<Project>, used: set<string>, p: Project)
    requires Sound(x, projects, used) && p.id !in used && |p.id| <= 120 && ProjectAccepted(x, p)
    ensures Sound(x, projects + [p], used + {p.id})
  {
  }

  ghost predicate ShortIds(projects: seq<Project>) {
    forall i | 0 <= i < |projects| :: |projects[i].id| <= 120
  }

  /** What becomes of an entry. */
  datatype Verdict = Skip | Unsafe | Take(project: Project)

  class ReadSafePublishedProjectsProvider {
    const screen: Screen
    const root: string
    const excluded: string -> bool
    const maxProjects: nat

    predicate Configured() {
      1 <= maxProjects <= MAX_PUBLISHED_PROJECTS
    }

    /** Other limits are refused by the source. */
    constructor (screen: Screen, root: string, excluded: string -> bool, maxProjects: nat)
      requires 1 <= maxProjects <= MAX_PUBLISHED_PROJECTS
      ensures Configured() && this.screen == screen && this.root == root && this.excluded == excluded
      ensures this.maxProjects == maxProjects
    {
      this.screen, this.root, this.excluded, this.maxProjects := screen, root, excluded, maxProjects;
    }

    /** The project of an entry, under a fresh short id. */
    method ProjectOf(entry: Entry, used: set<string>) returns (p: Project)
      requires |used| <= 256 && screen.Safe(entry.name, 128)
      ensures Matches(p, entry) && ProjectAccepted(screen, p) && p.id !in used && |p.id| <= 120
    {
      StripKeepsSafe(screen, entry.name, 128);
      var name := Strip(entry.name);
      ghost var k;
      var id;
      id, k := ProjectId(name, used);
      CandidateIsPlain(Base(name), k);
      PlainIsSafe(screen, id, 128);
      ProjectForIsAccepted(screen, id, name, MarkersOf(entry));
      p := ProjectFor(id, name, MarkersOf(entry));
    }

    /** The first visible entries, one project each with its own short id; every other entry is counted
        as skipped.  It is refused exactly for an unsafe root or an unsafe name among the listed ones,
        and what it returns always passes the validation of the catalog service. */
    method Collect(entries: seq<Entry>) returns (r: Result<Evidence>)
      requires Configured()
      ensures r.Ok? <==> screen.Safe(root, 256) && AllSafe(screen, Listed(Visible(excluded, entries), maxProjects))
      ensures r.Ok? ==> Shows(r.value.projects, Listed(Visible(excluded, entries), maxProjects))
      ensures r.Ok? ==> r.value.skipped.Some? && |r.value.projects| + r.value.skipped.value == |entries|
      ensures r.Ok? ==> DistinctIds(r.value.projects) && ShortIds(r.value.projects) && Accepted(screen, r.value)
    {
      ghost var used;
      var ok, projects, skipped;
      ok, projects, skipped, used := Enumerate(entries);
      if !ok || !screen.Safe(root, 256) {
        return Refused;
      }
      StripKeepsSafe(screen, root, 256);
      r := Ok(Evidence(Strip(root), DirectChildrenOnly, projects, Some(skipped)));
      SoundIsAccepted(screen, r.value, used);
    }

    /** The loop over the entries. */
    method Enumerate(entries: seq<Entry>)
      returns (ok: bool, projects: seq<Project>, skipped: nat, ghost ids: set<string>)
      requires Configured()
      ensures ok ==> |projects| + skipped == |entries| && |projects| <= maxProjects
      ensures ok ==> Mirrors(projects, screen, excluded, entries, maxProjects) && Sound(screen, projects, ids)
      ensures !ok ==> !AllSafe(screen, Listed(Visible(excluded, entries), maxProjects))
    {
      projects, skipped := [], 0;
      var used: set<string> := {};
      for i := 0 to |entries|
        invariant |projects| + skipped == i && |projects| <= maxProjects
        invariant Mirrors(projects, screen, excluded, entries[..i], maxProjects)
        invariant Sound(screen, projects, used)
      {
        var v := Visit(entries, i, projects, used);
        match v {
          case Skip => skipped := skipped + 1;
          case Unsafe => return false, projects, skipped, used;
          case Take(p) => projects, used := projects + [p], used + {p.id};
        }
      }
      assert entries[..|entries|] == entries;
      return true, projects, skipped, used;
    }

    /** One entry. */
    method Visit(entries: seq<Entry>, i: nat, projects: seq<Project>, used: set<string>) returns (v: Verdict)
      requires Configured() && i < |entries| && |projects| <= maxProjects
      requires Mirrors(projects, screen, excluded, entries[..i], maxProjects) && Sound(screen, projects, used)
      ensures v == Skip ==> Mirrors(projects, screen, excluded, entries[..i + 1], maxProjects)
      ensures v == Unsafe ==> !AllSafe(screen, Listed(Visible(excluded, entries), maxProjects))
      ensures v.Take? ==> |projects| < maxProjects
      ensures v.Take? ==> Mirrors(projects + [v.project], screen, excluded, entries[..i + 1], maxProjects)
      ensures v.Take? ==> Sound(screen, projects + [v.project], used + {v.project.id})
    {
      if |projects| >= maxProjects || excluded(entries[i].name) || entries[i].look.Hidden? {
        MirrorSkips(projects, screen, excluded, entries, i, maxProjects);
        return Skip;
      }
      if !screen.Safe(entries[i].name, 128) {
        UnsafeNext(projects, screen, excluded, entries, i, maxProjects);
        return Unsafe;
      }
      var p := ProjectOf(entries[i], used);
      MirrorGrows(projects, p, screen, excluded, entries, i, maxProjects);
      SoundGrows(screen, projects, used, p);
      v := Take(p);
    }
  }
}
