/** The six kinds of declared V3 evidence: how each is built, written as a document and read back. */
module V3Records {
  import opened Sets
  import opened Texts

  // ----- texts -----

  /** A text of a document or a request; None when it is missing or no string. */
  type Raw = Option<string>

  /** `_safe_text` */
  function Text(x: Screen, raw: Raw): Option<string> {
    if raw.Some? && x.Safe(raw.value, 512) then Some(Strip(raw.value)) else None
  }

  /** Text that the service holds: safe and stripped. */
  predicate Settled(x: Screen, t: string) {
    x.Safe(t, 512) && Strip(t) == t
  }

  lemma TextSettles(x: Screen, raw: Raw)
    requires Text(x, raw).Some?
    ensures Settled(x, Text(x, raw).value)
  {
    StripKeepsSafe(x, raw.value, 512);
  }

  predicate AllSettled(x: Screen, ts: seq<string>) {
    forall t | t in ts :: Settled(x, t)
  }

  function AllTexts(x: Screen, raws: seq<Raw>): (r: Option<seq<string>>)
    ensures r.Some? ==> |r.value| == |raws| && forall i | 0 <= i < |raws| :: Text(x, raws[i]) == Some(r.value[i])
  {
    if forall i | 0 <= i < |raws| :: Text(x, raws[i]).Some?
    then Some(seq(|raws|, i requires 0 <= i < |raws| && Text(x, raws[i]).Some? => Text(x, raws[i]).value)) else None
  }

  function Raws(ts: seq<string>): seq<Raw> {
    seq(|ts|, i requires 0 <= i < |ts| => Some(ts[i]))
  }

  lemma TextsSettle(x: Screen, raws: seq<Raw>)
    requires AllTexts(x, raws).Some?
    ensures AllSettled(x, AllTexts(x, raws).value)
  {
    forall i | 0 <= i < |raws| ensures Settled(x, AllTexts(x, raws).value[i]) {
      TextSettles(x, raws[i]);
    }
  }

  lemma TextsReread(x: Screen, ts: seq<string>)
    requires AllSettled(x, ts)
    ensures AllTexts(x, Raws(ts)) == Some(ts)
  {
    assert forall i | 0 <= i < |ts| :: Settled(x, ts[i]) && Raws(ts)[i] == Some(ts[i]);
    assert AllTexts(x, Raws(ts)).value == ts;
  }

  // ----- mappings -----

  /** The items of a mapping, in the order of a document. */
  type Pairs = seq<(Raw, Raw)>
  type Dict = map<string, string>

  /** `_metadata` over the items: later keys win. */
  function Gathered(x: Screen, raw: Pairs): Option<Dict> {
    if raw == [] then Some(map[])
    else
      var init, (key, value) := Gathered(x, raw[..|raw| - 1]), raw[|raw| - 1];
      if init == None || Text(x, key) == None || Text(x, value) == None then None
      else Some(init.value[Text(x, key).value := Text(x, value).value])
  }

  function Metadata(x: Screen, raw: Option<Pairs>): Option<Dict> {
    if raw == None then Some(map[]) else if |raw.value| > 16 then None else Gathered(x, raw.value)
  }

  ghost predicate SettledDict(x: Screen, m: Dict) {
    |m| <= 16 && forall k | k in m :: Settled(x, k) && Settled(x, m[k])
  }

  lemma {:induction false} GatheredSettles(x: Screen, raw: Pairs)
    requires Gathered(x, raw).Some?
    ensures var m := Gathered(x, raw).value; |m| <= |raw| && forall k | k in m :: Settled(x, k) && Settled(x, m[k])
  {
    if raw != [] {
      GatheredSettles(x, raw[..|raw| - 1]);
      var (key, value) := raw[|raw| - 1];
      TextSettles(x, key);
      TextSettles(x, value);
      var m, k := Gathered(x, raw[..|raw| - 1]).value, Text(x, key).value;
      assert m[k := Text(x, value).value].Keys == m.Keys + {k};
    }
  }

  /** The listing holds every item of the mapping once. */
  ghost predicate Lists(s: seq<(string, string)>, m: Dict) {
    |s| == |m| && Assembled(s) == m && forall i | 0 <= i < |s| :: s[i].0 in m && m[s[i].0] == s[i].1
  }

  function Assembled(s: seq<(string, string)>): Dict {
    if s == [] then map[] else Assembled(s[..|s| - 1])[s[|s| - 1].0 := s[|s| - 1].1]
  }

  function RawPairs(s: seq<(string, string)>): Pairs {
    seq(|s|, i requires 0 <= i < |s| => (Some(s[i].0), Some(s[i].1)))
  }

  lemma {:induction false} PairsReread(x: Screen, s: seq<(string, string)>)
    requires forall i | 0 <= i < |s| :: Settled(x, s[i].0) && Settled(x, s[i].1)
    ensures Gathered(x, RawPairs(s)) == Some(Assembled(s))
  {
    if s != [] {
      PairsReread(x, s[..|s| - 1]);
      assert RawPairs(s)[..|s| - 1] == RawPairs(s[..|s| - 1]);
      assert Settled(x, s[|s| - 1].0) && Settled(x, s[|s| - 1].1);
    }
  }

  // ----- library functions and fixed sentences -----

  datatype Metric = CPU | MEMORY | DISK | LOAD | HTTP_ERRORS
  datatype Direction = RISING | FALLING | STABLE

  /** The sentences that the service writes itself. */
  datatype Phrase =
    | CallerMetadata | RecoveryReason
    | NameOf(metric: Metric) | Says(direction: Direction) | Review(metric: Metric)

  /** `items` lists a mapping as the JSON writer does, `sort` sorts a set of texts, `round` rounds to
      three decimals and `say` is the text of a sentence. */
  datatype Kit = Kit(items: Dict -> seq<(string, string)>, sort: set<string> -> seq<string>, round: real -> real,
      say: Phrase -> string)

  ghost predicate Standard(x: Screen, k: Kit) {
    && (forall m :: Lists(k.items(m), m))
    && (forall s: set<string> :: |k.sort(s)| == |s| && forall t :: t in k.sort(s) <==> t in s)
    && (forall r :: 0.0 <= r <= 1.0 ==> 0.0 <= k.round(r) <= 1.0)
    && (forall p :: Settled(x, k.say(p)))
  }

  lemma DictReread(x: Screen, k: Kit, m: Dict)
    requires Standard(x, k) && SettledDict(x, m)
    ensures Metadata(x, Some(RawPairs(k.items(m)))) == Some(m)
  {
    assert Lists(k.items(m), m);
    PairsReread(x, k.items(m));
  }

  // ----- records -----

  datatype Node = Node(id: string, kind: string, caption: string, metadata: Dict)
  datatype Relation = Relation(source: string, relation: string, target: string)

  datatype Item =
    | Twin(id: string, project: string, nodes: seq<Node>, relations: seq<Relation>, source: string, createdAt: string)
    | Correlation(id: string, subject: string, current: seq<string>, matched: seq<string>, events: int,
        confidence: real,
        source: string, createdAt: string)
    | Prediction(id: string, project: string, horizon: int, trend: Dict, findings: seq<string>, confidence: real,
        source: string, createdAt: string)
    | Autonomy(id: string, project: string, level: int, createdAt: string)
    | Server(id: string, caption: string, environment: string, createdAt: string)
    | Recovery(id: string, incident: string, project: string, target: string, strategy: string, requestedBy: string,
        backupId: Option<string>, reason: string, createdAt: string)

  datatype Kind = TWIN | CORRELATION | PREDICTION | AUTONOMY | SERVER | RECOVERY

  function KindOf(i: Item): Kind {
    match i
    case Twin(_, _, _, _, _, _) => TWIN
    case Correlation(_, _, _, _, _, _, _, _) => CORRELATION
    case Prediction(_, _, _, _, _, _, _, _) => PREDICTION
    case Autonomy(_, _, _, _) => AUTONOMY
    case Server(_, _, _, _) => SERVER
    case Recovery(_, _, _, _, _, _, _, _, _) => RECOVERY
  }

  /** The key in its collection: autonomy profiles are kept by project. */
  function Key(i: Item): string {
    if i.Autonomy? then i.project else i.id
  }

  // ----- nodes and relations -----

  datatype RawNode = RawNode(id: Raw, kind: Raw, caption: Raw, metadata: Option<Pairs>)
  datatype RawRelation = RawRelation(source: Raw, relation: Raw, target: Raw)

  function ParseNode(x: Screen, n: RawNode): Option<Node> {
    var id, kind, caption, metadata := Text(x, n.id), Text(x, n.kind), Text(x, n.caption), Metadata(x, n.metadata);
    if id == None || kind == None || caption == None || metadata == None then None
    else Some(Node(id.value, kind.value, caption.value, metadata.value))
  }

  function ParseRelation(x: Screen, r: RawRelation): Option<Relation> {
    var source, relation, target := Text(x, r.source), Text(x, r.relation), Text(x, r.target);
    if source == None || relation == None || target == None then None
    else Some(Relation(source.value, relation.value, target.value))
  }

  function ParseNodes(x: Screen, ns: seq<RawNode>): (r: Option<seq<Node>>)
    ensures r.Some? ==> |r.value| == |ns| && forall i | 0 <= i < |ns| :: ParseNode(x, ns[i]) == Some(r.value[i])
  {
    if forall i | 0 <= i < |ns| :: ParseNode(x, ns[i]).Some?
    then Some(seq(|ns|, i requires 0 <= i < |ns| && ParseNode(x, ns[i]).Some? => ParseNode(x, ns[i]).value)) else None
  }

  function ParseRelations(x: Screen, rs: seq<RawRelation>): (r: Option<seq<Relation>>)
    ensures r.Some? ==> |r.value| == |rs| && forall i | 0 <= i < |rs| :: ParseRelation(x, rs[i]) == Some(r.value[i])
  {
    if forall i | 0 <= i < |rs| :: ParseRelation(x, rs[i]).Some?
    then Some(seq(|rs|, i requires 0 <= i < |rs| && ParseRelation(x, rs[i]).Some? => ParseRelation(x, rs[i]).value))
      else None
  }

  ghost predicate SettledNode(x: Screen, n: Node) {
    Settled(x, n.id) && Settled(x, n.kind) && Settled(x, n.caption) && SettledDict(x, n.metadata)
  }

  predicate SettledRelation(x: Screen, r: Relation) {
    Settled(x, r.source) && Settled(x, r.relation) && Settled(x, r.target)
  }

  function WriteNode(k: Kit, n: Node): RawNode {
    RawNode(Some(n.id), Some(n.kind), Some(n.caption), Some(RawPairs(k.items(n.metadata))))
  }

  function WriteRelation(r: Relation): RawRelation {
    RawRelation(Some(r.source), Some(r.relation), Some(r.target))
  }

  function WriteNodes(k: Kit, ns: seq<Node>): seq<RawNode> {
    seq(|ns|, i requires 0 <= i < |ns| => WriteNode(k, ns[i]))
  }

  function WriteRelations(rs: seq<Relation>): seq<RawRelation> {
    seq(|rs|, i requires 0 <= i < |rs| => WriteRelation(rs[i]))
  }

  lemma NodeSettles(x: Screen, n: RawNode)
    requires ParseNode(x, n).Some?
    ensures SettledNode(x, ParseNode(x, n).value)
  {
    TextSettles(x, n.id);
    TextSettles(x, n.kind);
    TextSettles(x, n.caption);
    if n.metadata.Some? {
      GatheredSettles(x, n.metadata.value);
    }
  }

  lemma NodesSettle(x: Screen, ns: seq<RawNode>)
    requires ParseNodes(x, ns).Some?
    ensures forall n | n in ParseNodes(x, ns).value :: SettledNode(x, n)
  {
    forall i | 0 <= i < |ns| ensures SettledNode(x, ParseNodes(x, ns).value[i]) {
      NodeSettles(x, ns[i]);
    }
  }

  lemma RelationsSettle(x: Screen, rs: seq<RawRelation>)
    requires ParseRelations(x, rs).Some?
    ensures forall r | r in ParseRelations(x, rs).value :: SettledRelation(x, r)
  {
    forall i | 0 <= i < |rs| ensures SettledRelation(x, ParseRelations(x, rs).value[i]) {
      TextSettles(x, rs[i].source);
      TextSettles(x, rs[i].relation);
      TextSettles(x, rs[i].target);
    }
  }

  lemma NodeReread(x: Screen, k: Kit, n: Node)
    requires Standard(x, k) && SettledNode(x, n)
    ensures ParseNode(x, WriteNode(k, n)) == Some(n)
  {
    DictReread(x, k, n.metadata);
  }

  lemma NodesReread(x: Screen, k: Kit, ns: seq<Node>)
    requires Standard(x, k) && forall n | n in ns :: SettledNode(x, n)
    ensures ParseNodes(x, WriteNodes(k, ns)) == Some(ns)
  {
    forall i | 0 <= i < |ns| ensures ParseNode(x, WriteNodes(k, ns)[i]) == Some(ns[i]) {
      NodeReread(x, k, ns[i]);
    }
    assert ParseNodes(x, WriteNodes(k, ns)).value == ns;
  }

  lemma RelationsReread(x: Screen, rs: seq<Relation>)
    requires forall r | r in rs :: SettledRelation(x, r)
    ensures ParseRelations(x, WriteRelations(rs)) == Some(rs)
  {
    forall i | 0 <= i < |rs| ensures ParseRelation(x, WriteRelations(rs)[i]) == Some(rs[i]) {
      assert SettledRelation(x, rs[i]);
    }
    assert ParseRelations(x, WriteRelations(rs)).value == rs;
  }

  /** Node ids are distinct and relations stay inside the twin. */
  predicate Closed(nodes: seq<Node>, relations: seq<Relation>) {
    && (forall i, j | 0 <= i < j < |nodes| :: nodes[i].id != nodes[j].id)
    && (forall r | r in relations ::
          && (exists i | 0 <= i < |nodes| :: nodes[i].id == r.source)
          && (exists i | 0 <= i < |nodes| :: nodes[i].id == r.target))
  }

  // ----- building -----

  /** `register_digital_twin` */
  function BuildTwin(x: Screen, k: Kit, project: Raw, nodes: seq<RawNode>, relations: seq<RawRelation>, id: string,
      now: string): Option<Item> {
    var p, ns, rs := Text(x, project), ParseNodes(x, nodes), ParseRelations(x, relations);
    if p == None || |nodes| > 64 || |relations| > 128 || ns == None || rs == None || !Closed(ns.value, rs.value)
      then None
    else Some(Twin(id, p.value, ns.value, rs.value, k.say(CallerMetadata), now))
  }

  function ToSet(ts: seq<string>): set<string> {
    set t | t in ts
  }

  /** The labels of the events, None where an event is no mapping. */
  function EventLabels(events: seq<Option<Raw>>): seq<Raw> {
    seq(|events|, i requires 0 <= i < |events| => if events[i].Some? then events[i].value else None)
  }

  /** `correlate_history`; an event is None when it is no mapping. */
  function BuildCorrelation(x: Screen, k: Kit, subject: Raw, labels: seq<Raw>, events: seq<Option<Raw>>, id: string,
      now: string): Option<Item> {
    var s, current := Text(x, subject), AllTexts(x, labels);
    var historical := AllTexts(x, EventLabels(events));
    if s == None || current == None || |labels| > 32 || |events| > 256 || historical == None then None
    else
      var distinct := ToSet(current.value);
      var matched := distinct * ToSet(historical.value);
      var confidence := k.round(|matched| as real / (if distinct == {} then 1.0 else |distinct| as real));
      Some(Correlation(id, s.value, current.value, k.sort(matched), |events|, confidence, k.say(CallerMetadata), now))
  }

  /** A snapshot: its five metrics, None when it is not valid. */
  type Snapshot = Option<Metrics>
  datatype Metrics = Metrics(cpu: real, memory: real, disk: real, load: real, httpErrors: real)

  function MetricOf(s: Metrics, m: Metric): real {
    match m
    case CPU => s.cpu
    case MEMORY => s.memory
    case DISK => s.disk
    case LOAD => s.load
    case HTTP_ERRORS => s.httpErrors
  }

  function DirectionOf(start: real, end: real): Direction {
    if end - start > 5.0 then RISING else if end - start < -5.0 then FALLING else STABLE
  }

  predicate NeedsReview(start: real, end: real) {
    end >= 90.0 || (end - start >= 20.0 && end >= 70.0)
  }

  const METRICS := [CPU, MEMORY, DISK, LOAD, HTTP_ERRORS]

  function Trend(k: Kit, first: Metrics, last: Metrics, ms: seq<Metric>): (d: Dict)
    ensures |d| <= |ms|
  {
    if ms == [] then map[]
    else
      var m := ms[|ms| - 1];
      var d := Trend(k, first, last, ms[..|ms| - 1]);
      var key, value := k.say(NameOf(m)), k.say(Says(DirectionOf(MetricOf(first, m), MetricOf(last, m))));
      assert d[key := value].Keys == d.Keys + {key};
      d[key := value]
  }

  function Findings(k: Kit, first: Metrics, last: Metrics, ms: seq<Metric>): (f: set<string>)
    ensures |f| <= |ms|
  {
    if ms == [] then {}
    else
      var m := ms[|ms| - 1];
      Findings(k, first, last, ms[..|ms| - 1])
      + if NeedsReview(MetricOf(first, m), MetricOf(last, m)) then {k.say(Review(m))} else {}
  }

  /** `analyze_predictive` */
  function BuildPrediction(x: Screen, k: Kit, project: Raw, snapshots: seq<Snapshot>, horizon: int, id: string,
      now: string): Option<Item> {
    var p := Text(x, project);
    if p == None || !(1 <= horizon <= 168) || !(1 <= |snapshots| <= 64) || None in snapshots then None
    else
      var first, last := snapshots[0].value, snapshots[|snapshots| - 1].value;
      var raw := 0.45 + |snapshots| as real * 0.05;
      Some(Prediction(id, p.value, horizon, Trend(k, first, last, METRICS), k.sort(Findings(k, first, last, METRICS)),
        k.round(if raw < 0.95 then raw else 0.95), k.say(CallerMetadata), now))
  }

  /** `set_autonomy_profile` */
  function BuildAutonomy(x: Screen, project: Raw, level: int, id: string, now: string): Option<Item> {
    var p := Text(x, project);
    if p == None || !(0 <= level <= 5) then None else Some(Autonomy(id, p.value, level, now))
  }

  /** `register_server` */
  function BuildServer(x: Screen, id: Raw, caption: Raw, environment: Raw, now: string): Option<Item> {
    var i, c, e := Text(x, id), Text(x, caption), Text(x, environment);
    if i == None || c == None || e == None then None else Some(Server(i.value, c.value, e.value, now))
  }

  /** `plan_recovery`; `backup` is None when no backup is named. */
  function BuildRecovery(x: Screen, k: Kit, incident: Raw, project: Raw, target: Raw, strategy: Raw, user: string,
      backup: Option<Raw>,
                         id: string, now: string): Option<Item> {
    var i, p, t, s := Text(x, incident), Text(x, project), Text(x, target), Text(x, strategy);
    if i == None || p == None || t == None || s == None || (backup.Some? && Text(x, backup.value) == None) then None
    else Some(Recovery(id, i.value, p.value, t.value, s.value, user,
                if backup.Some? then Text(x, backup.value) else None, k.say(RecoveryReason), now))
  }

  // ----- what a built record says -----

  /** A twin holds the stripped texts of the request, node by node and relation by relation; it is built
      exactly when all of them are safe, it is not too large, and it is closed. */
  lemma TwinExactly(x: Screen, k: Kit, project: Raw, nodes: seq<RawNode>, relations: seq<RawRelation>, id: string,
      now: string)
    ensures var built := BuildTwin(x, k, project, nodes, relations, id, now);
      && (built.Some? ==>
            && built.value.Twin? && built.value.id == id && built.value.createdAt == now
            && built.value.source == k.say(CallerMetadata) && Text(x, project) == Some(built.value.project)
            && |built.value.nodes| == |nodes| <= 64 && |built.value.relations| == |relations| <= 128
            && (forall i | 0 <= i < |nodes| :: ParseNode(x, nodes[i]) == Some(built.value.nodes[i]))
            && (forall i | 0 <= i < |relations| :: ParseRelation(x, relations[i]) == Some(built.value.relations[i]))
            && (forall i, j | 0 <= i < j < |nodes| :: built.value.nodes[i].id != built.value.nodes[j].id)
            && (forall r | r in built.value.relations ::
                  && (exists i :: 0 <= i < |nodes| && built.value.nodes[i].id == r.source)
                  && (exists i :: 0 <= i < |nodes| && built.value.nodes[i].id == r.target)))
      && (built == None <==>
            || Text(x, project) == None || |nodes| > 64 || |relations| > 128
            || ParseNodes(x, nodes) == None || ParseRelations(x, relations) == None
            || (var ns, rs := ParseNodes(x, nodes).value, ParseRelations(x, relations).value;
                || (exists i, j :: 0 <= i < j < |ns| && ns[i].id == ns[j].id)
                || (exists r :: r in rs && forall n | n in ns :: n.id != r.source)
                || (exists r :: r in rs && forall n | n in ns :: n.id != r.target)))
  {
  }

  /** A text is taken over stripped, and only if it is safe. */
  lemma TextExactly(x: Screen, raw: Raw)
    ensures Text(x, raw) == if raw != None && x.Safe(raw.value, 512) then Some(Strip(raw.value)) else None
  {
  }

  /** The value that the last item with this key gives it. */
  function LastValue(x: Screen, raw: Pairs, key: string): Option<string> {
    if raw == [] then None
    else if Text(x, raw[|raw| - 1].0) == Some(key) then Text(x, raw[|raw| - 1].1)
    else LastValue(x, raw[..|raw| - 1], key)
  }

  /** A mapping is read item by item; it is refused for one bad text, and later items win. */
  lemma {:induction false} GatheredExactly(x: Screen, raw: Pairs, key: string)
    ensures Gathered(x, raw).Some? <==> forall p | p in raw :: Text(x, p.0).Some? && Text(x, p.1).Some?
    ensures Gathered(x, raw).Some? ==>
      var m := Gathered(x, raw).value;
      LastValue(x, raw, key) == if key in m then Some(m[key]) else None
  {
    if raw != [] {
      GatheredExactly(x, raw[..|raw| - 1], key);
      assert forall p | p in raw :: p in raw[..|raw| - 1] || p == raw[|raw| - 1];
    }
  }

  /** A node is read member by member; its metadata may be missing, and holds at most 16 items. */
  lemma NodeExactly(x: Screen, n: RawNode)
    ensures ParseNode(x, n).Some? <==>
      && Text(x, n.id).Some? && Text(x, n.kind).Some? && Text(x, n.caption).Some?
      && (n.metadata.Some? ==> |n.metadata.value| <= 16 && Gathered(x, n.metadata.value).Some?)
    ensures ParseNode(x, n).Some? ==>
      var v := ParseNode(x, n).value;
      && Text(x, n.id) == Some(v.id) && Text(x, n.kind) == Some(v.kind) && Text(x, n.caption) == Some(v.caption)
      && v.metadata == if n.metadata == None then map[] else Gathered(x, n.metadata.value).value
  {
  }

  lemma RelationExactly(x: Screen, r: RawRelation)
    ensures ParseRelation(x, r).Some? <==>
      Text(x, r.source).Some? && Text(x, r.relation).Some? && Text(x, r.target).Some?
    ensures ParseRelation(x, r).Some? ==>
      var v := ParseRelation(x, r).value;
      Text(x, r.source) == Some(v.source) && Text(x, r.relation) == Some(v.relation)
        && Text(x, r.target) == Some(v.target)
  {
  }

  /** Some event has this label. */
  ghost predicate LabelOfEvent(x: Screen, events: seq<Option<Raw>>, t: string) {
    exists e :: e in events && e.Some? && Text(x, e.value) == Some(t)
  }

  /** What a correlation says: the stripped labels in order and, as matched, exactly those that some event
      has too; its share is theirs among the distinct labels. */
  ghost predicate CorrelationSays(x: Screen, k: Kit, subject: Raw, labels: seq<Raw>, events: seq<Option<Raw>>,
      id: string, now: string, i: Item)
  {
    && i.Correlation? && i.id == id && i.createdAt == now && i.source == k.say(CallerMetadata)
    && Text(x, subject) == Some(i.subject) && |i.current| == |labels| && i.events == |events|
    && (forall n | 0 <= n < |labels| :: Text(x, labels[n]) == Some(i.current[n]))
    && (forall t :: t in i.matched <==> t in i.current && LabelOfEvent(x, events, t))
    && |i.matched| == |ToSet(i.matched)|
    && i.confidence == k.round(
         if ToSet(i.current) == {} then 0.0 else |ToSet(i.matched)| as real / |ToSet(i.current)| as real)
  }

  lemma EventLabelsExactly(x: Screen, events: seq<Option<Raw>>)
    ensures AllTexts(x, EventLabels(events)).Some? <==> forall e | e in events :: e.Some? && Text(x, e.value).Some?
    ensures AllTexts(x, EventLabels(events)).Some? ==>
      forall t :: t in AllTexts(x, EventLabels(events)).value <==> LabelOfEvent(x, events, t)
  {
    var past := EventLabels(events);
    assert forall i | 0 <= i < |events| :: Text(x, past[i]).Some? <==>
      events[i].Some? && Text(x, events[i].value).Some?;
    if AllTexts(x, past).Some? {
      var ts := AllTexts(x, past).value;
      forall t ensures t in ts <==> LabelOfEvent(x, events, t) {
        if t in ts {
          var j :| 0 <= j < |ts| && ts[j] == t;
          assert Text(x, past[j]) == Some(t) && events[j] in events;
        }
        if e :| e in events && e.Some? && Text(x, e.value) == Some(t) {
          var j :| 0 <= j < |events| && events[j] == e;
          assert Text(x, past[j]) == Some(t) && ts[j] == t;
        }
      }
    }
  }

  /** When a correlation is built: every text is safe, and neither list is too long. */
  lemma CorrelationExactly(x: Screen, k: Kit, subject: Raw, labels: seq<Raw>, events: seq<Option<Raw>>, id: string,
      now: string)
    requires Standard(x, k)
    ensures var built := BuildCorrelation(x, k, subject, labels, events, id, now);
      && (built.Some? <==>
            && Text(x, subject).Some? && |labels| <= 32 && |events| <= 256
            && (forall l | l in labels :: Text(x, l).Some?)
            && (forall e | e in events :: e.Some? && Text(x, e.value).Some?))
      && (built.Some? ==> CorrelationSays(x, k, subject, labels, events, id, now, built.value))
  {
    EventLabelsExactly(x, events);
    assert AllTexts(x, labels).Some? <==> forall l | l in labels :: Text(x, l).Some?;
    var built := BuildCorrelation(x, k, subject, labels, events, id, now);
    if built.Some? {
      MatchedExactly(x, k, AllTexts(x, labels).value, AllTexts(x, EventLabels(events)).value);
    }
  }

  lemma MatchedExactly(x: Screen, k: Kit, current: seq<string>, historical: seq<string>)
    requires Standard(x, k)
    ensures var matched := ToSet(current) * ToSet(historical);
      && |k.sort(matched)| == |matched| && ToSet(k.sort(matched)) == matched
      && forall t :: t in k.sort(matched) <==> t in current && t in historical
  {
  }

  /** What a report says about one metric, at the first and the last snapshot. */
  predicate TrendSays(k: Kit, trend: Dict, m: Metric, start: real, end: real) {
    && k.say(NameOf(m)) in trend
    && trend[k.say(NameOf(m))] ==
         k.say(Says(if end - start > 5.0 then RISING else if end - start < -5.0 then FALLING else STABLE))
  }

  /** The five names are different texts, and so are the five findings. */
  ghost predicate NamesDiffer(k: Kit) {
    forall m, n: Metric | m != n :: k.say(NameOf(m)) != k.say(NameOf(n)) && k.say(Review(m)) != k.say(Review(n))
  }

  lemma {:induction false} TrendExactly(k: Kit, first: Metrics, last: Metrics, ms: seq<Metric>, m: Metric)
    requires NamesDiffer(k)
    ensures m in ms ==> TrendSays(k, Trend(k, first, last, ms), m, MetricOf(first, m), MetricOf(last, m))
  {
    if ms != [] {
      TrendExactly(k, first, last, ms[..|ms| - 1], m);
      assert m in ms <==> m in ms[..|ms| - 1] || m == ms[|ms| - 1];
    }
  }

  lemma {:induction false} FindingsExactly(k: Kit, first: Metrics, last: Metrics, ms: seq<Metric>, m: Metric)
    requires NamesDiffer(k)
    ensures k.say(Review(m)) in Findings(k, first, last, ms) <==>
      m in ms && (MetricOf(last, m) >= 90.0
        || (MetricOf(last, m) - MetricOf(first, m) >= 20.0 && MetricOf(last, m) >= 70.0))
  {
    if ms != [] {
      FindingsExactly(k, first, last, ms[..|ms| - 1], m);
      assert m in ms <==> m in ms[..|ms| - 1] || m == ms[|ms| - 1];
    }
  }

  /** What a report says about all five metrics. */
  ghost predicate MetricsSay(k: Kit, trend: Dict, findings: seq<string>, first: Metrics, last: Metrics) {
    forall m: Metric ::
      && TrendSays(k, trend, m, MetricOf(first, m), MetricOf(last, m))
      && (k.say(Review(m)) in findings <==>
            MetricOf(last, m) >= 90.0
            || (MetricOf(last, m) - MetricOf(first, m) >= 20.0 && MetricOf(last, m) >= 70.0))
  }

  lemma MetricsExactly(k: Kit, first: Metrics, last: Metrics, findings: seq<string>)
    requires NamesDiffer(k) && forall t :: t in findings <==> t in Findings(k, first, last, METRICS)
    ensures MetricsSay(k, Trend(k, first, last, METRICS), findings, first, last)
  {
    forall m: Metric ensures m in METRICS {
      AllMetrics(m);
    }
    forall m: Metric
      ensures TrendSays(k, Trend(k, first, last, METRICS), m, MetricOf(first, m), MetricOf(last, m))
      ensures k.say(Review(m)) in findings <==>
        MetricOf(last, m) >= 90.0
        || (MetricOf(last, m) - MetricOf(first, m) >= 20.0 && MetricOf(last, m) >= 70.0)
    {
      TrendExactly(k, first, last, METRICS, m);
      FindingsExactly(k, first, last, METRICS, m);
    }
  }

  /** A report compares the first and the last snapshot, metric by metric: the trend is rising or falling by
      more than five, and a finding is made of a last value of 90 or more, or of 70 or more after a rise of
      20; its confidence grows with the number of snapshots up to 0.95. */
  lemma PredictionExactly(x: Screen, k: Kit, project: Raw, snapshots: seq<Snapshot>, horizon: int, id: string,
      now: string)
    requires Standard(x, k) && NamesDiffer(k)
    ensures var built := BuildPrediction(x, k, project, snapshots, horizon, id, now);
      && (built.Some? <==>
            Text(x, project).Some? && 1 <= horizon <= 168 && 1 <= |snapshots| <= 64 && None !in snapshots)
      && (built.Some? ==> PredictionSays(x, k, project, snapshots, horizon, id, now, built.value))
  {
    var built := BuildPrediction(x, k, project, snapshots, horizon, id, now);
    if built.Some? {
      var first, last := snapshots[0].value, snapshots[|snapshots| - 1].value;
      SortedAgain(x, k, Findings(k, first, last, METRICS));
      MetricsExactly(k, first, last, built.value.findings);
    }
  }

  lemma SortedAgain(x: Screen, k: Kit, s: set<string>)
    requires Standard(x, k)
    ensures forall t :: t in k.sort(s) <==> t in s
  {
  }

  lemma AllMetrics(m: Metric)
    ensures m in METRICS
  {
    assert METRICS[0] == CPU && METRICS[1] == MEMORY && METRICS[2] == DISK && METRICS[3] == LOAD &&
      METRICS[4] == HTTP_ERRORS;
  }

  ghost predicate PredictionSays(x: Screen, k: Kit, project: Raw, snapshots: seq<Snapshot>, horizon: int, id: string,
      now: string, i: Item)
  {
    && i.Prediction? && i.id == id && i.createdAt == now && i.source == k.say(CallerMetadata)
    && Text(x, project) == Some(i.project) && i.horizon == horizon && |snapshots| > 0
    && snapshots[0].Some? && snapshots[|snapshots| - 1].Some?
    && MetricsSay(k, i.trend, i.findings, snapshots[0].value, snapshots[|snapshots| - 1].value)
    && i.confidence == k.round(if |snapshots| < 10 then 0.45 + |snapshots| as real * 0.05 else 0.95)
  }

  /** An autonomy profile is made for a safe project name and a level from 0 to 5. */
  lemma AutonomyExactly(x: Screen, project: Raw, level: int, id: string, now: string)
    ensures BuildAutonomy(x, project, level, id, now) ==
      if Text(x, project).Some? && 0 <= level <= 5 then Some(Autonomy(id, Text(x, project).value, level, now)) else None
  {
  }

  lemma ServerExactly(x: Screen, id: Raw, caption: Raw, environment: Raw, now: string)
    ensures BuildServer(x, id, caption, environment, now) ==
      if Text(x, id).Some? && Text(x, caption).Some? && Text(x, environment).Some?
      then Some(Server(Text(x, id).value, Text(x, caption).value, Text(x, environment).value, now)) else None
  {
  }

  /** A recovery plan takes over its four texts, the backup if one is named, and the user who asks for it. */
  lemma RecoveryExactly(x: Screen, k: Kit, incident: Raw, project: Raw, target: Raw, strategy: Raw, user: string,
      backup: Option<Raw>, id: string, now: string)
    ensures var built := BuildRecovery(x, k, incident, project, target, strategy, user, backup, id, now);
      && (built.Some? <==>
            && Text(x, incident).Some? && Text(x, project).Some? && Text(x, target).Some? && Text(x, strategy).Some?
            && (backup.Some? ==> Text(x, backup.value).Some?))
      && (built.Some? ==>
            var r := built.value;
            && r.Recovery? && r.id == id && Some(r.incident) == Text(x, incident) && Some(r.project) == Text(x, project)
            && Some(r.target) == Text(x, target) && Some(r.strategy) == Text(x, strategy) && r.requestedBy == user
            && r.backupId == (if backup == None then None else Text(x, backup.value))
            && r.reason == k.say(RecoveryReason) && r.createdAt == now)
  {
  }

  // ----- what a record in memory looks like -----

  ghost predicate SettledItem(x: Screen, i: Item) {
    && Settled(x, i.id) && Settled(x, i.createdAt)
    && match i
       case Twin(_, project, nodes, relations, source, _) =>
         && Settled(x, project) && Settled(x, source) && |nodes| <= 64 && |relations| <= 128 && Closed(nodes, relations)
         && (forall n | n in nodes :: SettledNode(x, n)) && (forall r | r in relations :: SettledRelation(x, r))
       case Correlation(_, subject, current, matched, events, confidence, source, _) =>
         && Settled(x, subject) && Settled(x, source) && |current| <= 32 && |matched| <= 32
         && AllSettled(x, current) && AllSettled(x, matched) && 0 <= events <= 256 && 0.0 <= confidence <= 1.0
       case Prediction(_, project, horizon, trend, findings, confidence, source, _) =>
         && Settled(x, project) && Settled(x, source) && 1 <= horizon <= 168 && SettledDict(x, trend)
         && |findings| <= 32 && AllSettled(x, findings) && 0.0 <= confidence <= 1.0
       case Autonomy(_, project, level, _) => Settled(x, project) && 0 <= level <= 5
       case Server(_, caption, environment, _) => Settled(x, caption) && Settled(x, environment)
       case Recovery(_, incident, project, target, strategy, requestedBy, backupId, reason, _) =>
         && Settled(x, incident) && Settled(x, project) && Settled(x, target) && Settled(x, strategy)
         && Settled(x, requestedBy) && Settled(x, reason) && (backupId.Some? ==> Settled(x, backupId.value))
  }

  lemma TwinSettles(x: Screen, k: Kit, project: Raw, nodes: seq<RawNode>, relations: seq<RawRelation>, id: string,
      now: string)
    requires Standard(x, k) && Settled(x, id) && Settled(x, now)
    requires BuildTwin(x, k, project, nodes, relations, id, now).Some?
    ensures SettledItem(x, BuildTwin(x, k, project, nodes, relations, id, now).value)
  {
    TextSettles(x, project);
    NodesSettle(x, nodes);
    RelationsSettle(x, relations);
  }

  lemma {:induction false} SetIsSmall(ts: seq<string>)
    ensures |ToSet(ts)| <= |ts|
  {
    if ts != [] {
      SetIsSmall(ts[..|ts| - 1]);
      assert ToSet(ts) == ToSet(ts[..|ts| - 1]) + {ts[|ts| - 1]};
    }
  }

  lemma Ratio(m: nat, n: nat)
    requires m <= n && 0 < n
    ensures 0.0 <= m as real / n as real <= 1.0
  {
  }

  lemma CorrelationSettles(x: Screen, k: Kit, subject: Raw, labels: seq<Raw>, events: seq<Option<Raw>>, id: string,
      now: string)
    requires Standard(x, k) && Settled(x, id) && Settled(x, now)
    requires BuildCorrelation(x, k, subject, labels, events, id, now).Some?
    ensures SettledItem(x, BuildCorrelation(x, k, subject, labels, events, id, now).value)
  {
    var i := BuildCorrelation(x, k, subject, labels, events, id, now).value;
    TextSettles(x, subject);
    TextsSettle(x, labels);
    var distinct := ToSet(i.current);
    var past := seq(|events|, j requires 0 <= j < |events| => if events[j].Some? then events[j].value else None);
    var matched := distinct * ToSet(AllTexts(x, past).value);
    SetIsSmall(i.current);
    SubsetIsSmaller(matched, distinct);
    if distinct == {} {
      Ratio(0, 1);
    } else {
      Ratio(|matched|, |distinct|);
    }
    assert i.matched == k.sort(matched);
    forall t | t in i.matched ensures Settled(x, t) {
      assert t in matched;
    }
  }

  lemma {:induction false} TrendSettles(x: Screen, k: Kit, first: Metrics, last: Metrics, ms: seq<Metric>)
    requires Standard(x, k)
    ensures var d := Trend(k, first, last, ms); forall t | t in d :: Settled(x, t) && Settled(x, d[t])
  {
    if ms != [] {
      TrendSettles(x, k, first, last, ms[..|ms| - 1]);
    }
  }

  lemma {:induction false} FindingsSettle(x: Screen, k: Kit, first: Metrics, last: Metrics, ms: seq<Metric>)
    requires Standard(x, k)
    ensures forall t | t in Findings(k, first, last, ms) :: Settled(x, t)
  {
    if ms != [] {
      FindingsSettle(x, k, first, last, ms[..|ms| - 1]);
    }
  }

  lemma PredictionSettles(x: Screen, k: Kit, project: Raw, snapshots: seq<Snapshot>, horizon: int, id: string,
      now: string)
    requires Standard(x, k) && Settled(x, id) && Settled(x, now)
    requires BuildPrediction(x, k, project, snapshots, horizon, id, now).Some?
    ensures SettledItem(x, BuildPrediction(x, k, project, snapshots, horizon, id, now).value)
  {
    var i := BuildPrediction(x, k, project, snapshots, horizon, id, now).value;
    var first, last := snapshots[0].value, snapshots[|snapshots| - 1].value;
    TextSettles(x, project);
    TrendSettles(x, k, first, last, METRICS);
    FindingsSettle(x, k, first, last, METRICS);
    forall t | t in i.findings ensures Settled(x, t) {
      assert t in Findings(k, first, last, METRICS);
    }
  }

  // ----- documents -----

  datatype State = RECORDED | BLOCKED_BY_DEFAULT

  /** The data of a document: the shape fixes its fields, and each field that fails its type check is
      None.  `mode` is the level whose mode text is written, and a flag tells whether a fixed text or
      value stands where it must. */
  datatype Data =
    | TwinData(id: Raw, project: Raw, nodes: Option<seq<RawNode>>, relations: Option<seq<RawRelation>>,
        state: Option<State>, source: Raw, createdAt: Raw)
    | CorrelationData(id: Raw, subject: Raw, current: Option<seq<Raw>>, matched: Option<seq<Raw>>, events: Option<int>,
        confidence: Option<real>,
        state: Option<State>, source: Raw, createdAt: Raw)
    | PredictionData(id: Raw, project: Raw, horizon: Option<int>, trend: Option<Option<Pairs>>,
        findings: Option<seq<Raw>>, confidence: Option<real>,
        state: Option<State>, source: Raw, createdAt: Raw)
    | AutonomyData(id: Raw, project: Raw, level: Option<int>, mode: Option<int>, requiresApproval: Option<bool>,
        blocked: bool, state: Option<State>, createdAt: Raw)
    | ServerData(id: Raw, caption: Raw, environment: Raw, notConnected: bool, notLive: bool, state: Option<State>,
        createdAt: Raw)
    | RecoveryData(id: Raw, incident: Raw, project: Raw, target: Raw, strategy: Raw, requestedBy: Raw,
        backupId: Option<Raw>, approval: bool, blocked: bool,
        state: Option<State>, reason: Raw, createdAt: Raw)
    | OtherData

  /** None for a kind that is no known text. */
  datatype Document = Document(kind: Option<Kind>, data: Data) | OtherDocument

  /** `_encode_record` */
  function Encode(k: Kit, i: Item): Document {
    Document(Some(KindOf(i)),
      match i
      case Twin(id, project, nodes, relations, source, at) =>
        TwinData(Some(id), Some(project), Some(WriteNodes(k, nodes)), Some(WriteRelations(relations)), Some(RECORDED),
          Some(source), Some(at))
      case Correlation(id, subject, current, matched, events, confidence, source, at) =>
        CorrelationData(Some(id), Some(subject), Some(Raws(current)), Some(Raws(matched)), Some(events),
          Some(confidence),
          Some(RECORDED), Some(source), Some(at))
      case Prediction(id, project, horizon, trend, findings, confidence, source, at) =>
        PredictionData(Some(id), Some(project), Some(horizon), Some(Some(RawPairs(k.items(trend)))),
          Some(Raws(findings)), Some(confidence),
          Some(RECORDED), Some(source), Some(at))
      case Autonomy(id, project, level, at) =>
        AutonomyData(Some(id), Some(project), Some(level), Some(level), Some(level >= 2), true, Some(RECORDED),
          Some(at))
      case Server(id, caption, environment, at) =>
        ServerData(Some(id), Some(caption), Some(environment), true, true, Some(RECORDED), Some(at))
      case Recovery(id, incident, project, target, strategy, requestedBy, backupId, reason, at) =>
        RecoveryData(Some(id), Some(incident), Some(project), Some(target), Some(strategy), Some(requestedBy),
          if backupId.Some? then Some(backupId)
            else None, true, true, Some(BLOCKED_BY_DEFAULT), Some(reason), Some(at)))
  }

  /** The bounded list of texts of a document. */
  function TextList(x: Screen, raw: Option<seq<Raw>>, limit: nat): Option<seq<string>> {
    if raw == None || |raw.value| > limit then None else AllTexts(x, raw.value)
  }

  predicate Between(n: Option<int>, low: int, high: int) {
    n.Some? && low <= n.value <= high
  }

  predicate Share(r: Option<real>) {
    r.Some? && 0.0 <= r.value <= 1.0
  }

  function DecodeTwin(x: Screen, d: Data): (r: Option<Item>)
    requires d.TwinData?
    ensures r.Some? ==> r.value.Twin?
  {
    var id, project, source, at := Text(x, d.id), Text(x, d.project), Text(x, d.source), Text(x, d.createdAt);
    if d.nodes == None || d.relations == None then None
    else
      var ns, rs := ParseNodes(x, d.nodes.value), ParseRelations(x, d.relations.value);
      if ns == None || rs == None || |ns.value| > 64 || |rs.value| > 128 || !Closed(ns.value, rs.value) then None
      else if id == None || project == None || source == None || at == None || d.state != Some(RECORDED) then None
      else Some(Twin(id.value, project.value, ns.value, rs.value, source.value, at.value))
  }

  function DecodeCorrelation(x: Screen, d: Data): (r: Option<Item>)
    requires d.CorrelationData?
    ensures r.Some? ==> r.value.Correlation?
  {
    var id, subject, source, at := Text(x, d.id), Text(x, d.subject), Text(x, d.source), Text(x, d.createdAt);
    var current, matched := TextList(x, d.current, 32), TextList(x, d.matched, 32);
    if id == None || subject == None || source == None || at == None || current == None || matched == None
       || !Between(d.events, 0, 256) || !Share(d.confidence) || d.state != Some(RECORDED) then None
    else Some(Correlation(id.value, subject.value, current.value, matched.value, d.events.value, d.confidence.value,
      source.value, at.value))
  }

  function DecodePrediction(x: Screen, d: Data): (r: Option<Item>)
    requires d.PredictionData?
    ensures r.Some? ==> r.value.Prediction?
  {
    var id, project, source, at := Text(x, d.id), Text(x, d.project), Text(x, d.source), Text(x, d.createdAt);
    var findings := TextList(x, d.findings, 32);
    if d.trend == None then None
    else
      var trend := Metadata(x, d.trend.value);
      if id == None || project == None || source == None || at == None || findings == None || trend == None
         || !Between(d.horizon, 1, 168) || !Share(d.confidence) || d.state != Some(RECORDED) then None
      else Some(Prediction(id.value, project.value, d.horizon.value, trend.value, findings.value, d.confidence.value,
        source.value, at.value))
  }

  function DecodeAutonomy(x: Screen, d: Data): (r: Option<Item>)
    requires d.AutonomyData?
    ensures r.Some? ==> r.value.Autonomy?
  {
    var id, project, at := Text(x, d.id), Text(x, d.project), Text(x, d.createdAt);
    if id == None || project == None || at == None || !Between(d.level, 0, 5) || d.mode != d.level
       || d.requiresApproval != Some(d.level.value >= 2) || !d.blocked || d.state != Some(RECORDED) then None
    else Some(Autonomy(id.value, project.value, d.level.value, at.value))
  }

  function DecodeServer(x: Screen, d: Data): (r: Option<Item>)
    requires d.ServerData?
    ensures r.Some? ==> r.value.Server?
  {
    var id, caption, environment, at := Text(x, d.id), Text(x, d.caption), Text(x, d.environment), Text(x, d.createdAt);
    if id == None || caption == None || environment == None || at == None then None
    else if !d.notConnected || !d.notLive || d.state != Some(RECORDED) then None
    else Some(Server(id.value, caption.value, environment.value, at.value))
  }

  function DecodeRecovery(x: Screen, d: Data): (r: Option<Item>)
    requires d.RecoveryData?
    ensures r.Some? ==> r.value.Recovery?
  {
    var id, incident, project, target := Text(x, d.id), Text(x, d.incident), Text(x, d.project), Text(x, d.target);
    var strategy, user, reason, at :=
      Text(x, d.strategy), Text(x, d.requestedBy), Text(x, d.reason), Text(x, d.createdAt);
    var backup := if d.backupId.Some? then Text(x, d.backupId.value) else None;
    if id == None || incident == None || project == None || target == None then None
    else if strategy == None || user == None || reason == None || at == None then None
    else if (d.backupId.Some? && backup == None) || !d.approval || !d.blocked then None
    else if d.state != Some(BLOCKED_BY_DEFAULT) then None
    else Some(Recovery(id.value, incident.value, project.value, target.value, strategy.value, user.value, backup,
      reason.value, at.value))
  }

  /** The dispatch of the loader: the kind says which shape the data must have. */
  function Decode(x: Screen, d: Document): (r: Option<Item>)
    ensures r.Some? ==> d.Document? && d.kind == Some(KindOf(r.value))
  {
    if d.OtherDocument? || d.kind == None then None
    else match d.kind.value
      case TWIN => if d.data.TwinData? then DecodeTwin(x, d.data) else None
      case CORRELATION => if d.data.CorrelationData? then DecodeCorrelation(x, d.data) else None
      case PREDICTION => if d.data.PredictionData? then DecodePrediction(x, d.data) else None
      case AUTONOMY => if d.data.AutonomyData? then DecodeAutonomy(x, d.data) else None
      case SERVER => if d.data.ServerData? then DecodeServer(x, d.data) else None
      case RECOVERY => if d.data.RecoveryData? then DecodeRecovery(x, d.data) else None
  }

  lemma TwinReread(x: Screen, k: Kit, i: Item)
    requires Standard(x, k) && i.Twin? && SettledItem(x, i)
    ensures Decode(x, Encode(k, i)) == Some(i)
  {
    NodesReread(x, k, i.nodes);
    RelationsReread(x, i.relations);
  }

  lemma CorrelationReread(x: Screen, k: Kit, i: Item)
    requires Standard(x, k) && i.Correlation? && SettledItem(x, i)
    ensures Decode(x, Encode(k, i)) == Some(i)
  {
    TextsReread(x, i.current);
    TextsReread(x, i.matched);
  }

  lemma PredictionReread(x: Screen, k: Kit, i: Item)
    requires Standard(x, k) && i.Prediction? && SettledItem(x, i)
    ensures Decode(x, Encode(k, i)) == Some(i)
  {
    TextsReread(x, i.findings);
    DictReread(x, k, i.trend);
  }

  lemma AutonomyReread(x: Screen, k: Kit, i: Item)
    requires i.Autonomy? && SettledItem(x, i)
    ensures Decode(x, Encode(k, i)) == Some(i)
  {
    TextReread(x, i.project);
  }

  lemma ServerReread(x: Screen, k: Kit, i: Item)
    requires i.Server? && SettledItem(x, i)
    ensures Decode(x, Encode(k, i)) == Some(i)
  {
    TextReread(x, i.caption);
  }

  /** Settled text is read back as it is. */
  lemma TextReread(x: Screen, t: string)
    requires Settled(x, t)
    ensures Text(x, Some(t)) == Some(t)
  {
  }

  lemma RecoveryDataReread(x: Screen, k: Kit, i: Item)
    requires i.Recovery? && SettledItem(x, i)
    ensures DecodeRecovery(x, Encode(k, i).data) == Some(i)
  {
    TextReread(x, i.id);
    TextReread(x, i.incident);
    TextReread(x, i.project);
    TextReread(x, i.target);
    TextReread(x, i.strategy);
    TextReread(x, i.requestedBy);
    TextReread(x, i.reason);
    TextReread(x, i.createdAt);
  }

  lemma RecoveryReread(x: Screen, k: Kit, i: Item)
    requires i.Recovery? && SettledItem(x, i)
    ensures Decode(x, Encode(k, i)) == Some(i)
  {
    RecoveryDataReread(x, k, i);
    RecoveryDispatch(x, Encode(k, i));
  }

  lemma RecoveryDispatch(x: Screen, d: Document)
    requires d.Document? && d.kind == Some(RECOVERY) && d.data.RecoveryData?
    ensures Decode(x, d) == DecodeRecovery(x, d.data)
  {
  }

  /** Reading inverts writing for every record that the service holds. */
  lemma DecodeInvertsEncode(x: Screen, k: Kit, i: Item)
    requires Standard(x, k) && SettledItem(x, i)
    ensures Decode(x, Encode(k, i)) == Some(i)
  {
    match i {
      case Twin(_, _, _, _, _, _) => TwinReread(x, k, i);
      case Correlation(_, _, _, _, _, _, _, _) => CorrelationReread(x, k, i);
      case Prediction(_, _, _, _, _, _, _, _) => PredictionReread(x, k, i);
      case Autonomy(_, _, _, _) => AutonomyReread(x, k, i);
      case Server(_, _, _, _) => ServerReread(x, k, i);
      case Recovery(_, _, _, _, _, _, _, _, _) => RecoveryReread(x, k, i);
    }
  }

  // ----- whatever is read is settled -----

  lemma ReadTwinSettles(x: Screen, d: Data)
    requires d.TwinData? && DecodeTwin(x, d).Some?
    ensures SettledItem(x, DecodeTwin(x, d).value)
  {
    TextSettles(x, d.id);
    TextSettles(x, d.project);
    TextSettles(x, d.source);
    TextSettles(x, d.createdAt);
    NodesSettle(x, d.nodes.value);
    RelationsSettle(x, d.relations.value);
  }

  lemma ReadCorrelationSettles(x: Screen, d: Data)
    requires d.CorrelationData? && DecodeCorrelation(x, d).Some?
    ensures SettledItem(x, DecodeCorrelation(x, d).value)
  {
    TextSettles(x, d.id);
    TextSettles(x, d.subject);
    TextSettles(x, d.source);
    TextSettles(x, d.createdAt);
    TextsSettle(x, d.current.value);
    TextsSettle(x, d.matched.value);
  }

  lemma ReadPredictionSettles(x: Screen, d: Data)
    requires d.PredictionData? && DecodePrediction(x, d).Some?
    ensures SettledItem(x, DecodePrediction(x, d).value)
  {
    TextSettles(x, d.id);
    TextSettles(x, d.project);
    TextSettles(x, d.source);
    TextSettles(x, d.createdAt);
    TextsSettle(x, d.findings.value);
    if d.trend.value.Some? {
      GatheredSettles(x, d.trend.value.value);
    }
  }

  lemma ReadPlainSettles(x: Screen, d: Data)
    requires (d.AutonomyData? && DecodeAutonomy(x, d).Some?) || (d.ServerData? && DecodeServer(x, d).Some?)
    ensures d.AutonomyData? ==> SettledItem(x, DecodeAutonomy(x, d).value)
    ensures d.ServerData? ==> SettledItem(x, DecodeServer(x, d).value)
  {
    TextSettles(x, d.id);
    TextSettles(x, d.createdAt);
    if d.AutonomyData? {
      TextSettles(x, d.project);
    } else {
      TextSettles(x, d.caption);
      TextSettles(x, d.environment);
    }
  }

  lemma ReadRecoverySettles(x: Screen, d: Data)
    requires d.RecoveryData? && DecodeRecovery(x, d).Some?
    ensures SettledItem(x, DecodeRecovery(x, d).value)
  {
    TextSettles(x, d.id);
    TextSettles(x, d.incident);
    TextSettles(x, d.project);
    TextSettles(x, d.target);
    TextSettles(x, d.strategy);
    TextSettles(x, d.requestedBy);
    TextSettles(x, d.reason);
    TextSettles(x, d.createdAt);
    if d.backupId.Some? {
      TextSettles(x, d.backupId.value);
    }
  }

  lemma DecodeSettles(x: Screen, d: Document)
    requires Decode(x, d).Some?
    ensures SettledItem(x, Decode(x, d).value)
  {
    match d.kind.value {
      case TWIN => ReadTwinSettles(x, d.data);
      case CORRELATION => ReadCorrelationSettles(x, d.data);
      case PREDICTION => ReadPredictionSettles(x, d.data);
      case AUTONOMY => ReadPlainSettles(x, d.data);
      case SERVER => ReadPlainSettles(x, d.data);
      case RECOVERY => ReadRecoverySettles(x, d.data);
    }
  }

  /** A record survives writing and reading exactly when it is settled. */
  lemma ReadableExactly(x: Screen, k: Kit, i: Item)
    requires Standard(x, k)
    ensures Decode(x, Encode(k, i)) == Some(i) <==> SettledItem(x, i)
  {
    if SettledItem(x, i) {
      DecodeInvertsEncode(x, k, i);
    }
    if Decode(x, Encode(k, i)) == Some(i) {
      DecodeSettles(x, Encode(k, i));
    }
  }
}
