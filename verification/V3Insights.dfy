/** The V3 service: six collections in memory, one list of documents on disk. */
module V3Insights {
  import opened Texts
  import opened V3Records

  /** Records in insertion order, as a dictionary keeps them. */
  type Shelf = seq<Item>

  datatype Books = Books(twins: Shelf, correlations: Shelf, predictions: Shelf, autonomy: Shelf, servers: Shelf,
      recovery: Shelf)

  const EMPTY := Books([], [], [], [], [], [])
  const MAX_RECORDS := 1024

  function Of(b: Books, k: Kind): Shelf {
    match k
    case TWIN => b.twins
    case CORRELATION => b.correlations
    case PREDICTION => b.predictions
    case AUTONOMY => b.autonomy
    case SERVER => b.servers
    case RECOVERY => b.recovery
  }

  function With(b: Books, k: Kind, s: Shelf): (c: Books)
    ensures Of(c, k) == s && forall j | j != k :: Of(c, j) == Of(b, j)
  {
    match k
    case TWIN => b.(twins := s)
    case CORRELATION => b.(correlations := s)
    case PREDICTION => b.(predictions := s)
    case AUTONOMY => b.(autonomy := s)
    case SERVER => b.(servers := s)
    case RECOVERY => b.(recovery := s)
  }

  /** Position of a key, or the length when it is missing. */
  function Find(s: Shelf, key: string): (i: nat)
    ensures i <= |s| && (i < |s| ==> Key(s[i]) == key)
    ensures forall j | 0 <= j < i :: Key(s[j]) != key
  {
    if s == [] || Key(s[0]) == key then 0 else 1 + Find(s[1..], key)
  }

  /** An assignment to a dictionary: in place for a known key, at the end for a new one. */
  function Put(s: Shelf, i: Item): Shelf {
    var at := Find(s, Key(i));
    if at < |s| then s[at := i] else s + [i]
  }

  function All(b: Books): Shelf {
    b.twins + b.correlations + b.predictions + b.autonomy + b.servers + b.recovery
  }

  function Written(k: Kit, s: Shelf): seq<Document> {
    seq(|s|, i requires 0 <= i < |s| => Encode(k, s[i]))
  }

  // ----- the loader -----

  /** `_load_state`: every document decodes and no key repeats in its collection. */
  function Loaded(x: Screen, b: Books, docs: seq<Document>): Result<Books>
    decreases |docs|
  {
    if docs == [] then Ok(b)
    else
      var item := Decode(x, docs[0]);
      if item == None then Refused
      else
        var k := KindOf(item.value);
        if Find(Of(b, k), Key(item.value)) < |Of(b, k)| then Refused
        else Loaded(x, With(b, k, Of(b, k) + [item.value]), docs[1..])
  }

  // ----- what every run keeps -----

  ghost predicate DistinctKeys(s: Shelf) {
    forall i, j | 0 <= i < j < |s| :: Key(s[i]) != Key(s[j])
  }

  ghost predicate SoundShelf(x: Screen, k: Kind, s: Shelf) {
    DistinctKeys(s) && forall i | 0 <= i < |s| :: KindOf(s[i]) == k && SettledItem(x, s[i])
  }

  ghost predicate Sound(x: Screen, b: Books) {
    forall k: Kind :: SoundShelf(x, k, Of(b, k))
  }

  lemma PutKeepsKeys(s: Shelf, i: Item)
    requires DistinctKeys(s)
    ensures DistinctKeys(Put(s, i))
  {
  }

  lemma PutKeeps(x: Screen, k: Kind, s: Shelf, i: Item)
    requires SoundShelf(x, k, s) && KindOf(i) == k && SettledItem(x, i)
    ensures SoundShelf(x, k, Put(s, i))
  {
    PutKeepsKeys(s, i);
    forall j | 0 <= j < |Put(s, i)| ensures KindOf(Put(s, i)[j]) == k && SettledItem(x, Put(s, i)[j]) {
      assert Put(s, i)[j] == i || (j < |s| && Put(s, i)[j] == s[j]);
    }
  }

  lemma WithKeeps(x: Screen, b: Books, i: Item)
    requires Sound(x, b) && SettledItem(x, i)
    ensures Sound(x, With(b, KindOf(i), Put(Of(b, KindOf(i)), i)))
  {
    var k := KindOf(i);
    assert SoundShelf(x, k, Of(b, k));
    PutKeeps(x, k, Of(b, k), i);
    forall j ensures SoundShelf(x, j, Of(With(b, k, Put(Of(b, k), i)), j)) {
      assert SoundShelf(x, j, Of(b, j));
    }
  }

  /** Reading back one collection in front of the rest. */
  lemma {:induction false} LoadShelf(x: Screen, kit: Kit, b: Books, k: Kind, s: Shelf, rest: seq<Document>)
    requires Standard(x, kit) && SoundShelf(x, k, Of(b, k) + s)
    ensures Loaded(x, b, Written(kit, s) + rest) == Loaded(x, With(b, k, Of(b, k) + s), rest)
    decreases |s|
  {
    if s == [] {
      assert Written(kit, s) + rest == rest && Of(b, k) + s == Of(b, k);
      SameShelf(b, k);
    } else {
      NewKey(x, k, Of(b, k), s);
      LoadOne(x, kit, b, s[0], Written(kit, s[1..]) + rest);
      WrittenHead(kit, s, rest);
      ShelfMoves(b, k, s);
      LoadShelf(x, kit, With(b, k, Of(b, k) + [s[0]]), k, s[1..], rest);
    }
  }

  /** Moving the first record over changes neither what the shelf will hold nor the books with it. */
  lemma ShelfMoves(b: Books, k: Kind, s: Shelf)
    requires s != []
    ensures var c := With(b, k, Of(b, k) + [s[0]]);
      Of(c, k) + s[1..] == Of(b, k) + s && With(c, k, Of(c, k) + s[1..]) == With(b, k, Of(b, k) + s)
  {
    assert Of(b, k) + [s[0]] + s[1..] == Of(b, k) + s;
    WithTwice(b, k, Of(b, k) + [s[0]], Of(b, k) + s);
  }

  lemma WrittenHead(kit: Kit, s: Shelf, rest: seq<Document>)
    requires s != []
    ensures Written(kit, s) + rest == [Encode(kit, s[0])] + (Written(kit, s[1..]) + rest)
  {
  }

  /** One more document of a new key. */
  lemma LoadOne(x: Screen, kit: Kit, b: Books, i: Item, rest: seq<Document>)
    requires Standard(x, kit) && SettledItem(x, i) && Find(Of(b, KindOf(i)), Key(i)) == |Of(b, KindOf(i))|
    ensures Loaded(x, b, [Encode(kit, i)] + rest) == Loaded(x, With(b, KindOf(i), Of(b, KindOf(i)) + [i]), rest)
  {
    DecodeInvertsEncode(x, kit, i);
    assert ([Encode(kit, i)] + rest)[1..] == rest;
  }

  lemma SameShelf(b: Books, k: Kind)
    ensures With(b, k, Of(b, k)) == b
  {
  }

  lemma WithTwice(b: Books, k: Kind, s: Shelf, t: Shelf)
    ensures With(With(b, k, s), k, t) == With(b, k, t)
  {
  }

  lemma NewKey(x: Screen, k: Kind, s: Shelf, t: Shelf)
    requires SoundShelf(x, k, s + t) && t != []
    ensures Find(s, Key(t[0])) == |s| && KindOf(t[0]) == k && SettledItem(x, t[0])
  {
    assert (s + t)[|s|] == t[0];
    forall j | 0 <= j < |s| ensures Key(s[j]) != Key(t[0]) {
      assert (s + t)[j] == s[j] && (s + t)[|s|] == t[0];
    }
  }

  /** The order of the collections in the file. */
  function Nth(i: nat): Kind {
    if i == 0 then TWIN else if i == 1 then CORRELATION else if i == 2 then PREDICTION
    else if i == 3 then AUTONOMY else if i == 4 then SERVER else RECOVERY
  }

  /** The documents of the collections from the i-th on. */
  function Remaining(kit: Kit, b: Books, i: nat): seq<Document>
    decreases 6 - i
  {
    if i >= 6 then [] else Written(kit, Of(b, Nth(i))) + Remaining(kit, b, i + 1)
  }

  /** The collections before the i-th. */
  function Filled(b: Books, i: nat): Books {
    if i == 0 then EMPTY else With(Filled(b, i - 1), Nth(i - 1), Of(b, Nth(i - 1)))
  }

  lemma FilledUpTo(b: Books, i: nat)
    requires i < 6
    ensures Of(Filled(b, i), Nth(i)) == []
  {
    assert Filled(b, 0) == EMPTY;
    assert i >= 1 ==> Filled(b, 1) == EMPTY.(twins := b.twins);
    assert i >= 2 ==> Filled(b, 2) == Filled(b, 1).(correlations := b.correlations);
    assert i >= 3 ==> Filled(b, 3) == Filled(b, 2).(predictions := b.predictions);
    assert i >= 4 ==> Filled(b, 4) == Filled(b, 3).(autonomy := b.autonomy);
    assert i >= 5 ==> Filled(b, 5) == Filled(b, 4).(servers := b.servers);
  }

  lemma FilledCompletely(b: Books)
    ensures Filled(b, 6) == b
  {
    assert Filled(b, 1) == EMPTY.(twins := b.twins);
    assert Filled(b, 2) == Filled(b, 1).(correlations := b.correlations);
    assert Filled(b, 3) == Filled(b, 2).(predictions := b.predictions);
    assert Filled(b, 4) == Filled(b, 3).(autonomy := b.autonomy);
    assert Filled(b, 5) == Filled(b, 4).(servers := b.servers);
  }

  lemma {:induction false} LoadFrom(x: Screen, kit: Kit, b: Books, i: nat)
    requires Standard(x, kit) && Sound(x, b) && i <= 6
    ensures Loaded(x, Filled(b, i), Remaining(kit, b, i)) == Ok(b)
    decreases 6 - i
  {
    if i == 6 {
      FilledCompletely(b);
    } else {
      FilledUpTo(b, i);
      LoadNext(x, kit, b, Filled(b, i), Nth(i), Remaining(kit, b, i + 1));
      LoadFrom(x, kit, b, i + 1);
    }
  }

  /** The records of the collections from the i-th on. */
  function Later(b: Books, i: nat): Shelf
    decreases 6 - i
  {
    if i >= 6 then [] else Of(b, Nth(i)) + Later(b, i + 1)
  }

  lemma {:induction false} RemainingIsLater(kit: Kit, b: Books, i: nat)
    ensures Remaining(kit, b, i) == Written(kit, Later(b, i))
    decreases 6 - i
  {
    if i < 6 {
      RemainingIsLater(kit, b, i + 1);
    }
  }

  lemma AllIsLater(b: Books)
    ensures All(b) == Later(b, 0)
  {
    assert Later(b, 5) == b.recovery;
    assert Later(b, 4) == b.servers + b.recovery;
    assert Later(b, 3) == b.autonomy + b.servers + b.recovery;
    assert Later(b, 2) == b.predictions + b.autonomy + b.servers + b.recovery;
    assert Later(b, 1) == b.correlations + b.predictions + b.autonomy + b.servers + b.recovery;
  }

  /** The saved list rebuilds all six collections, with the same records in the same order. */
  lemma SavedBooksReload(x: Screen, kit: Kit, b: Books)
    requires Standard(x, kit) && Sound(x, b)
    ensures Loaded(x, EMPTY, Written(kit, All(b))) == Ok(b)
  {
    AllIsLater(b);
    RemainingIsLater(kit, b, 0);
    LoadFrom(x, kit, b, 0);
  }

  lemma LoadNext(x: Screen, kit: Kit, b: Books, done: Books, k: Kind, rest: seq<Document>)
    requires Standard(x, kit) && Sound(x, b) && Of(done, k) == []
    ensures Loaded(x, done, Written(kit, Of(b, k)) + rest) == Loaded(x, With(done, k, Of(b, k)), rest)
  {
    assert SoundShelf(x, k, Of(b, k));
    assert Of(done, k) + Of(b, k) == Of(b, k);
    LoadShelf(x, kit, done, k, Of(b, k), rest);
  }

  /** Whatever the loader accepts is sound again. */
  lemma {:induction false} LoadedIsSound(x: Screen, b: Books, docs: seq<Document>)
    requires Sound(x, b) && Loaded(x, b, docs).Ok?
    ensures Sound(x, Loaded(x, b, docs).value)
    decreases |docs|
  {
    if docs != [] {
      var i := Decode(x, docs[0]).value;
      DecodeSettles(x, docs[0]);
      WithKeeps(x, b, i);
      LoadedIsSound(x, With(b, KindOf(i), Of(b, KindOf(i)) + [i]), docs[1..]);
    }
  }

  // ----- the service -----

  /** A request to the service; ids, time and user are given by their generators and the session. */
  datatype Request =
    | RegisterTwin(project: Raw, nodes: seq<RawNode>, relations: seq<RawRelation>)
    | CorrelateHistory(subject: Raw, labels: seq<Raw>, events: seq<Option<Raw>>)
    | AnalyzePredictive(about: Raw, snapshots: seq<Snapshot>, horizon: int)
    | SetAutonomy(scope: Raw, level: int)
    | RegisterServer(server: Raw, caption: Raw, environment: Raw)
    | PlanRecovery(incident: Raw, application: Raw, target: Raw, strategy: Raw, backup: Option<Raw>)

  datatype Context = Context(id: string, now: string, user: string)

  /** Generated ids, ISO timestamps and registered user names are settled texts. */
  predicate Usual(x: Screen, c: Context) {
    Settled(x, c.id) && Settled(x, c.now) && Settled(x, c.user)
  }

  function Built(x: Screen, k: Kit, r: Request, c: Context): Option<Item> {
    match r
    case RegisterTwin(project, nodes, relations) => BuildTwin(x, k, project, nodes, relations, c.id, c.now)
    case CorrelateHistory(subject, labels, events) => BuildCorrelation(x, k, subject, labels, events, c.id, c.now)
    case AnalyzePredictive(project, snapshots, horizon) =>
      BuildPrediction(x, k, project, snapshots, horizon, c.id, c.now)
    case SetAutonomy(project, level) => BuildAutonomy(x, project, level, c.id, c.now)
    case RegisterServer(id, caption, environment) => BuildServer(x, id, caption, environment, c.now)
    case PlanRecovery(incident, project, target, strategy, backup) =>
      BuildRecovery(x, k, incident, project, target, strategy, c.user, backup, c.id, c.now)
  }

  lemma ServerSettles(x: Screen, id: Raw, caption: Raw, environment: Raw, now: string)
    requires Settled(x, now) && BuildServer(x, id, caption, environment, now).Some?
    ensures SettledItem(x, BuildServer(x, id, caption, environment, now).value)
  {
    TextSettles(x, id);
    TextSettles(x, caption);
    TextSettles(x, environment);
  }

  lemma RecoverySettles(x: Screen, k: Kit, incident: Raw, project: Raw, target: Raw, strategy: Raw, user: string,
                                           backup: Option<Raw>, id: string, now: string)
    requires Standard(x, k) && Settled(x, id) && Settled(x, now) && Settled(x, user)
    requires BuildRecovery(x, k, incident, project, target, strategy, user, backup, id, now).Some?
    ensures SettledItem(x, BuildRecovery(x, k, incident, project, target, strategy, user, backup, id, now).value)
  {
    TextSettles(x, incident);
    TextSettles(x, project);
    TextSettles(x, target);
    TextSettles(x, strategy);
    if backup.Some? {
      TextSettles(x, backup.value);
    }
  }

  lemma BuiltSettles(x: Screen, k: Kit, r: Request, c: Context)
    requires Standard(x, k) && Usual(x, c) && Built(x, k, r, c).Some?
    ensures SettledItem(x, Built(x, k, r, c).value)
  {
    match r {
      case RegisterTwin(project, nodes, relations) => TwinSettles(x, k, project, nodes, relations, c.id, c.now);
      case CorrelateHistory(subject, labels, events) => CorrelationSettles(x, k, subject, labels, events, c.id, c.now);
      case AnalyzePredictive(project, snapshots, horizon) =>
        PredictionSettles(x, k, project, snapshots, horizon, c.id, c.now);
      case SetAutonomy(project, level) => TextSettles(x, project);
      case RegisterServer(id, caption, environment) => ServerSettles(x, id, caption, environment, c.now);
      case PlanRecovery(incident, project, target, strategy, backup) =>
        RecoverySettles(x, k, incident, project, target, strategy, c.user, backup, c.id, c.now);
    }
  }

  /** One call: the record joins its collection, unless it is refused, cannot be saved or is one too many. */
  function Next(durable: bool, b: Books, item: Option<Item>, saves: bool): (Books, bool) {
    if item == None then (b, false)
    else
      var after := With(b, KindOf(item.value), Put(Of(b, KindOf(item.value)), item.value));
      if durable && (|All(after)| > MAX_RECORDS || !saves) then (b, false) else (after, true)
  }

  /** A new autonomy profile renews the one of its project, every other record the one with its id. */
  predicate Renews(item: Item, before: Item) {
    if item.Autonomy? then before.Autonomy? && before.project == item.project
    else !before.Autonomy? && before.id == item.id
  }

  /** When a record is stored and where: it replaces the record that it renews in place, or joins the end of
      its collection; with a state store there must be at most 1024 records then, and the save must work. */
  lemma StoredExactly(durable: bool, b: Books, item: Item, saves: bool, i: nat)
    requires forall j | 0 <= j < |Of(b, KindOf(item))| :: KindOf(Of(b, KindOf(item))[j]) == KindOf(item)
    requires i <= |Of(b, KindOf(item))| && forall j | 0 <= j < i :: !Renews(item, Of(b, KindOf(item))[j])
    requires i < |Of(b, KindOf(item))| ==> Renews(item, Of(b, KindOf(item))[i])
    ensures Next(durable, b, None, saves) == (b, false)
    ensures var (after, ok) := Next(durable, b, Some(item), saves); var shelf := Of(b, KindOf(item));
      && (ok <==> !durable || (saves && |All(b)| + (if i < |shelf| then 0 else 1) <= 1024))
      && (forall k | k != KindOf(item) :: Of(after, k) == Of(b, k))
      && Of(after, KindOf(item)) ==
           if !ok then shelf else if i < |shelf| then shelf[..i] + [item] + shelf[i + 1..] else shelf + [item]
  {
    var shelf := Of(b, KindOf(item));
    forall j | 0 <= j < |shelf| ensures Renews(item, shelf[j]) <==> Key(shelf[j]) == Key(item) {
      assert KindOf(shelf[j]) == KindOf(item);
    }
    assert Find(shelf, Key(item)) == i;
    if i < |shelf| {
      assert shelf[i := item] == shelf[..i] + [item] + shelf[i + 1..];
    }
  }

  class V3InsightsService {
    const screen: Screen
    const kit: Kit
    /** Whether a state store is configured. */
    const durable: bool
    var books: Books
    var saved: seq<Document>

    /** Memory and file agree. */
    ghost predicate Valid()
      reads this
    {
      Standard(screen, kit) && Sound(screen, books)
        && (durable ==> saved == Written(kit, All(books)) && |All(books)| <= MAX_RECORDS)
    }

    constructor (screen: Screen, kit: Kit, durable: bool)
      requires Standard(screen, kit)
      ensures Valid() && books == EMPTY && this.screen == screen && this.kit == kit && this.durable == durable
    {
      this.screen, this.kit, this.durable, books, saved := screen, kit, durable, EMPTY, [];
    }

    method Persist(saves: bool) returns (ok: bool)
      modifies this`saved
      ensures ok == (!durable || (|All(books)| <= MAX_RECORDS && saves))
      ensures saved == if ok && durable then Written(kit, All(books)) else old(saved)
    {
      if !durable {
        return true;
      }
      if |All(books)| > MAX_RECORDS || !saves {
        return false;
      }
      saved := Written(kit, All(books));
      ok := true;
    }

    /** `_store`: assigns, saves, and takes the assignment back when that fails. */
    method Store(item: Item, saves: bool) returns (ok: bool)
      modifies this
      ensures var after := With(old(books), KindOf(item), Put(Of(old(books), KindOf(item)), item));
        && ok == (!durable || (|All(after)| <= MAX_RECORDS && saves))
        && books == (if ok then after else old(books))
        && saved == if ok && durable then Written(kit, All(after)) else old(saved)
    {
      var k := KindOf(item);
      var shelf := Of(books, k);
      var at := Find(shelf, Key(item));
      books := With(books, k, Put(shelf, item));
      ok := Persist(saves);
      if !ok {
        if at == |shelf| {
          books := With(books, k, Of(books, k)[..at]);
        } else {
          books := With(books, k, Of(books, k)[at := shelf[at]]);
        }
        assert Of(books, k) == shelf;
        WithTwice(old(books), k, Put(shelf, item), shelf);
        WithTwice(With(old(books), k, Put(shelf, item)), k, shelf, shelf);
        SameShelf(old(books), k);
      }
    }

    /** Any request: all or nothing, in memory and on disk.  The record is returned only when its audit
        append succeeds too; a failing append leaves it stored. */
    method Handle(r: Request, c: Context, saves: bool, audited: bool) returns (stored: bool, returned: bool)
      requires Valid() && Usual(screen, c)
      modifies this
      ensures Valid()
      ensures (books, stored) == Next(durable, old(books), Built(screen, kit, r, c), saves)
      ensures !stored ==> saved == old(saved)
      ensures returned <==> stored && audited
    {
      var item := Built(screen, kit, r, c);
      if item.Some? {
        BuiltSettles(screen, kit, r, c);
      }
      stored := Keep(item, saves);
      returned := stored && audited;
    }

    /** A built record joins its collection. */
    method Keep(item: Option<Item>, saves: bool) returns (ok: bool)
      requires Valid() && (item.Some? ==> SettledItem(screen, item.value))
      modifies this
      ensures Valid()
      ensures (books, ok) == Next(durable, old(books), item, saves)
      ensures !ok ==> saved == old(saved)
    {
      if item == None {
        return false;
      }
      WithKeeps(screen, books, item.value);
      ok := Store(item.value, saves);
    }

    /** A new process over the same file. */
    method LoadState() returns (ok: bool)
      requires Standard(screen, kit)
      modifies this`books
      ensures ok <==> Loaded(screen, EMPTY, saved).Ok?
      ensures books == if ok then Loaded(screen, EMPTY, saved).value else old(books)
    {
      var b := EMPTY;
      var docs := saved;
      while docs != []
        invariant Loaded(screen, EMPTY, saved) == Loaded(screen, b, docs)
        decreases |docs|
      {
        var item := Decode(screen, docs[0]);
        if item == None {
          return false;
        }
        var k := KindOf(item.value);
        if Find(Of(b, k), Key(item.value)) < |Of(b, k)| {
          return false;
        }
        b := With(b, k, Of(b, k) + [item.value]);
        docs := docs[1..];
      }
      books := b;
      ok := true;
    }
  }

  // ----- every run -----

  datatype Call = Call(request: Request, context: Context, saves: bool)

  function Run(x: Screen, k: Kit, b: Books, calls: seq<Call>): Books {
    if calls == [] then b
    else
      var before, c := Run(x, k, b, calls[..|calls| - 1]), calls[|calls| - 1];
      Next(true, before, Built(x, k, c.request, c.context), c.saves).0
  }

  /** After every run a new process reads back exactly the six collections, within the limit. */
  lemma {:induction false} EveryRunReloads(x: Screen, k: Kit, calls: seq<Call>)
    requires Standard(x, k) && forall c | c in calls :: Usual(x, c.context)
    ensures var b := Run(x, k, EMPTY, calls);
      Sound(x, b) && |All(b)| <= MAX_RECORDS && Loaded(x, EMPTY, Written(k, All(b))) == Ok(b)
  {
    var b := Run(x, k, EMPTY, calls);
    if calls != [] {
      var init, c := calls[..|calls| - 1], calls[|calls| - 1];
      EveryRunReloads(x, k, init);
      assert c in calls;
      var before := Run(x, k, EMPTY, init);
      var item := Built(x, k, c.request, c.context);
      if item.Some? {
        BuiltSettles(x, k, c.request, c.context);
        WithKeeps(x, before, item.value);
      }
    }
    SavedBooksReload(x, k, b);
  }
}
