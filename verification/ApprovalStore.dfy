/** The approval store: memory, the saved file, and what every run keeps. */
module ApprovalStore {
  import opened Texts
  import opened Digests
  import opened Approvals

  /** Requests in creation order, as the store's dictionary keeps them. */
  type Requests = seq<Request>

  function EncodeAll(rs: Requests): seq<Entry> {
    seq(|rs|, i requires 0 <= i < |rs| => Encode(rs[i]))
  }

  function Refreshed(rs: Requests, now: int): (after: Requests)
    ensures |after| == |rs| && forall i | 0 <= i < |rs| :: after[i] == Expire(rs[i], now)
  {
    seq(|rs|, i requires 0 <= i < |rs| => Expire(rs[i], now))
  }

  /** Position of an id, or the length when it is missing. */
  function Find(rs: Requests, id: string): (i: nat)
    ensures i <= |rs| && (i < |rs| ==> rs[i].id == id)
    ensures forall j | 0 <= j < i :: rs[j].id != id
  {
    if rs == [] || rs[0].id == id then 0 else 1 + Find(rs[1..], id)
  }

  ghost predicate DistinctIds(rs: Requests) {
    forall i, j | 0 <= i < j < |rs| :: rs[i].id != rs[j].id
  }

  function DecodeAll(x: Screen, entries: seq<Entry>): seq<Option<Request>> {
    seq(|entries|, i requires 0 <= i < |entries| => Decode(x, entries[i]))
  }

  /** The loader: every entry decodes and no id repeats. */
  function Gathered(decoded: seq<Option<Request>>): (r: Result<Requests>)
    ensures r.Ok? ==> |r.value| == |decoded| && forall i | 0 <= i < |decoded| :: decoded[i] == Some(r.value[i])
    ensures r.Ok? ==> DistinctIds(r.value)
  {
    if decoded == [] then Ok([])
    else
      var older := Gathered(decoded[..|decoded| - 1]);
      var last := decoded[|decoded| - 1];
      if older.Refused? || last == None || Find(older.value, last.value.id) < |older.value| then Refused
      else Ok(older.value + [last.value])
  }

  /** `_load` */
  function Load(x: Screen, entries: seq<Entry>): Result<Requests> {
    Gathered(DecodeAll(x, entries))
  }

  lemma {:induction false} GatheredStops(decoded: seq<Option<Request>>, k: nat)
    requires k <= |decoded| && Gathered(decoded[..k]).Refused?
    ensures Gathered(decoded).Refused?
    decreases |decoded|
  {
    if k == |decoded| {
      assert decoded[..k] == decoded;
    } else {
      assert decoded[..k] == decoded[..|decoded| - 1][..k];
      GatheredStops(decoded[..|decoded| - 1], k);
    }
  }

  lemma GatheredStep(decoded: seq<Option<Request>>, i: nat, loaded: Requests)
    requires i < |decoded| && Gathered(decoded[..i]) == Ok(loaded)
    ensures Gathered(decoded[..i + 1]) ==
      if decoded[i] == None || Find(loaded, decoded[i].value.id) < |loaded| then Refused
        else Ok(loaded + [decoded[i].value])
  {
    assert decoded[..i + 1][..i] == decoded[..i];
  }

  // ----- operations -----

  datatype Event =
    | Read
    | Create(draft: Draft, id: string, newPlan: string, denied: bool)
    | Decide(target: string, ruling: Ruling)

  /** One call at time `now`; `refreshSaves` and `saves` say whether the snapshot written for the
      expiry sweep and the one for the call itself could be saved.  The outcome is false when the
      call raises. */
  function Next(x: Screen, rs: Requests, e: Event, now: int, refreshSaves: bool, saves: bool): (Requests, bool) {
    match e
    case Create(d, id, newPlan, denied) =>
      var built := Built(x, d, id, newPlan, denied, now);
      if built == None || !saves then (rs, false) else (rs + [built.value], true)
    case Read => Swept(rs, now, refreshSaves)
    case Decide(id, ruling) =>
      var (swept, ok) := Swept(rs, now, refreshSaves);
      var i := Find(swept, id);
      if !ok || i == |swept| then (swept, false)
      else
        var decided := Decided(x, swept[i], ruling, now);
        if decided == None || !saves then (swept, false) else (swept[i := decided.value], true)
  }

  /** `_refresh_expired`: nothing is saved when nothing expires. */
  function Swept(rs: Requests, now: int, saves: bool): (Requests, bool) {
    if Refreshed(rs, now) == rs then (rs, true)
    else if saves then (Refreshed(rs, now), true) else (rs, false)
  }

  class JsonApprovalStore {
    const screen: Screen
    var requests: Requests
    var saved: seq<Entry>

    /** Memory and file hold the same requests. */
    ghost predicate Synced()
      reads this
    {
      saved == EncodeAll(requests) && DistinctIds(requests)
    }

    constructor (screen: Screen)
      ensures this.screen == screen && requests == [] && Synced()
    {
      this.screen, requests, saved := screen, [], [];
    }

    /** `_persist`: replaces the whole snapshot or fails and leaves it alone. */
    method Persist(saves: bool) returns (ok: bool)
      modifies this`saved
      ensures ok == saves && saved == if saves then EncodeAll(requests) else old(saved)
    {
      if saves {
        saved := EncodeAll(requests);
      }
      ok := saves;
    }

    /** Expires in memory first, then saves, and restores the old requests when saving fails. */
    method RefreshExpired(now: int, saves: bool) returns (ok: bool)
      requires Synced()
      modifies this
      ensures Synced() && (requests, ok) == Swept(old(requests), now, saves)
    {
      var updates: Requests := [];
      for i := 0 to |requests|
        invariant |updates| == i && forall j | 0 <= j < i :: updates[j] == Expire(requests[j], now)
        invariant requests == old(requests) && saved == old(saved)
      {
        updates := updates + [Expire(requests[i], now)];
      }
      assert updates == Refreshed(requests, now);
      if updates == requests {
        return true;
      }
      var previous := requests;
      requests := updates;
      ok := Persist(saves);
      if !ok {
        requests := previous;
      }
    }

    /** A read: the request as it is now, never live past its expiry. */
    method Get(id: string, now: int, refreshSaves: bool) returns (r: Result<Request>)
      requires Synced()
      modifies this
      ensures Synced() && requests == Next(screen, old(requests), Read, now, refreshSaves, true).0
      ensures r.Ok? <==> Next(screen, old(requests), Read, now, refreshSaves, true).1 && Find(requests, id) < |requests|
      ensures r.Ok? ==> r.value == requests[Find(requests, id)] && r.value.id == id
      ensures r.Ok? && (r.value.status == PENDING || r.value.status == ApprovalStatus.APPROVED) ==>
        var expiry := r.value.snapshot.expiresAt; expiry == None || (expiry.value.Aware? && now < expiry.value.at)
    {
      var ok := RefreshExpired(now, refreshSaves);
      var i := Find(requests, id);
      if !ok || i == |requests| {
        return Refused;
      }
      SweptIsFresh(old(requests), now, refreshSaves, i);
      r := Ok(requests[i]);
    }

    /** The new request is taken out again when it cannot be saved. */
    method CreateRequest(d: Draft, id: string, newPlan: string, denied: bool, now: int, saves: bool)
      returns (r: Result<Request>)
      requires Synced() && Find(requests, id) == |requests|
      modifies this
      ensures Synced()
      ensures (requests, r.Ok?) == Next(screen, old(requests), Create(d, id, newPlan, denied), now, true, saves)
      ensures r.Ok? ==> Built(screen, d, id, newPlan, denied, now) == Some(r.value)
    {
      var built := Built(screen, d, id, newPlan, denied, now);
      if built == None {
        return Refused;
      }
      requests := requests + [built.value];
      var ok := Persist(saves);
      if !ok {
        requests := requests[..|requests| - 1];
        return Refused;
      }
      r := Ok(built.value);
    }

    /** The old request is put back when the decision cannot be saved. */
    method DecideRequest(id: string, ruling: Ruling, now: int, refreshSaves: bool, saves: bool)
      returns (r: Result<Request>)
      requires Synced()
      modifies this
      ensures Synced()
      ensures (requests, r.Ok?) == Next(screen, old(requests), Decide(id, ruling), now, refreshSaves, saves)
    {
      var ok := RefreshExpired(now, refreshSaves);
      var i := Find(requests, id);
      if !ok || i == |requests| {
        return Refused;
      }
      var request := requests[i];
      var decided := Decided(screen, request, ruling, now);
      if decided == None {
        return Refused;
      }
      ghost var swept := requests;
      SameIdDistinct(requests, i, decided.value);
      requests := requests[i := decided.value];
      ok := Persist(saves);
      if !ok {
        requests := requests[i := request];
        assert requests == swept;
        return Refused;
      }
      r := Ok(decided.value);
    }

    /** A new process over the same file: refused at the first bad entry or repeated id. */
    method Reload() returns (ok: bool)
      modifies this`requests
      ensures ok <==> Load(screen, saved).Ok?
      ensures requests == if ok then Load(screen, saved).value else old(requests)
    {
      var decoded := DecodeEntries(saved);
      var loaded := Gather(decoded);
      if loaded.Ok? {
        requests := loaded.value;
      }
      ok := loaded.Ok?;
    }

    method DecodeEntries(entries: seq<Entry>) returns (decoded: seq<Option<Request>>)
      ensures decoded == DecodeAll(screen, entries)
    {
      decoded := [];
      for i := 0 to |entries|
        invariant |decoded| == i && forall j | 0 <= j < i :: decoded[j] == Decode(screen, entries[j])
      {
        decoded := decoded + [Decode(screen, entries[i])];
      }
    }

    static method Gather(decoded: seq<Option<Request>>) returns (r: Result<Requests>)
      ensures r == Gathered(decoded)
    {
      var loaded: Requests := [];
      for i := 0 to |decoded|
        invariant Gathered(decoded[..i]) == Ok(loaded)
      {
        GatheredStep(decoded, i, loaded);
        if decoded[i] == None || Find(loaded, decoded[i].value.id) < |loaded| {
          GatheredStops(decoded, i + 1);
          return Refused;
        }
        loaded := loaded + [decoded[i].value];
      }
      assert decoded[..|decoded|] == decoded;
      r := Ok(loaded);
    }
  }

  lemma SameIdDistinct(rs: Requests, i: nat, r: Request)
    requires DistinctIds(rs) && i < |rs| && r.id == rs[i].id
    ensures DistinctIds(rs[i := r])
  {
  }

  /** After a successful sweep every pending or approved request has no expiry or a later one. */
  lemma SweptIsFresh(rs: Requests, now: int, saves: bool, i: nat)
    requires Swept(rs, now, saves).1 && i < |rs|
    ensures var r := Swept(rs, now, saves).0[i];
      r.status == PENDING || r.status == ApprovalStatus.APPROVED ==>
        r.snapshot.expiresAt == None || (r.snapshot.expiresAt.value.Aware? && now < r.snapshot.expiresAt.value.at)
  {
    assert Swept(rs, now, saves).0[i] == Expire(rs[i], now);
  }

  /** A pending or approved request that is due at `now`, or whose expiry cannot be read. */
  predicate Due(r: Request, now: int) {
    && (r.status == PENDING || r.status == ApprovalStatus.APPROVED) && r.snapshot.expiresAt.Some?
    && (r.snapshot.expiresAt.value.Aware? ==> r.snapshot.expiresAt.value.at <= now)
  }

  function Lapsed(r: Request, now: int): Request {
    r.(status := ApprovalStatus.EXPIRED, decidedBy := Some("system"), decidedByRole := Some("SYSTEM"),
      decidedAt := Some(now), reason := "approval expired")
  }

  /** What a sweep does: the due requests, and no others, become expired by the system at that moment; it
      fails, and changes nothing, exactly when one is due and the snapshot cannot be saved. */
  lemma SweepExactly(rs: Requests, now: int, saves: bool)
    ensures var (after, ok) := Swept(rs, now, saves);
      && (ok <==> saves || forall i | 0 <= i < |rs| :: !Due(rs[i], now))
      && |after| == |rs| && (!ok ==> after == rs)
      && (ok ==> forall i | 0 <= i < |rs| :: after[i] == if Due(rs[i], now) then Lapsed(rs[i], now) else rs[i])
  {
    forall i | 0 <= i < |rs| ensures Expire(rs[i], now) != rs[i] <==> Due(rs[i], now) {
    }
    if forall i | 0 <= i < |rs| :: !Due(rs[i], now) {
      assert Refreshed(rs, now) == rs;
    } else {
      var i :| 0 <= i < |rs| && Due(rs[i], now);
      assert Refreshed(rs, now)[i] != rs[i];
    }
  }

  // ----- when a call succeeds -----

  /** A creation succeeds exactly when the request can be built and saved, and then adds it at the end. */
  lemma CreateExactly(x: Screen, rs: Requests, e: Event, now: int, refreshSaves: bool, saves: bool)
    requires e.Create?
    ensures var (after, ok) := Next(x, rs, e, now, refreshSaves, saves);
      var built := Built(x, e.draft, e.id, e.newPlan, e.denied, now);
      (ok <==> built.Some? && saves) && after == if ok then rs + [built.value] else rs
  {
  }

  /** A decision succeeds exactly when the sweep does, the request is there after it and can be decided, and
      the snapshot is saved; it then replaces that request, the first of its id, and no other. */
  lemma DecideExactly(x: Screen, rs: Requests, id: string, ruling: Ruling, now: int, refreshSaves: bool, saves: bool,
      i: nat)
    requires DistinctIds(rs) && i < |rs| && rs[i].id == id
    ensures var (after, ok) := Next(x, rs, Decide(id, ruling), now, refreshSaves, saves);
      var (swept, refreshed) := Swept(rs, now, refreshSaves);
      && i < |swept|
      && (ok <==> refreshed && saves && Decided(x, swept[i], ruling, now).Some?)
      && after == if ok then swept[i := Decided(x, swept[i], ruling, now).value] else swept
  {
    var swept := Swept(rs, now, refreshSaves).0;
    assert swept[i].id == id by { assert swept[i] == rs[i] || swept[i] == Expire(rs[i], now); }
    forall j | 0 <= j < i ensures swept[j].id != id {
      assert swept[j] == rs[j] || swept[j] == Expire(rs[j], now);
    }
    assert Find(swept, id) == i;
  }

  // ----- the life of a request -----

  /** What one request may become: the snapshot and the other entry members never change, the status
      only moves forward, nothing else changes without the status, and the seal of an approval stays. */
  predicate Evolves(a: Request, b: Request) {
    && a.id == b.id && a.timestamp == b.timestamp && a.actor == b.actor && a.action == b.action
    && a.risk == b.risk && a.commandId == b.commandId && a.snapshot == b.snapshot
    && (a.status == b.status ==> a == b)
    && (a.status != b.status ==>
         a.status == PENDING || (a.status == ApprovalStatus.APPROVED && b.status == ApprovalStatus.EXPIRED))
    && (a.status == ApprovalStatus.APPROVED ==> b.approvalHash == a.approvalHash)
  }

  ghost predicate StoreEvolves(a: Requests, b: Requests) {
    |a| <= |b| && forall i | 0 <= i < |a| :: Evolves(a[i], b[i])
  }

  lemma StoreEvolvesTransitively(a: Requests, b: Requests, c: Requests)
    requires StoreEvolves(a, b) && StoreEvolves(b, c)
    ensures StoreEvolves(a, c)
  {
    forall i | 0 <= i < |a| ensures Evolves(a[i], c[i]) {
      assert Evolves(a[i], b[i]) && Evolves(b[i], c[i]);
    }
  }

  /** An approved request carries the seal of a decision by somebody else; once it carried one it
      keeps it, also after it expired. */
  predicate SoundRequest(r: Request) {
    && DecisionComplete(r)
    && (r.status == ApprovalStatus.APPROVED ==> r.approvalHash == Some(SealHash(r)) && r.decidedBy.value != r.actor)
    && (r.status == PENDING && r.approvalHash.Some? ==> r.approvalHash.value.Written?)
  }

  ghost predicate StoreSound(rs: Requests) {
    forall i | 0 <= i < |rs| :: SoundRequest(rs[i])
  }

  lemma SweepKeeps(rs: Requests, now: int, saves: bool)
    requires StoreSound(rs)
    ensures var after := Swept(rs, now, saves).0;
      StoreSound(after) && StoreEvolves(rs, after) && (DistinctIds(rs) ==> DistinctIds(after))
  {
    var after := Swept(rs, now, saves).0;
    forall i | 0 <= i < |rs| ensures SoundRequest(after[i]) && Evolves(rs[i], after[i]) {
      assert SoundRequest(rs[i]);
    }
  }

  lemma DecidedKeeps(x: Screen, r: Request, d: Ruling, now: int)
    requires SoundRequest(r) && Decided(x, r, d, now).Some?
    ensures SoundRequest(Decided(x, r, d, now).value) && Evolves(r, Decided(x, r, d, now).value)
  {
  }

  lemma BuiltSound(x: Screen, d: Draft, id: string, newPlan: string, denied: bool, now: int)
    requires Built(x, d, id, newPlan, denied, now).Some?
    ensures SoundRequest(Built(x, d, id, newPlan, denied, now).value)
  {
  }

  lemma PutKeeps(rs: Requests, i: nat, r: Request)
    requires StoreSound(rs) && i < |rs| && SoundRequest(r) && Evolves(rs[i], r)
    ensures StoreSound(rs[i := r]) && StoreEvolves(rs, rs[i := r])
  {
  }

  lemma AddKeeps(rs: Requests, r: Request)
    requires StoreSound(rs) && SoundRequest(r)
    ensures StoreSound(rs + [r]) && StoreEvolves(rs, rs + [r])
  {
  }

  lemma NextKeeps(x: Screen, rs: Requests, e: Event, now: int, refreshSaves: bool, saves: bool)
    requires StoreSound(rs)
    ensures var after := Next(x, rs, e, now, refreshSaves, saves).0; StoreSound(after) && StoreEvolves(rs, after)
  {
    match e {
      case Read => SweepKeeps(rs, now, refreshSaves);
      case Create(d, id, newPlan, denied) =>
        var built := Built(x, d, id, newPlan, denied, now);
        if built.Some? {
          BuiltSound(x, d, id, newPlan, denied, now);
          AddKeeps(rs, built.value);
        }
      case Decide(id, ruling) =>
        SweepKeeps(rs, now, refreshSaves);
        var swept := Swept(rs, now, refreshSaves).0;
        var i := Find(swept, id);
        if i < |swept| {
          var decided := Decided(x, swept[i], ruling, now);
          if decided.Some? {
            DecidedKeeps(x, swept[i], ruling, now);
            PutKeeps(swept, i, decided.value);
            StoreEvolvesTransitively(rs, swept, swept[i := decided.value]);
          }
        }
    }
  }

  // ----- every run -----

  datatype Call = Call(event: Event, now: int, refreshSaves: bool, saves: bool)

  function Run(x: Screen, calls: seq<Call>): Requests {
    if calls == [] then []
    else
      var c := calls[|calls| - 1];
      Next(x, Run(x, calls[..|calls| - 1]), c.event, c.now, c.refreshSaves, c.saves).0
  }

  /** Over every run, with saves that fail at any point: requests are sound, and from any earlier
      moment to any later one they only evolve. */
  lemma {:induction false} EveryRunEvolves(x: Screen, calls: seq<Call>, k: nat)
    requires k <= |calls|
    ensures StoreSound(Run(x, calls)) && StoreEvolves(Run(x, calls[..k]), Run(x, calls))
    decreases |calls|
  {
    if k == |calls| {
      assert calls[..k] == calls;
      if calls != [] {
        EveryRunEvolves(x, calls[..|calls| - 1], 0);
        var c := calls[|calls| - 1];
        NextKeeps(x, Run(x, calls[..|calls| - 1]), c.event, c.now, c.refreshSaves, c.saves);
      }
    } else {
      var n := |calls| - 1;
      var c := calls[n];
      EveryRunEvolves(x, calls[..n], k);
      assert calls[..n][..k] == calls[..k];
      NextKeeps(x, Run(x, calls[..n]), c.event, c.now, c.refreshSaves, c.saves);
      StoreEvolvesTransitively(Run(x, calls[..k]), Run(x, calls[..n]), Run(x, calls));
    }
  }

  /** The entry texts that are only redacted are readable after redaction. */
  predicate Persists(x: Screen, e: Event) {
    match e
    case Read => true
    case Create(d, id, _, denied) => Readable(x, id) && DraftPersists(x, d, denied)
    case Decide(_, ruling) => RulingPersists(x, ruling)
  }

  ghost predicate AllStorable(x: Screen, rs: Requests) {
    forall i | 0 <= i < |rs| :: Storable(x, rs[i])
  }

  lemma SweepStorable(x: Screen, rs: Requests, now: int, saves: bool)
    requires AllStorable(x, rs)
    ensures AllStorable(x, Swept(rs, now, saves).0)
  {
    var after := Swept(rs, now, saves).0;
    forall i | 0 <= i < |rs| ensures Storable(x, after[i]) {
      assert Storable(x, rs[i]);
      ExpiredStorable(x, rs[i], now);
      assert after[i] == rs[i] || after[i] == Expire(rs[i], now);
    }
  }

  lemma BuiltStorable(x: Screen, d: Draft, id: string, newPlan: string, denied: bool, now: int)
    requires Readable(x, id) && DraftPersists(x, d, denied) && Built(x, d, id, newPlan, denied, now).Some?
    ensures Storable(x, Built(x, d, id, newPlan, denied, now).value)
  {
    BuiltStorableExactly(x, d, id, newPlan, denied, now);
    DecodeInvertsEncode(x, Built(x, d, id, newPlan, denied, now).value);
  }

  lemma DecidedStorable(x: Screen, r: Request, d: Ruling, now: int)
    requires Storable(x, r) && RulingPersists(x, d) && Decided(x, r, d, now).Some?
    ensures Storable(x, Decided(x, r, d, now).value)
  {
    DecidedStorableExactly(x, r, d, now);
    DecodeInvertsEncode(x, Decided(x, r, d, now).value);
  }

  lemma StorableAt(x: Screen, rs: Requests, i: nat)
    requires AllStorable(x, rs) && i < |rs|
    ensures Storable(x, rs[i])
  {
  }

  lemma PutStorable(x: Screen, rs: Requests, i: nat, r: Request)
    requires AllStorable(x, rs) && i < |rs| && Storable(x, r)
    ensures AllStorable(x, rs[i := r])
  {
  }

  lemma AddStorable(x: Screen, rs: Requests, r: Request)
    requires AllStorable(x, rs) && Storable(x, r)
    ensures AllStorable(x, rs + [r])
  {
  }

  lemma NextStorable(x: Screen, rs: Requests, c: Call)
    requires AllStorable(x, rs) && Persists(x, c.event)
    ensures AllStorable(x, Next(x, rs, c.event, c.now, c.refreshSaves, c.saves).0)
  {
    match c.event {
      case Read => SweepStorable(x, rs, c.now, c.refreshSaves);
      case Create(d, id, newPlan, denied) =>
        if Built(x, d, id, newPlan, denied, c.now).Some? {
          BuiltStorable(x, d, id, newPlan, denied, c.now);
          AddStorable(x, rs, Built(x, d, id, newPlan, denied, c.now).value);
        }
      case Decide(id, ruling) =>
        SweepStorable(x, rs, c.now, c.refreshSaves);
        RuledStorable(x, Swept(rs, c.now, c.refreshSaves).0, id, ruling, c.now);
    }
  }

  /** A decision in a storable store is storable. */
  lemma RuledStorable(x: Screen, rs: Requests, id: string, ruling: Ruling, now: int)
    requires AllStorable(x, rs) && RulingPersists(x, ruling)
    ensures var i := Find(rs, id);
      i < |rs| && Decided(x, rs[i], ruling, now).Some? ==>
        AllStorable(x, rs[i := Decided(x, rs[i], ruling, now).value])
  {
    var i := Find(rs, id);
    if i < |rs| && Decided(x, rs[i], ruling, now).Some? {
      StorableAt(x, rs, i);
      DecidedStorable(x, rs[i], ruling, now);
      PutStorable(x, rs, i, Decided(x, rs[i], ruling, now).value);
    }
  }

  lemma {:induction false} GatheredAll(rs: Requests, decoded: seq<Option<Request>>)
    requires |decoded| == |rs| && DistinctIds(rs) && forall i | 0 <= i < |rs| :: decoded[i] == Some(rs[i])
    ensures Gathered(decoded) == Ok(rs)
  {
    if rs != [] {
      var n := |rs| - 1;
      GatheredAll(rs[..n], decoded[..n]);
      assert rs == rs[..n] + [rs[n]];
      assert Find(rs[..n], rs[n].id) == n;
    }
  }

  lemma LoadInvertsEncode(x: Screen, rs: Requests)
    requires AllStorable(x, rs) && DistinctIds(rs)
    ensures Load(x, EncodeAll(rs)) == Ok(rs)
  {
    var decoded := DecodeAll(x, EncodeAll(rs));
    forall i | 0 <= i < |rs| ensures decoded[i] == Some(rs[i]) {
      assert Storable(x, rs[i]);
      DecodeInvertsEncode(x, rs[i]);
    }
    GatheredAll(rs, decoded);
  }

  ghost predicate Complete(rs: Requests) {
    forall i | 0 <= i < |rs| ::
      rs[i].snapshot.planId.Some? && rs[i].snapshot.expiresAt.Some? && rs[i].snapshot.operationId.Some?
  }

  /** A saved store reloads to itself if every request in it is storable, and is refused as a whole
      otherwise. */
  lemma SavedStoreReloadsExactly(x: Screen, rs: Requests)
    requires DistinctIds(rs) && Complete(rs)
    ensures AllStorable(x, rs) ==> Load(x, EncodeAll(rs)) == Ok(rs)
    ensures !AllStorable(x, rs) ==> Load(x, EncodeAll(rs)) == Refused
  {
    if AllStorable(x, rs) {
      LoadInvertsEncode(x, rs);
    } else {
      var i :| 0 <= i < |rs| && !Storable(x, rs[i]);
      DecodeInvertsEncode(x, rs[i]);
      var decoded := DecodeAll(x, EncodeAll(rs));
      assert decoded[..i + 1][i] == None;
      GatheredStops(decoded, i + 1);
    }
  }

  /** Ids are fresh: no two creations use the same one. */
  ghost predicate FreshIds(calls: seq<Call>) {
    forall i, j | 0 <= i < j < |calls| && calls[i].event.Create? && calls[j].event.Create? ::
      calls[i].event.id != calls[j].event.id
  }

  ghost predicate CreatedBy(calls: seq<Call>, id: string) {
    exists i :: 0 <= i < |calls| && calls[i].event.Create? && calls[i].event.id == id
  }

  lemma {:induction false} RunIds(x: Screen, calls: seq<Call>)
    requires FreshIds(calls)
    ensures DistinctIds(Run(x, calls)) && forall i | 0 <= i < |Run(x, calls)| :: CreatedBy(calls, Run(x, calls)[i].id)
  {
    if calls != [] {
      var n := |calls| - 1;
      var c := calls[n];
      RunIds(x, calls[..n]);
      EveryRunEvolves(x, calls[..n], 0);
      NextIds(x, Run(x, calls[..n]), c);
      IdsStayCreated(calls, Run(x, calls[..n]), Run(x, calls));
    }
  }

  /** One call keeps the ids there are, and only a creation adds one. */
  lemma NextIds(x: Screen, rs: Requests, c: Call)
    requires StoreSound(rs)
    ensures var after := Next(x, rs, c.event, c.now, c.refreshSaves, c.saves).0;
      && |rs| <= |after| <= |rs| + 1 && (forall i | 0 <= i < |rs| :: after[i].id == rs[i].id)
      && (|after| > |rs| ==> c.event.Create? && after[|rs|].id == c.event.id)
  {
    var after := Next(x, rs, c.event, c.now, c.refreshSaves, c.saves).0;
    NextKeeps(x, rs, c.event, c.now, c.refreshSaves, c.saves);
    forall i | 0 <= i < |rs| ensures after[i].id == rs[i].id {
      assert Evolves(rs[i], after[i]);
    }
  }

  lemma IdsStayCreated(calls: seq<Call>, before: Requests, after: Requests)
    requires FreshIds(calls) && calls != [] && DistinctIds(before)
    requires forall i | 0 <= i < |before| :: CreatedBy(calls[..|calls| - 1], before[i].id)
    requires |before| <= |after| <= |before| + 1 && forall i | 0 <= i < |before| :: after[i].id == before[i].id
    requires |after| > |before| ==>
      calls[|calls| - 1].event.Create? && after[|before|].id == calls[|calls| - 1].event.id
    ensures DistinctIds(after) && forall i | 0 <= i < |after| :: CreatedBy(calls, after[i].id)
  {
    var n := |calls| - 1;
    forall i | 0 <= i < |before| ensures CreatedBy(calls, before[i].id) {
      assert CreatedBy(calls[..n], before[i].id);
    }
    if |after| > |before| {
      forall i | 0 <= i < |before| ensures before[i].id != calls[n].event.id {
        assert CreatedBy(calls[..n], before[i].id);
      }
      assert CreatedBy(calls, calls[n].event.id);
    }
  }

  /** Every request of a run has the defaults of its snapshot filled in. */
  lemma {:induction false} RunComplete(x: Screen, calls: seq<Call>)
    ensures Complete(Run(x, calls))
  {
    if calls != [] {
      var n := |calls| - 1;
      RunComplete(x, calls[..n]);
      NextComplete(x, Run(x, calls[..n]), calls[n]);
    }
  }

  lemma NextComplete(x: Screen, rs: Requests, c: Call)
    requires Complete(rs)
    ensures Complete(Next(x, rs, c.event, c.now, c.refreshSaves, c.saves).0)
  {
    match c.event {
      case Read => SweepComplete(rs, c.now, c.refreshSaves);
      case Create(d, id, newPlan, denied) => BuiltComplete(x, d, id, newPlan, denied, c.now);
      case Decide(id, ruling) =>
        SweepComplete(rs, c.now, c.refreshSaves);
        var swept := Swept(rs, c.now, c.refreshSaves).0;
        if Find(swept, id) < |swept| {
          RulingKeepsSnapshot(x, swept[Find(swept, id)], ruling, c.now);
        }
    }
  }

  lemma SweepComplete(rs: Requests, now: int, saves: bool)
    requires Complete(rs)
    ensures Complete(Swept(rs, now, saves).0)
  {
    assert forall i | 0 <= i < |rs| :: Swept(rs, now, saves).0[i].snapshot == rs[i].snapshot;
  }

  lemma BuiltComplete(x: Screen, d: Draft, id: string, newPlan: string, denied: bool, now: int)
    ensures Built(x, d, id, newPlan, denied, now).Some? ==> Complete([Built(x, d, id, newPlan, denied, now).value])
  {
  }

  lemma RulingKeepsSnapshot(x: Screen, r: Request, ruling: Ruling, now: int)
    ensures Decided(x, r, ruling, now).Some? ==> Decided(x, r, ruling, now).value.snapshot == r.snapshot
  {
  }

  /** Over every run with fresh ids, whatever saves failed and whatever texts were entered: the file
      that matches memory reloads to it if and only if every request is storable, and is refused
      otherwise. */
  lemma EveryRunReloadsExactly(x: Screen, calls: seq<Call>)
    requires FreshIds(calls)
    ensures var rs := Run(x, calls);
      Load(x, EncodeAll(rs)) == if AllStorable(x, rs) then Ok(rs) else Refused
  {
    RunIds(x, calls);
    RunComplete(x, calls);
    SavedStoreReloadsExactly(x, Run(x, calls));
  }

  /** Over every run with fresh ids and persistable entry texts, whatever saves failed: reloading the
      file that matches memory rebuilds exactly the requests in memory. */
  lemma EveryRunReloads(x: Screen, calls: seq<Call>)
    requires FreshIds(calls) && forall c | c in calls :: Persists(x, c.event)
    ensures Load(x, EncodeAll(Run(x, calls))) == Ok(Run(x, calls))
  {
    RunIds(x, calls);
    RunStorable(x, calls);
    LoadInvertsEncode(x, Run(x, calls));
  }

  lemma {:induction false} RunStorable(x: Screen, calls: seq<Call>)
    requires forall c | c in calls :: Persists(x, c.event)
    ensures AllStorable(x, Run(x, calls))
  {
    if calls != [] {
      RunStorable(x, calls[..|calls| - 1]);
      NextStorable(x, Run(x, calls[..|calls| - 1]), calls[|calls| - 1]);
    }
  }
}
