/** How long a record stays: the byte bound of crash-free runs, and what a reload accepts. */
module AuditRetention {
  import opened Texts
  import opened AuditRotation

  // ----- the retention bound -----

  /** No write is interrupted; rejected records and restarts are still allowed. */
  predicate CrashFree(e: Event, retention: nat) {
    e.Append? ==> e.attempt.appends && e.attempt.steps > retention
  }

  /** The first `m` segments exist and two neighbours never fit into one file. */
  ghost predicate Dense(dir: Directory, maxBytes: nat, m: nat) {
    && m <= |dir|
    && (forall i | 0 <= i < |dir| :: dir[i].File? <==> i < m)
    && (forall i | 0 <= i < m - 1 :: Size(Lines(dir[i])) + Size(Lines(dir[i + 1])) > maxBytes)
  }

  ghost predicate Retains(dir: Directory, history: seq<Record>, maxBytes: nat) {
    && (exists m :: Dense(dir, maxBytes, m))
    && (|history| > |Retained(dir)| ==> Size(Retained(dir)) >= (|dir| / 2) * (maxBytes + 1))
  }

  lemma {:induction false} RetainedSize(dir: Directory)
    ensures Size(Retained(dir)) == TotalSize(dir)
  {
    if dir != [] {
      RetainedSize(dir[1..]);
      SizeSplits(Retained(dir[1..]), Lines(dir[0]));
    }
  }

  /** Neighbours that overflow a file pair up: `first` and `rest` hold one overflow per pair. */
  lemma {:induction false} PairSum(first: nat, rest: Directory, maxBytes: nat)
    requires rest != [] ==> first + Size(Lines(rest[0])) > maxBytes
    requires forall i | 0 <= i < |rest| - 1 :: Size(Lines(rest[i])) + Size(Lines(rest[i + 1])) > maxBytes
    ensures first + TotalSize(rest) >= ((|rest| + 1) / 2) * (maxBytes + 1)
    decreases |rest|
  {
    if |rest| == 1 {
      assert TotalSize(rest) == Size(Lines(rest[0])) + TotalSize(rest[1..]);
    } else if |rest| >= 2 {
      var tail := rest[2..];
      forall i | 0 <= i < |tail| - 1 ensures Size(Lines(tail[i])) + Size(Lines(tail[i + 1])) > maxBytes {
        assert tail[i] == rest[i + 2] && tail[i + 1] == rest[i + 3];
      }
      PairSum(Size(Lines(rest[1])), tail, maxBytes);
      assert rest[1..][1..] == tail;
      assert TotalSize(rest) == Size(Lines(rest[0])) + (Size(Lines(rest[1])) + TotalSize(tail));
      assert (|rest| + 1) / 2 == (|tail| + 1) / 2 + 1;
      OneMorePair((|tail| + 1) / 2, maxBytes + 1);
    }
  }

  lemma OneMorePair(pairs: nat, m: nat)
    ensures (pairs + 1) * m == pairs * m + m
  {
  }

  lemma AppendDense(dir: Directory, maxBytes: nat, r: Record, m: nat)
    requires dir != [] && Dense(dir, maxBytes, m)
    ensures exists n :: Dense(Appended(dir, r), maxBytes, n)
  {
    AppendedSize(dir, r);
    var after, n := Appended(dir, r), if m == 0 then 1 else m;
    forall i | 0 <= i < n - 1 ensures Size(Lines(after[i])) + Size(Lines(after[i + 1])) > maxBytes {
      assert after[i + 1] == dir[i + 1];
    }
    assert Dense(after, maxBytes, n);
  }

  /** A completed rotation followed by the append: the new neighbour pair overflows because the
      rotation happened. */
  lemma {:induction false} RotateDense(dir: Directory, maxBytes: nat, r: Record, m: nat)
    requires 2 <= |dir| && Dense(dir, maxBytes, m) && m > 0 && !Fits(dir, r, maxBytes)
    ensures Appended(Stage(dir, |dir|), r) == [File([r])] + dir[..|dir| - 1]
    ensures exists n :: Dense(Appended(Stage(dir, |dir|), r), maxBytes, n)
  {
    RotatedFiles(dir, r);
    var after, n := [File([r])] + dir[..|dir| - 1], if m < |dir| then m + 1 else m;
    assert Size([r]) == LineSize(r) by { assert [r][..0] == []; }
    forall i | 0 <= i < n - 1 ensures Size(Lines(after[i])) + Size(Lines(after[i + 1])) > maxBytes {
      assert after[i + 1] == dir[i];
      if i > 0 {
        assert after[i] == dir[i - 1];
      }
    }
    assert Dense(after, maxBytes, n);
  }

  lemma RotateSize(dir: Directory, maxBytes: nat, r: Record)
    requires 2 <= |dir| && Dense(dir, maxBytes, |dir|) && !Fits(dir, r, maxBytes)
    ensures Size(Retained([File([r])] + dir[..|dir| - 1])) >= (|dir| / 2) * (maxBytes + 1)
  {
    var rest := dir[..|dir| - 1];
    RetainedSize([File([r])] + rest);
    assert ([File([r])] + rest)[1..] == rest;
    assert Size([r]) == LineSize(r) by { assert [r][..0] == []; }
    PairSum(LineSize(r), rest, maxBytes);
  }

  lemma AppendStep(dir: Directory, history: seq<Record>, maxBytes: nat, r: Record)
    requires dir != [] && Retains(dir, history, maxBytes)
    ensures Retains(Appended(dir, r), history + [r], maxBytes)
  {
    var m :| Dense(dir, maxBytes, m);
    AppendDense(dir, maxBytes, r, m);
    AppendedRetained(dir, r);
    SizeSplits(Retained(dir), [r]);
  }

  lemma RotateStep(dir: Directory, history: seq<Record>, maxBytes: nat, r: Record)
    requires 2 <= |dir| && Retains(dir, history, maxBytes)
    requires LineSize(r) <= maxBytes && !Fits(dir, r, maxBytes)
    ensures Retains(Appended(Stage(dir, |dir|), r), history + [r], maxBytes)
  {
    var m :| Dense(dir, maxBytes, m);
    assert m > 0;
    RotateDense(dir, maxBytes, r, m);
    if m == |dir| {
      RotateSize(dir, maxBytes, r);
    } else {
      RotationLosesOnlyTheOldest(dir, |dir|);
      AppendedRetained(Stage(dir, |dir|), r);
      assert Lines(dir[|dir| - 1]) == [];
      assert Retained(Stage(dir, |dir|)) == Retained(dir);
      SizeSplits(Retained(dir), [r]);
    }
  }

  lemma StepRetains(s: State, maxBytes: nat, e: Event)
    requires 2 <= |s.dir| && Retains(s.dir, s.history, maxBytes) && CrashFree(e, |s.dir| - 1)
    ensures var n := Step(s, maxBytes, e); Retains(n.dir, n.history, maxBytes)
  {
    if e.Append? && e.attempt.record.safe && LineSize(e.attempt.record) <= maxBytes {
      if Fits(s.dir, e.attempt.record, maxBytes) {
        AppendStep(s.dir, s.history, maxBytes, e.attempt.record);
      } else {
        RotateStep(s.dir, s.history, maxBytes, e.attempt.record);
      }
    }
  }

  lemma StartRetains(retention: nat, maxBytes: nat)
    requires 1 <= retention
    ensures Retains(Initial(retention).dir, Initial(retention).history, maxBytes)
  {
    EmptyDirectory(Initial(retention).dir);
    assert Dense(Initial(retention).dir, maxBytes, 0);
  }

  lemma RunLast(retention: nat, maxBytes: nat, events: seq<Event>)
    requires 1 <= retention && events != []
    ensures Run(retention, maxBytes, events) ==
      Step(Run(retention, maxBytes, events[..|events| - 1]), maxBytes, events[|events| - 1])
  {
  }

  lemma {:induction false} RunRetains(retention: nat, maxBytes: nat, events: seq<Event>)
    requires 1 <= retention && (forall e | e in events :: CrashFree(e, retention))
    ensures var s := Run(retention, maxBytes, events); Retains(s.dir, s.history, maxBytes)
  {
    if events == [] {
      StartRetains(retention, maxBytes);
    } else {
      var before, e := events[..|events| - 1], events[|events| - 1];
      RunRetains(retention, maxBytes, before);
      assert e in events;
      StepRetains(Run(retention, maxBytes, before), maxBytes, e);
      RunLast(retention, maxBytes, events);
    }
  }

  /** Over every crash-free run, a record that is no longer in the log was followed by more than
      floor((retention + 1) / 2) full files of newer accepted records. */
  lemma DroppedOnlyAfterManyNewerBytes(retention: nat, maxBytes: nat, events: seq<Event>, j: nat)
    requires 1 <= retention && (forall e | e in events :: CrashFree(e, retention))
    requires j < |Run(retention, maxBytes, events).history| - |Retained(Run(retention, maxBytes, events).dir)|
    ensures Size(Run(retention, maxBytes, events).history[j + 1..]) > ((retention + 1) / 2) * maxBytes
  {
    var s := Run(retention, maxBytes, events);
    RunRetains(retention, maxBytes, events);
    EveryRunKeepsASuffix(retention, maxBytes, events);
    var d := |s.history| - |Retained(s.dir)|;
    assert s.history[j + 1..] == s.history[j + 1..d] + Retained(s.dir);
    SizeSplits(s.history[j + 1..d], Retained(s.dir));
    var pairs := (retention + 1) / 2;
    assert pairs * (maxBytes + 1) == pairs * maxBytes + pairs;
  }

  // ----- what is accepted -----

  /** The attempted records that both screens pass and that fit into a file, in order. */
  function Acceptable(events: seq<Event>, maxBytes: nat): seq<Record> {
    if events == [] then []
    else
      var e := events[|events| - 1];
      Acceptable(events[..|events| - 1], maxBytes) +
        if e.Append? && e.attempt.record.safe && e.attempt.record.bytes + 1 <= maxBytes then [e.attempt.record] else []
  }

  /** What one crash-free event adds. */
  lemma AcceptedByStep(s: State, retention: nat, maxBytes: nat, e: Event)
    requires 1 <= retention && |s.dir| == retention + 1 && CrashFree(e, retention)
    ensures var n := Step(s, maxBytes, e);
      var added := if e.Append? && e.attempt.record.safe && e.attempt.record.bytes + 1 <= maxBytes
                   then [e.attempt.record] else [];
      n.history == s.history + added && (e.Append? ==> n.memory == s.memory + added)
  {
    if e.Append? {
      WriteExactly(s.dir, maxBytes, e.attempt);
    }
  }

  /** Over every crash-free run the history is exactly the records that could be accepted, and memory
      holds the ones that were readable at the last restart and all since. */
  lemma {:induction false} HistoryIsEveryAcceptableRecord(retention: nat, maxBytes: nat, events: seq<Event>)
    requires 1 <= retention && (forall e | e in events :: CrashFree(e, retention))
    ensures var s := Run(retention, maxBytes, events);
      s.history == Acceptable(events, maxBytes) && Suffix(s.memory, Acceptable(events, maxBytes))
    ensures (forall e | e in events :: e.Append?) ==>
      Run(retention, maxBytes, events).memory == Acceptable(events, maxBytes)
  {
    if events != [] {
      var before, e := events[..|events| - 1], events[|events| - 1];
      HistoryIsEveryAcceptableRecord(retention, maxBytes, before);
      assert e in events;
      AcceptedByStep(Run(retention, maxBytes, before), retention, maxBytes, e);
      RunLast(retention, maxBytes, events);
    }
    RunKeeps(retention, maxBytes, events);
  }

  /** A restart reads what is on disk; every other event leaves memory alone or adds one record. */
  lemma MemoryAfterRestart(retention: nat, maxBytes: nat, events: seq<Event>)
    requires 1 <= retention
    ensures var s, n := Run(retention, maxBytes, events), Run(retention, maxBytes, events + [Restart]);
      n == State(s.dir, Retained(s.dir), s.history)
  {
    assert (events + [Restart])[..|events|] == events;
  }

  // ----- reloading -----

  ghost predicate DistinctIds(records: seq<Record>) {
    forall i, j | 0 <= i < j < |records| :: records[i].id != records[j].id
  }

  /** What `read` accepts: every file within the limit, every line decodable, no id twice. */
  ghost predicate Readable(dir: Directory, maxBytes: nat) {
    && Bounded(dir, maxBytes)
    && (forall r | r in Retained(dir) :: Decodable(r))
    && DistinctIds(Retained(dir))
  }

  /** Record ids are fresh in every attempt. */
  ghost predicate FreshIds(events: seq<Event>) {
    forall i, j | 0 <= i < j < |events| && events[i].Append? && events[j].Append? ::
      events[i].attempt.record.id != events[j].attempt.record.id
  }

  ghost predicate Attempted(events: seq<Event>, r: Record) {
    exists i :: 0 <= i < |events| && events[i].Append? && events[i].attempt.record == r
  }

  lemma {:induction false} HistoryIds(retention: nat, maxBytes: nat, events: seq<Event>)
    requires 1 <= retention && FreshIds(events)
    ensures var h := Run(retention, maxBytes, events).history;
      && DistinctIds(h)
      && (forall r | r in h :: Attempted(events, r))
  {
    if events != [] {
      var n := |events| - 1;
      HistoryIds(retention, maxBytes, events[..n]);
      var h := Run(retention, maxBytes, events[..n]).history;
      var e := events[n];
      if e.Append? {
        forall i | 0 <= i < |h| ensures h[i].id != e.attempt.record.id {
          assert Attempted(events[..n], h[i]);
        }
      }
    }
  }

  /** Over every run with fresh ids, a reload is refused only because of a retained record with a blank
      text, an unsafe line or a duration out of range; it never trips the size check or the duplicate
      check. */
  lemma ReloadFailsOnlyOnUndecodableRecords(retention: nat, maxBytes: nat, events: seq<Event>)
    requires 1 <= retention && FreshIds(events)
    ensures var s := Run(retention, maxBytes, events);
      Readable(s.dir, maxBytes) <==> forall r | r in Retained(s.dir) ::
        && (forall t | t in [r.id] + r.required + r.labels :: !Blank(t))
        && (forall t | t in r.optional && t.Some? :: !Blank(t.value))
        && r.safe && (r.durationMs == None || 0 <= r.durationMs.value <= 86_400_000)
  {
    var s := Run(retention, maxBytes, events);
    RunKeeps(retention, maxBytes, events);
    EveryRunKeepsASuffix(retention, maxBytes, events);
    HistoryIds(retention, maxBytes, events);
    forall r | r in Retained(s.dir) ensures Decodable(r) <==>
        && (forall t | t in [r.id] + r.required + r.labels :: !Blank(t))
        && (forall t | t in r.optional && t.Some? :: !Blank(t.value))
        && r.safe && (r.durationMs == None || 0 <= r.durationMs.value <= 86_400_000)
    {
      DecodableMeans(r);
    }
    SuffixIdsDistinct(s.history, |s.history| - |Retained(s.dir)|);
  }

  lemma DecodableMeans(r: Record)
    ensures Decodable(r) <==>
      && (forall t | t in [r.id] + r.required + r.labels :: !Blank(t))
      && (forall t | t in r.optional && t.Some? :: !Blank(t.value))
      && r.safe && (r.durationMs == None || 0 <= r.durationMs.value <= 86_400_000)
  {
    assert forall t :: t in [r.id] + r.required + r.labels <==> t == r.id || t in r.required || t in r.labels;
  }

  lemma SuffixIdsDistinct(history: seq<Record>, d: nat)
    requires DistinctIds(history) && d <= |history|
    ensures DistinctIds(history[d..])
  {
  }

  /** The append path does not check what the loader demands: a record with a blank action is
      written and can then no longer be loaded. */
  lemma BlankFieldIsWrittenButNotReadable()
    ensures var r := Record("record-1", [" "], [], None, [], 100, true);
      var s := Run(1, 1024, [Append(Attempt(r, 2, true))]);
      s.history == [r] && Retained(s.dir) == [r] && !Readable(s.dir, 1024)
  {
    var r := Record("record-1", [" "], [], None, [], 100, true);
    var a := Attempt(r, 2, true);
    var first := Initial(1);
    assert [Append(a)][..0] == [];
    assert Run(1, 1024, []) == first;
    EmptyDirectory(first.dir);
    AppendedRetained(first.dir, r);
    var s := Run(1, 1024, [Append(a)]);
    assert Retained(s.dir) == [r];
    assert r in Retained(s.dir) && " " in r.required;
    assert Blank(" ");
  }
}
