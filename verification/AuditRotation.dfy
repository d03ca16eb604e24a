/** The rotating audit log as a sequence of optional files: entry 0 is the current file and
    entry i is the file with suffix `.i`. */
module AuditRotation {
  import opened Texts

  /** An audit record with what its JSON line decides: `bytes` is the UTF-8 length without the
      newline and `safe` says that both screens pass the line. */
  datatype Record = Record(
    id: string,
    required: seq<string>,
    optional: seq<Option<string>>,
    durationMs: Option<int>,
    labels: seq<string>,
    bytes: nat,
    safe: bool)

  function LineSize(r: Record): nat {
    r.bytes + 1
  }

  /** What the loader demands of one stored line. */
  predicate Decodable(r: Record) {
    && !Blank(r.id)
    && (forall t | t in r.required :: !Blank(t))
    && (forall t | t in r.optional :: t.Some? ==> !Blank(t.value))
    && (r.durationMs.Some? ==> 0 <= r.durationMs.value <= 86_400_000)
    && (forall t | t in r.labels :: !Blank(t))
    && r.safe
  }

  datatype Segment = Absent | File(lines: seq<Record>)
  type Directory = seq<Segment>

  function Lines(s: Segment): seq<Record> {
    if s.File? then s.lines else []
  }

  function Size(lines: seq<Record>): nat {
    if lines == [] then 0 else Size(lines[..|lines| - 1]) + LineSize(lines[|lines| - 1])
  }

  /** What a reader sees: the segments concatenated oldest first. */
  function Retained(dir: Directory): seq<Record> {
    if dir == [] then [] else Retained(dir[1..]) + Lines(dir[0])
  }

  function TotalSize(dir: Directory): nat {
    if dir == [] then 0 else Size(Lines(dir[0])) + TotalSize(dir[1..])
  }

  // ----- rotation, one file operation at a time -----

  /** `os.replace(path.i, path.(i+1))`, skipped when the source file is missing. */
  function Move(dir: Directory, i: nat): Directory
    requires i + 1 < |dir|
  {
    if dir[i].File? then dir[i + 1 := dir[i]][i := Absent] else dir
  }

  /** The directory after the first `k` steps of a rotation: step 1 unlinks the oldest segment,
      step k > 1 moves segment |dir| - k up by one. */
  function Stage(dir: Directory, k: nat): Directory
    requires 2 <= |dir| && k <= |dir|
    ensures |Stage(dir, k)| == |dir|
  {
    if k == 0 then dir
    else if k == 1 then dir[|dir| - 1 := Absent]
    else Move(Stage(dir, k - 1), |dir| - k)
  }

  /** After any step and from any pattern of missing segments, the segments not yet moved are in
      place, one slot is free and the moved ones are one place up. */
  lemma {:induction false} StageShape(dir: Directory, k: nat)
    requires 2 <= |dir| && 1 <= k <= |dir|
    ensures Stage(dir, k) == dir[..|dir| - k] + [Absent] + dir[|dir| - k..|dir| - 1]
  {
    if k > 1 {
      StageShape(dir, k - 1);
    }
  }

  /** No step overwrites a segment: the target of step k + 1 is always free. */
  lemma RotationNeverOverwrites(dir: Directory, k: nat)
    requires 2 <= |dir| && 1 <= k < |dir|
    ensures Stage(dir, k)[|dir| - k] == Absent
  {
    StageShape(dir, k);
  }

  lemma {:induction false} RetainedSplits(newer: Directory, older: Directory)
    ensures Retained(newer + older) == Retained(older) + Retained(newer)
  {
    if newer == [] {
      assert newer + older == older;
    } else {
      RetainedSplits(newer[1..], older);
      assert (newer + older)[1..] == newer[1..] + older;
      assert Retained(newer + older) == Retained(newer[1..] + older) + Lines(newer[0]);
      assert (Retained(older) + Retained(newer[1..])) + Lines(newer[0]) ==
        Retained(older) + (Retained(newer[1..]) + Lines(newer[0]));
    }
  }

  lemma {:induction false} RetainedOldest(dir: Directory)
    requires dir != []
    ensures Retained(dir) == Lines(dir[|dir| - 1]) + Retained(dir[..|dir| - 1])
  {
    var n := |dir| - 1;
    assert dir == dir[..n] + [dir[n]];
    RetainedSplits(dir[..n], [dir[n]]);
    assert Retained([dir[n]]) == Retained([]) + Lines(dir[n]);
  }

  lemma RetainedGap(newer: Directory, older: Directory)
    ensures Retained(newer + [Absent] + older) == Retained(newer + older)
  {
    assert newer + [Absent] + older == newer + ([Absent] + older);
    RetainedSplits(newer, [Absent] + older);
    RetainedSplits(newer, older);
    assert ([Absent] + older)[1..] == older;
    assert Retained(older) + [] == Retained(older);
  }

  /** Stopping a rotation after any step loses the oldest segment and nothing else, and the
      records that are left keep their order. */
  lemma RotationLosesOnlyTheOldest(dir: Directory, k: nat)
    requires 2 <= |dir| && k <= |dir|
    ensures Retained(dir) == Lines(dir[|dir| - 1]) + Retained(dir[..|dir| - 1])
    ensures Retained(Stage(dir, k)) == if k == 0 then Retained(dir) else Retained(dir[..|dir| - 1])
  {
    RetainedOldest(dir);
    if k > 0 {
      StageShape(dir, k);
      var low, high := dir[..|dir| - k], dir[|dir| - k..|dir| - 1];
      RetainedGap(low, high);
      assert dir[..|dir| - 1] == low + high;
    }
  }

  // ----- one write -----

  datatype Outcome = Rejected | Failed | Written

  /** What one write meets: `steps` rotation steps succeed before an error or a crash, and
      `appends` says whether the append itself succeeds. */
  datatype Attempt = Attempt(record: Record, steps: nat, appends: bool)

  predicate Fits(dir: Directory, r: Record, maxBytes: nat)
    requires dir != []
  {
    Size(Lines(dir[0])) + LineSize(r) <= maxBytes
  }

  function Appended(dir: Directory, r: Record): Directory
    requires dir != []
  {
    dir[0 := File(Lines(dir[0]) + [r])]
  }

  function Write(dir: Directory, maxBytes: nat, a: Attempt): (Directory, Outcome)
    requires 2 <= |dir|
  {
    if !a.record.safe || LineSize(a.record) > maxBytes then
      (dir, Rejected)
    else if Fits(dir, a.record, maxBytes) then
      if a.appends then (Appended(dir, a.record), Written) else (dir, Failed)
    else if a.steps < |dir| then
      (Stage(dir, a.steps), Failed)
    else
      var rotated := Stage(dir, |dir|);
      if a.appends then (Appended(rotated, a.record), Written) else (rotated, Failed)
  }

  lemma {:induction false} RotatedFiles(dir: Directory, r: Record)
    requires 2 <= |dir|
    ensures Appended(Stage(dir, |dir|), r) == [File([r])] + dir[..|dir| - 1]
  {
    StageShape(dir, |dir|);
    assert Stage(dir, |dir|) == [Absent] + dir[..|dir| - 1];
    assert [] + [r] == [r];
  }

  /** What a write does and when: it is refused exactly for an unsafe or oversized line, and it is
      written exactly when the append works and there is room, or every file operation of the rotation
      works.  Only the current file grows, or a new one takes its place above the others. */
  lemma WriteExactly(dir: Directory, maxBytes: nat, a: Attempt)
    requires 2 <= |dir|
    ensures var (after, outcome), r, n := Write(dir, maxBytes, a), a.record, |dir|;
      var accepted, room := r.safe && r.bytes + 1 <= maxBytes, Size(Lines(dir[0])) + r.bytes + 1 <= maxBytes;
      && (outcome == Rejected <==> !accepted)
      && (outcome == Written <==> accepted && a.appends && (room || n <= a.steps))
      && (outcome == Rejected ==> after == dir)
      && (outcome == Written && room ==> after == [File(Lines(dir[0]) + [r])] + dir[1..])
      && (outcome == Written && !room ==> after == [File([r])] + dir[..n - 1])
      && (outcome == Failed && (room || a.steps == 0) ==> after == dir)
      && (outcome == Failed && !room && a.steps > 0 ==>
            var k := if a.steps < n then a.steps else n; after == dir[..n - k] + [Absent] + dir[n - k..n - 1])
  {
    if !Fits(dir, a.record, maxBytes) && a.steps > 0 {
      StageShape(dir, if a.steps < |dir| then a.steps else |dir|);
      RotatedFiles(dir, a.record);
    }
  }

  // ----- runs -----

  /** The process state beside the files: `memory` is the in-memory log and `history` every record
      ever accepted. */
  datatype State = State(dir: Directory, memory: seq<Record>, history: seq<Record>)

  datatype Event = Append(attempt: Attempt) | Restart

  function Initial(retention: nat): (s: State)
  {
    State(seq(retention + 1, _ => Absent), [], [])
  }

  function Step(s: State, maxBytes: nat, e: Event): State
    requires 2 <= |s.dir|
  {
    match e
    case Restart => s.(memory := Retained(s.dir))
    case Append(a) =>
      var (dir, outcome) := Write(s.dir, maxBytes, a);
      if outcome == Written then State(dir, s.memory + [a.record], s.history + [a.record]) else s.(dir := dir)
  }

  function Run(retention: nat, maxBytes: nat, events: seq<Event>): (s: State)
    requires 1 <= retention
    ensures |s.dir| == retention + 1
  {
    if events == [] then Initial(retention)
    else Step(Run(retention, maxBytes, events[..|events| - 1]), maxBytes, events[|events| - 1])
  }

  predicate Suffix(part: seq<Record>, whole: seq<Record>) {
    |part| <= |whole| && part == whole[|whole| - |part|..]
  }

  ghost predicate Bounded(dir: Directory, maxBytes: nat) {
    forall i | 0 <= i < |dir| :: Size(Lines(dir[i])) <= maxBytes
  }

  /** What every event keeps, crashes in the middle of a rotation included. */
  ghost predicate Kept(s: State, maxBytes: nat) {
    && Bounded(s.dir, maxBytes)
    && Suffix(Retained(s.dir), s.memory)
    && Suffix(s.memory, s.history)
    && (s.history != [] ==> Retained(s.dir) != [])
  }

  lemma StageBounded(dir: Directory, maxBytes: nat, k: nat)
    requires 2 <= |dir| && k <= |dir| && Bounded(dir, maxBytes)
    ensures Bounded(Stage(dir, k), maxBytes)
  {
    if k > 0 {
      StageShape(dir, k);
    }
  }

  lemma {:induction false} SizeSplits(a: seq<Record>, b: seq<Record>)
    ensures Size(a + b) == Size(a) + Size(b)
  {
    if b == [] {
      assert a + b == a;
    } else {
      SizeSplits(a, b[..|b| - 1]);
      assert (a + b)[..|a + b| - 1] == a + b[..|b| - 1];
    }
  }

  lemma AppendedRetained(dir: Directory, r: Record)
    requires dir != []
    ensures Retained(Appended(dir, r)) == Retained(dir) + [r]
  {
    assert Appended(dir, r)[1..] == dir[1..];
    assert Retained(dir[1..]) + (Lines(dir[0]) + [r]) == Retained(dir) + [r];
  }

  lemma AppendedSize(dir: Directory, r: Record)
    requires dir != []
    ensures Size(Lines(Appended(dir, r)[0])) == Size(Lines(dir[0])) + LineSize(r)
  {
    SizeSplits(Lines(dir[0]), [r]);
    assert Size([r]) == Size([]) + LineSize(r) by { assert [r][..0] == []; }
  }

  /** A rotation keeps the log non-empty: it starts only when the current file has a line, and
      the current file is never the one that is unlinked. */
  lemma StageKeepsTheCurrentLines(dir: Directory, k: nat)
    requires 2 <= |dir| && k <= |dir| && Lines(dir[0]) != []
    ensures Retained(Stage(dir, k)) != []
  {
    RotationLosesOnlyTheOldest(dir, k);
    var rest := dir[..|dir| - 1];
    assert Retained(rest) == Retained(rest[1..]) + Lines(dir[0]);
  }

  lemma SuffixTrans(a: seq<Record>, b: seq<Record>, c: seq<Record>)
    requires Suffix(a, b) && Suffix(b, c)
    ensures Suffix(a, c)
  {
  }

  lemma SuffixAppend(a: seq<Record>, b: seq<Record>, r: Record)
    requires Suffix(a, b)
    ensures Suffix(a + [r], b + [r])
  {
  }

  lemma StageRetains(dir: Directory, maxBytes: nat, k: nat)
    requires 2 <= |dir| && k <= |dir| && Bounded(dir, maxBytes)
    ensures Suffix(Retained(Stage(dir, k)), Retained(dir))
    ensures Bounded(Stage(dir, k), maxBytes)
  {
    RotationLosesOnlyTheOldest(dir, k);
    StageBounded(dir, maxBytes, k);
  }

  lemma AppendRetains(dir: Directory, maxBytes: nat, r: Record)
    requires dir != [] && Bounded(dir, maxBytes) && Fits(dir, r, maxBytes)
    ensures Retained(Appended(dir, r)) == Retained(dir) + [r]
    ensures Bounded(Appended(dir, r), maxBytes)
  {
    AppendedRetained(dir, r);
    forall i | 0 <= i < |dir| ensures Size(Lines(Appended(dir, r)[i])) <= maxBytes {
      if i == 0 {
        AppendedSize(dir, r);
      } else {
        assert Appended(dir, r)[i] == dir[i];
      }
    }
  }

  /** Every outcome of a write either appends the record to a suffix of what was retained, or
      leaves such a suffix. */
  lemma WriteRetains(dir: Directory, maxBytes: nat, a: Attempt)
    requires 2 <= |dir| && Bounded(dir, maxBytes)
    ensures var (after, outcome) := Write(dir, maxBytes, a);
      && |after| == |dir| && Bounded(after, maxBytes)
      && (outcome == Written ==> Suffix(Retained(after), Retained(dir) + [a.record]) && Retained(after) != [])
      && (outcome != Written ==>
           Suffix(Retained(after), Retained(dir)) && (Retained(dir) != [] ==> Retained(after) != []))
  {
    var r := a.record;
    if !r.safe || LineSize(r) > maxBytes {
    } else if Fits(dir, r, maxBytes) {
      AppendRetains(dir, maxBytes, r);
    } else {
      var k := if a.steps < |dir| then a.steps else |dir|;
      StageRetains(dir, maxBytes, k);
      StageKeepsTheCurrentLines(dir, k);
      if k == |dir| {
        StageShape(dir, k);
        AppendRetains(Stage(dir, k), maxBytes, r);
        SuffixAppend(Retained(Stage(dir, k)), Retained(dir), r);
      }
    }
  }

  lemma StepKeeps(s: State, maxBytes: nat, e: Event)
    requires 2 <= |s.dir| && Kept(s, maxBytes)
    ensures Kept(Step(s, maxBytes, e), maxBytes)
  {
    match e {
      case Restart =>
        SuffixTrans(Retained(s.dir), s.memory, s.history);
      case Append(a) =>
        WriteRetains(s.dir, maxBytes, a);
        var after := Write(s.dir, maxBytes, a);
        if after.1 == Written {
          SuffixAppend(Retained(s.dir), s.memory, a.record);
          SuffixAppend(s.memory, s.history, a.record);
          SuffixTrans(Retained(after.0), Retained(s.dir) + [a.record], s.memory + [a.record]);
        } else {
          SuffixTrans(Retained(after.0), Retained(s.dir), s.memory);
        }
    }
  }

  lemma {:induction false} EmptyDirectory(dir: Directory)
    requires forall i | 0 <= i < |dir| :: dir[i] == Absent
    ensures Retained(dir) == []
  {
    if dir != [] {
      EmptyDirectory(dir[1..]);
    }
  }

  lemma {:induction false} TotalBound(dir: Directory, maxBytes: nat)
    requires Bounded(dir, maxBytes)
    ensures TotalSize(dir) <= |dir| * maxBytes
  {
    if dir != [] {
      TotalBound(dir[1..], maxBytes);
      assert |dir| * maxBytes == maxBytes + |dir[1..]| * maxBytes;
    }
  }

  lemma InitialKept(retention: nat, maxBytes: nat)
    ensures Kept(Initial(retention), maxBytes)
  {
    EmptyDirectory(Initial(retention).dir);
  }

  lemma {:induction false} RunKeeps(retention: nat, maxBytes: nat, events: seq<Event>)
    requires 1 <= retention
    ensures Kept(Run(retention, maxBytes, events), maxBytes)
  {
    if events == [] {
      InitialKept(retention, maxBytes);
    } else {
      RunKeeps(retention, maxBytes, events[..|events| - 1]);
      StepKeeps(Run(retention, maxBytes, events[..|events| - 1]), maxBytes, events[|events| - 1]);
    }
  }

  /** Over every run, with writes that fail or crash at any step and with any number of restarts:
      the log on disk is a suffix of the log in memory and of the history, it is not empty once a
      record was accepted, and all files together stay within their budget. */
  lemma EveryRunKeepsASuffix(retention: nat, maxBytes: nat, events: seq<Event>)
    requires 1 <= retention
    ensures var s := Run(retention, maxBytes, events);
      && Suffix(Retained(s.dir), s.memory) && Suffix(Retained(s.dir), s.history)
      && (s.history != [] ==> Retained(s.dir) != [])
      && TotalSize(s.dir) <= (retention + 1) * maxBytes
  {
    var s := Run(retention, maxBytes, events);
    RunKeeps(retention, maxBytes, events);
    SuffixTrans(Retained(s.dir), s.memory, s.history);
    TotalBound(s.dir, maxBytes);
  }
}
