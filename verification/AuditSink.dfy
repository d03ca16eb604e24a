/** The two audit objects, proved against the specification of the rotation module. */
module AuditSink {
  import opened Texts
  import opened AuditRotation
  import opened AuditRetention

  /** The sink: a fixed array of optional files, entry 0 the current one. */
  class JsonlAuditSink {
    const maxBytes: nat
    const retention: nat
    const files: array<Segment>

    ghost predicate Valid() {
      1 <= retention && files.Length == retention + 1
    }

    constructor (maxBytes: nat, retention: nat)
      requires 1024 <= maxBytes && 1 <= retention <= 16
      ensures Valid() && fresh(files)
      ensures this.maxBytes == maxBytes && this.retention == retention
      ensures files[..] == Initial(retention).dir
    {
      this.maxBytes := maxBytes;
      this.retention := retention;
      files := new Segment[retention + 1](_ => Absent);
    }

    /** Shifts the numbered files, oldest first; `steps` of the file operations succeed. */
    method Rotate(steps: nat) returns (done: bool)
      requires Valid()
      modifies files
      ensures done <==> steps > retention
      ensures files[..] == Stage(old(files[..]), if done then files.Length else steps)
    {
      ghost var before := files[..];
      if steps == 0 {
        return false;
      }
      if files[retention].File? {
        files[retention] := Absent;
      }
      assert files[..] == Stage(before, 1);
      var index := retention - 1;
      while index >= 1
        invariant 0 <= index < retention
        invariant steps >= retention - index
        invariant files[..] == Stage(before, retention - index)
      {
        if steps == retention - index {
          return false;
        }
        if files[index].File? {
          files[index + 1] := files[index];
          files[index] := Absent;
        }
        assert files[..] == Move(Stage(before, retention - index), index);
        index := index - 1;
      }
      if steps == retention {
        return false;
      }
      if files[0].File? {
        files[1] := files[0];
        files[0] := Absent;
      }
      assert files[..] == Move(Stage(before, retention), 0);
      done := true;
    }

    method Write(attempt: Attempt) returns (outcome: Outcome)
      requires Valid()
      modifies files
      ensures (files[..], outcome) == AuditRotation.Write(old(files[..]), maxBytes, attempt)
    {
      var record := attempt.record;
      if !record.safe || LineSize(record) > maxBytes {
        return Rejected;
      }
      var currentSize := Size(Lines(files[0]));
      assert files[..][0] == files[0];
      if currentSize + LineSize(record) > maxBytes {
        var done := Rotate(attempt.steps);
        if !done {
          return Failed;
        }
      }
      if !attempt.appends {
        return Failed;
      }
      ghost var ready := files[..];
      files[0] := File(Lines(files[0]) + [record]);
      assert files[..] == Appended(ready, record);
      outcome := Written;
    }

    /** Reloads the retained records in chronological file order, oldest file first. */
    method Read() returns (result: Result<seq<Record>>)
      requires Valid()
      ensures result.Ok? <==>
        && (forall i | 0 <= i < files.Length :: Size(Lines(files[i])) <= maxBytes)
        && (forall r | r in Retained(files[..]) :: Decodable(r)) && DistinctIds(Retained(files[..]))
      ensures result.Ok? ==> result.value == Retained(files[..])
    {
      ghost var dir := files[..];
      var records: seq<Record> := [];
      var i := files.Length;
      assert dir[i..] == [];
      while i > 0
        invariant 0 <= i <= files.Length
        invariant records == Retained(dir[i..]) && Loadable(records)
        invariant BoundedFrom(dir, i, maxBytes)
      {
        i := i - 1;
        RetainedSuffix(dir, i);
        if Size(Lines(files[i])) > maxBytes {
          return Refused;
        }
        var ok;
        ok, records := ReadFile(records, Lines(files[i]));
        if !ok {
          UnloadablePrefix(dir, i);
          return Refused;
        }
      }
      assert dir[0..] == dir;
      result := Ok(records);
    }

    /** One file: its lines are appended to what the older files gave. */
    static method ReadFile(older: seq<Record>, lines: seq<Record>) returns (ok: bool, records: seq<Record>)
      requires Loadable(older)
      ensures ok <==> Loadable(older + lines)
      ensures ok ==> records == older + lines
    {
      records := older;
      var ids := set r | r in older :: r.id;
      for j := 0 to |lines|
        invariant records == older + lines[..j] && Loadable(records)
        invariant ids == set r | r in records :: r.id
      {
        var record := lines[j];
        if !Decodable(record) || record.id in ids {
          RejectedLine(older, lines, j);
          return false, records;
        }
        assert older + lines[..j + 1] == records + [record];
        ids := ids + {record.id};
        records := records + [record];
      }
      assert lines[..|lines|] == lines;
      ok := true;
    }
  }

  predicate BoundedFrom(dir: Directory, i: nat, maxBytes: nat) {
    forall j | i <= j < |dir| :: Size(Lines(dir[j])) <= maxBytes
  }

  ghost predicate Loadable(records: seq<Record>) {
    DistinctIds(records) && forall r | r in records :: Decodable(r)
  }

  lemma RetainedSuffix(dir: Directory, i: nat)
    requires i < |dir|
    ensures Retained(dir[i..]) == Retained(dir[i + 1..]) + Lines(dir[i])
  {
    assert dir[i..][1..] == dir[i + 1..];
  }

  lemma RejectedLine(older: seq<Record>, lines: seq<Record>, j: nat)
    requires j < |lines|
    requires !Decodable(lines[j]) || exists r :: r in older + lines[..j] && r.id == lines[j].id
    ensures !Loadable(older + lines)
  {
    var all, at := older + lines, |older| + j;
    assert all[at] == lines[j];
    if Decodable(lines[j]) {
      var r :| r in older + lines[..j] && r.id == lines[j].id;
      var k :| 0 <= k < at && (older + lines[..j])[k] == r;
      assert all[k] == r;
    }
  }

  /** What the oldest files already refuse, the whole directory refuses. */
  lemma UnloadablePrefix(dir: Directory, i: nat)
    requires i <= |dir| && !Loadable(Retained(dir[i..]))
    ensures !Loadable(Retained(dir))
  {
    RetainedSplits(dir[..i], dir[i..]);
    assert dir == dir[..i] + dir[i..];
    var older, all := Retained(dir[i..]), Retained(dir);
    assert forall k | 0 <= k < |older| :: all[k] == older[k];
  }

  lemma RestartIs(s: State, maxBytes: nat)
    requires 2 <= |s.dir| && Kept(s, maxBytes)
    ensures Step(s, maxBytes, AuditRotation.Restart) == State(s.dir, Retained(s.dir), s.history)
    ensures Kept(State(s.dir, Retained(s.dir), s.history), maxBytes)
  {
    StepKeeps(s, maxBytes, AuditRotation.Restart);
  }

  /** The in-memory log over a sink.  `history` is every record it ever accepted, across restarts. */
  class MetadataAuditLog {
    const sink: JsonlAuditSink
    var records: seq<Record>
    ghost var history: seq<Record>

    ghost function Now(): State
      reads this, sink.files
    {
      State(sink.files[..], records, history)
    }

    ghost predicate Valid()
      reads this, sink.files
    {
      sink.Valid() && Kept(Now(), sink.maxBytes)
    }

    constructor (sink: JsonlAuditSink)
      requires sink.Valid() && sink.files[..] == Initial(sink.retention).dir
      ensures Valid() && Now() == Initial(sink.retention) && this.sink == sink
    {
      this.sink := sink;
      records, history := [], [];
      new;
      InitialKept(sink.retention, sink.maxBytes);
    }

    /** Memory grows only after the sink accepted the record. */
    method Append(attempt: Attempt) returns (accepted: bool)
      requires Valid()
      modifies this, sink.files
      ensures Valid() && Now() == Step(old(Now()), sink.maxBytes, AuditRotation.Append(attempt))
      ensures accepted <==> records == old(records) + [attempt.record]
    {
      StepKeeps(Now(), sink.maxBytes, AuditRotation.Append(attempt));
      var outcome := sink.Write(attempt);
      accepted := outcome == Written;
      if accepted {
        records := records + [attempt.record];
        history := history + [attempt.record];
      }
    }

    /** A new process: memory is whatever the sink still holds, or the start is refused. */
    method Restart() returns (ok: bool)
      requires Valid()
      modifies this
      ensures Valid() && ok == Readable(sink.files[..], sink.maxBytes)
      ensures Now() == if ok then Step(old(Now()), sink.maxBytes, AuditRotation.Restart) else old(Now())
    {
      RestartIs(Now(), sink.maxBytes);
      var loaded := sink.Read();
      ok := loaded.Ok?;
      if ok {
        records := loaded.value;
      }
    }
  }
}
