/** Relative path names: printing, parsing and the shared safety check. */
module Paths {
  import opened Texts
  import opened Trees

  /** `relative.as_posix()` */
  function Posix(p: Path): string {
    if p == [] then "." else if |p| == 1 then p[0] else p[0] + "/" + Posix(p[1..])
  }

  function Part(s: string): Path {
    if s == "" || s == "." then [] else [s]
  }

  /** `Path(value).parts` of a relative path; `open` is the part read so far. */
  function Parts(s: string, open: string): Path {
    if s == "" then Part(open)
    else if s[0] == '/' then Part(open) + Parts(s[1..], "")
    else Parts(s[1..], open + [s[0]])
  }

  predicate Unprintable(c: char) {
    c == '\0' || c == '\r' || c == '\n'
  }

  /** `_safe_relative`: the path a label, commit or archive member stands for, if it is acceptable. */
  function SafeRelative(name: string): Option<Path> {
    var path := Parts(name, "");
    if Blank(name) || |name| > 256 then None
    else if name[0] == '/' || ".." in path || UnsafeParts(path) then None
    else if exists i | 0 <= i < |name| :: Unprintable(name[i]) then None
    else Some(path)
  }

  lemma {:induction false} PartsOfName(a: string, rest: string, open: string)
    requires '/' !in a
    ensures Parts(a + rest, open) == Parts(rest, open + a)
  {
    if a == "" {
      assert a + rest == rest && open + a == open;
    } else {
      assert (a + rest)[1..] == a[1..] + rest;
      PartsOfName(a[1..], rest, open + [a[0]]);
      assert open + [a[0]] + a[1..] == open + a;
    }
  }

  predicate ProperPath(p: Path) {
    p != [] && forall i | 0 <= i < |p| :: ProperName(p[i])
  }

  /** Reading a printed path gives the path back. */
  lemma {:induction false} PosixRoundTrip(p: Path)
    requires ProperPath(p)
    ensures Parts(Posix(p), "") == p
  {
    if |p| == 1 {
      PartsOfName(p[0], "", "");
      assert p[0] + "" == p[0] && "" + p[0] == p[0];
      assert p == [p[0]];
    } else {
      PartsOfJoined(p[0], Posix(p[1..]));
      PosixRoundTrip(p[1..]);
      assert p == [p[0]] + p[1..];
    }
  }

  /** A name and what follows its slash are read one after the other. */
  lemma PartsOfJoined(name: string, rest: string)
    requires ProperName(name)
    ensures Parts(name + "/" + rest, "") == [name] + Parts(rest, "")
  {
    assert name + "/" + rest == name + ("/" + rest) && ("/" + rest)[1..] == rest && "" + name == name;
    PartsOfName(name, "/" + rest, "");
  }

  lemma {:induction false} PartsAreNames(s: string, open: string)
    requires '/' !in open
    ensures forall i | 0 <= i < |Parts(s, open)| ::
      var n := Parts(s, open)[i]; n != "" && n != "." && '/' !in n
    decreases |s|
  {
    if s != "" {
      if s[0] == '/' {
        PartsAreNames(s[1..], "");
      } else {
        PartsAreNames(s[1..], open + [s[0]]);
      }
    }
  }

  lemma {:induction false} PartsKeepCharacters(s: string, open: string, c: char)
    requires c !in s && c !in open
    ensures forall i | 0 <= i < |Parts(s, open)| :: c !in Parts(s, open)[i]
    decreases |s|
  {
    if s != "" {
      if s[0] == '/' {
        PartsKeepCharacters(s[1..], "", c);
      } else {
        PartsKeepCharacters(s[1..], open + [s[0]], c);
      }
    }
  }

  /** An accepted name stands for a path of proper names, and printing that path and reading it
      again gives the same path. */
  lemma AcceptedNamesAreStable(name: string)
    requires SafeRelative(name).Some?
    ensures var p := SafeRelative(name).value;
      (p == [] || ProperPath(p)) && !UnsafeParts(p) && Parts(Posix(p), "") == p
  {
    var p := Parts(name, "");
    PartsAreNames(name, "");
    PartsKeepCharacters(name, "", '\0');
    if p == [] {
      assert Parts(".", "") == Part(".");
    } else {
      PosixRoundTrip(p);
    }
  }

  /** How any text is read: at every slash it falls into two, and a piece without a slash is one part
      unless it is empty or a single dot. */
  lemma {:induction false} PartsSplit(s: string, t: string)
    ensures Parts(s + "/" + t, "") == Parts(s, "") + Parts(t, "")
    ensures '/' !in s ==> Parts(s, "") == if s == "" || s == "." then [] else [s]
  {
    PartsSplitFrom(s, t, "");
    if '/' !in s {
      PartsOfName(s, "", "");
      assert s + "" == s && "" + s == s;
    }
  }

  lemma {:induction false} PartsSplitFrom(s: string, t: string, open: string)
    ensures Parts(s + "/" + t, open) == Parts(s, open) + Parts(t, "")
    decreases |s|
  {
    if s == "" {
      assert s + "/" + t == "/" + t && ("/" + t)[1..] == t;
    } else {
      assert (s + "/" + t)[1..] == s[1..] + "/" + t;
      PartsSplitFrom(s[1..], t, if s[0] == '/' then "" else open + [s[0]]);
    }
  }

  /** No part leaves the root or is protected. */
  predicate PartsAllowed(path: Path) {
    forall part | part in path ::
      part != ".." && !(".env" <= part) && part !in {".git", "AGENTS.md", "INVENTORY.json", "logs", "backups"}
  }

  lemma SafePartsExactly(path: Path)
    ensures (".." !in path && !UnsafeParts(path)) <==> PartsAllowed(path)
  {
    assert UnsafeParts(path) <==> exists part :: part in path && UnsafePart(part);
  }

  lemma PrintableExactly(name: string)
    ensures (forall i | 0 <= i < |name| :: !Unprintable(name[i])) <==>
      '\0' !in name && '\r' !in name && '\n' !in name
  {
  }

  /** Which names are accepted: relative ones of visible printable text within the length limit, with no
      part that leaves the root or is protected. */
  lemma AcceptedNamesExactly(name: string)
    ensures SafeRelative(name).Some? <==>
      && (exists i :: 0 <= i < |name| && !Space(name[i])) && |name| <= 256 && name[0] != '/'
      && '\0' !in name && '\r' !in name && '\n' !in name && PartsAllowed(Parts(name, ""))
  {
    SafePartsExactly(Parts(name, ""));
    PrintableExactly(name);
  }

  lemma {:induction false} PosixLength(s: string, open: string)
    ensures |Posix(Parts(s, open))| <= if |open| + |s| == 0 then 1 else |open| + |s|
    decreases |s|
  {
    if s != "" {
      if s[0] == '/' {
        PosixLength(s[1..], "");
        var rest := Parts(s[1..], "");
        assert Part(open) == [open] ==> ([open] + rest)[1..] == rest;
        assert Part(open) == [] ==> Part(open) + rest == rest;
      } else {
        PosixLength(s[1..], open + [s[0]]);
      }
    }
  }

  lemma {:induction false} PosixCharacters(p: Path, c: char)
    requires c != '/' && c != '.' && forall i | 0 <= i < |p| :: c !in p[i]
    ensures c !in Posix(p)
  {
    if |p| > 1 {
      PosixCharacters(p[1..], c);
    }
  }

  /** The printed form of an accepted name is itself accepted for the same path, unless it is blank. */
  lemma PrintedNameAccepted(name: string)
    requires SafeRelative(name).Some?
    ensures var p := SafeRelative(name).value; SafeRelative(Posix(p)) == if Blank(Posix(p)) then None else Some(p)
  {
    var p := SafeRelative(name).value;
    AcceptedNamesAreStable(name);
    PosixLength(name, "");
    assert Posix(p) != "" && Posix(p)[0] != '/';
    forall i | 0 <= i < |Posix(p)| ensures !Unprintable(Posix(p)[i]) {
      var c := Posix(p)[i];
      if Unprintable(c) {
        PartsKeepCharacters(name, "", c);
        PosixCharacters(p, c);
      }
    }
  }
}
