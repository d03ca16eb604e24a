/** Text as every workflow of the control center sees it.

    The two screens (secret-like content, raw stream content) and the redactor are regular
    expressions in the source.  They enter the model as the fields of a `Screen`: any three
    functions with the four laws that the expressions obey.  Every theorem that mentions a
    screen therefore holds for the real expressions too. */
module Texts {

  datatype Option<+T> = None | Some(value: T)
  datatype Result<+T> = Ok(value: T) | Refused

  /** `str.isspace`, code point by code point. */
  predicate Space(c: char) {
    var n := c as int;
    || 0x09 <= n <= 0x0D || 0x1C <= n <= 0x20 || n == 0x85 || n == 0xA0 || n == 0x1680
    || 0x2000 <= n <= 0x200A || n == 0x2028 || n == 0x2029 || n == 0x202F || n == 0x205F || n == 0x3000
  }

  /** `not value.strip()` */
  predicate Blank(s: string) {
    forall i | 0 <= i < |s| :: Space(s[i])
  }

  /** Some character is below 32. */
  predicate HasControl(s: string) {
    exists i | 0 <= i < |s| :: s[i] < ' '
  }

  function StripLeft(s: string): string {
    if s != "" && Space(s[0]) then StripLeft(s[1..]) else s
  }

  function StripRight(s: string): string {
    if s != "" && Space(s[|s| - 1]) then StripRight(s[..|s| - 1]) else s
  }

  /** `value.strip()` */
  function Strip(s: string): string {
    StripRight(StripLeft(s))
  }

  lemma {:induction false} StripLeftShape(s: string) returns (k: nat)
    ensures k <= |s| && StripLeft(s) == s[k..] && Blank(s[..k])
    ensures var t := StripLeft(s); t == "" || !Space(t[0])
  {
    if s != "" && Space(s[0]) {
      k := StripLeftShape(s[1..]);
      assert s[1..][k..] == s[k + 1..];
      assert s[..k + 1] == [s[0]] + s[1..][..k];
      k := k + 1;
    } else {
      k := 0;
    }
  }

  lemma {:induction false} StripRightShape(s: string)
    ensures var t := StripRight(s); |t| <= |s| && t == s[..|t|] && (t == "" || !Space(t[|t| - 1]))
    ensures Blank(s) <==> StripRight(s) == ""
  {
    if s != "" && Space(s[|s| - 1]) {
      StripRightShape(s[..|s| - 1]);
      assert Blank(s) <==> Blank(s[..|s| - 1]) by {
        assert forall i | 0 <= i < |s| - 1 :: s[..|s| - 1][i] == s[i];
      }
    }
  }

  /** A text whose blank head is cut off is blank exactly when the rest is. */
  lemma BlankBehind(s: string, k: nat)
    requires k <= |s| && Blank(s[..k])
    ensures Blank(s) <==> Blank(s[k..])
  {
    assert forall i | 0 <= i < |s| :: if i < k then s[i] == s[..k][i] else s[i] == s[k..][i - k];
    assert forall i | 0 <= i < |s[k..]| :: s[k..][i] == s[i + k];
  }

  /** Stripping twice is stripping once, and nothing is left exactly of blank text. */
  lemma StripIdempotent(s: string)
    ensures Strip(Strip(s)) == Strip(s) && |Strip(s)| <= |s|
    ensures Blank(s) <==> Strip(s) == ""
    ensures Strip(s) == "" || (!Blank(Strip(s)) && Strip(s)[0] == StripLeft(s)[0])
  {
    var k := StripLeftShape(s);
    StripRightShape(StripLeft(s));
    BlankBehind(s, k);
    var t := Strip(s);
    if t != "" {
      assert !Space(t[0]) && !Space(t[|t| - 1]);
      assert StripLeft(t) == t && StripRight(t) == t;
    }
  }

  datatype Rules = Rules(secret: string -> bool, raw: string -> bool, redact: string -> string) {
    predicate Clean(s: string) {
      !secret(s) && !raw(s)
    }

    /** The shared text check: non-blank, bounded, screened and free of control characters. */
    predicate Safe(s: string, limit: nat) {
      !Blank(s) && |s| <= limit && Clean(s) && !HasControl(s)
    }
  }

  /** Some character that is no white space, limited length, clean under both screens and no character
      below the space. */
  lemma SafeExactly(r: Rules, s: string, limit: nat)
    ensures r.Safe(s, limit) <==>
      && (exists i :: 0 <= i < |s| && !Space(s[i])) && |s| <= limit && !r.secret(s) && !r.raw(s)
      && forall i | 0 <= i < |s| :: 32 <= s[i] as int
  {
  }

  /** What the expressions guarantee: redaction leaves text without a secret alone, marks every
      text that had one, nothing is flagged without a colon, an equals sign or both a dash and a
      space, and stripping white space flags nothing new. */
  ghost predicate Lawful(r: Rules) {
    && (forall s :: !r.secret(s) ==> r.redact(s) == s)
    && (forall s :: r.secret(s) ==> '[' in r.redact(s))
    && (forall s :: !r.Clean(s) ==> ':' in s || '=' in s || ('-' in s && ' ' in s))
    && (forall s :: r.Clean(s) ==> r.Clean(Strip(s)))
  }

  type Screen = r: Rules | Lawful(r) witness Rules(s => false, s => false, s => s)

  lemma StripKeepsPrintable(s: string)
    requires !HasControl(s)
    ensures !HasControl(Strip(s))
  {
    var k := StripLeftShape(s);
    var u := StripLeft(s);
    StripRightShape(u);
    forall i | 0 <= i < |Strip(s)| ensures Strip(s)[i] >= ' ' {
      assert Strip(s)[i] == u[i] == s[k + i];
    }
  }

  /** Safe text stays safe when it is stripped, and stripping it again changes nothing. */
  lemma StripKeepsSafe(x: Screen, s: string, limit: nat)
    requires x.Safe(s, limit)
    ensures x.Safe(Strip(s), limit) && Strip(Strip(s)) == Strip(s)
  {
    StripIdempotent(s);
    StripKeepsPrintable(s);
    assert x.Clean(s);
  }
}
