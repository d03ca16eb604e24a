/** Time-based one-time codes: the truncation, the code text and the window of counters. */
module Totp {
  import opened Texts
  import opened Numerals

  type Byte = b: nat | b < 256

  /** HMAC-SHA-1: any function of key and message with 20-byte results. */
  type Mac = f: (seq<Byte>, seq<Byte>) -> seq<Byte> | forall k, m :: |f(k, m)| == 20 witness (k, m) => seq(20, _ => 0)

  // ----- bytes and numbers, most significant byte first -----

  /** `int.from_bytes(s, "big")` */
  function FromBytes(s: seq<Byte>): nat {
    if s == [] then 0 else FromBytes(s[..|s| - 1]) * 256 + s[|s| - 1]
  }

  /** `n.to_bytes(width, "big")`, None where it overflows. */
  function ToBytes(n: nat, width: nat): Option<seq<Byte>> {
    if width == 0 then if n == 0 then Some([]) else None
    else match ToBytes(n / 256, width - 1)
      case None => None
      case Some(high) => Some(high + [n % 256])
  }

  function Power256(w: nat): (p: nat)
    ensures p > 0
  {
    if w == 0 then 1 else 256 * Power256(w - 1)
  }

  /** The bytes of a number read back as the number, and exist exactly below the range of the width. */
  lemma {:induction false} BytesRoundTrip(n: nat, width: nat)
    ensures ToBytes(n, width).Some? <==> n < Power256(width)
    ensures ToBytes(n, width).Some? ==> |ToBytes(n, width).value| == width && FromBytes(ToBytes(n, width).value) == n
  {
    if width > 0 {
      BytesRoundTrip(n / 256, width - 1);
      if ToBytes(n, width).Some? {
        var s := ToBytes(n, width).value;
        assert s[..|s| - 1] == ToBytes(n / 256, width - 1).value;
      }
    }
  }

  // ----- the code -----

  function Offset(digest: seq<Byte>): (k: nat)
    requires |digest| == 20
    ensures k + 4 <= |digest|
  {
    digest[19] % 16
  }

  /** The four bytes at the offset without their top bit. */
  function Truncated(digest: seq<Byte>): nat
    requires |digest| == 20
  {
    FromBytes(digest[Offset(digest)..Offset(digest) + 4]) % 0x8000_0000
  }

  /** Dynamic truncation as section 5.3 of RFC 4226 writes it: the top bit of the first byte is masked
      and the bytes are shifted into place. */
  function DynamicTruncation(digest: seq<Byte>): nat
    requires |digest| == 20
  {
    var k := digest[19] % 16;
    var a: nat, b: nat, c: nat, d: nat := digest[k], digest[k + 1], digest[k + 2], digest[k + 3];
    a % 128 * 0x100_0000 + b * 0x1_0000 + c * 0x100 + d
  }

  lemma FourBytes(a: Byte, b: Byte, c: Byte, d: Byte)
    ensures FromBytes([a, b, c, d]) == a * 0x100_0000 + b * 0x1_0000 + c * 0x100 + d
  {
    OneMoreByte([], a);
    OneMoreByte([a], b);
    OneMoreByte([a, b], c);
    OneMoreByte([a, b, c], d);
    assert [] + [a] == [a] && [a] + [b] == [a, b] && [a, b] + [c] == [a, b, c] && [a, b, c] + [d] == [a, b, c, d];
  }

  lemma OneMoreByte(s: seq<Byte>, b: Byte)
    ensures FromBytes(s + [b]) == FromBytes(s) * 256 + b
  {
    assert (s + [b])[..|s|] == s;
  }

  lemma TruncationIsStandard(digest: seq<Byte>)
    requires |digest| == 20
    ensures Truncated(digest) == DynamicTruncation(digest) < 0x8000_0000
  {
    var k := Offset(digest);
    assert digest[k..k + 4] == [digest[k], digest[k + 1], digest[k + 2], digest[k + 3]];
    FourBytes(digest[k], digest[k + 1], digest[k + 2], digest[k + 3]);
    var a := digest[k];
    assert a == a / 128 * 128 + a % 128;
    MaskTop(a / 128, DynamicTruncation(digest));
  }

  lemma MaskTop(q: nat, low: nat)
    requires low < 0x8000_0000
    ensures (q * 0x8000_0000 + low) % 0x8000_0000 == low
  {
  }

  /** `_totp_code`; Refused where the counter does not fit eight bytes. */
  function Code(mac: Mac, secret: seq<Byte>, counter: int, digits: nat): Result<string> {
    if counter < 0 then Ok(Zeros(digits))
    else match ToBytes(counter, 8)
      case None => Refused
      case Some(message) => Ok(ZeroFill(Decimal(Truncated(mac(secret, message)) % Power10(digits)), digits))
  }

  /** Every code has exactly the configured number of decimal digits, and for a counter that is not
      negative it spells the truncated digest modulo that power of ten. */
  lemma CodeShape(mac: Mac, secret: seq<Byte>, counter: int, digits: nat)
    requires 0 < digits
    ensures var c := Code(mac, secret, counter, digits);
      && (c.Ok? <==> counter < Power256(8))
      && (c.Ok? ==> |c.value| == digits && forall i | 0 <= i < digits :: '0' <= c.value[i] <= '9')
      && (c.Ok? && counter >= 0 ==>
            Value(c.value) == DynamicTruncation(mac(secret, ToBytes(counter, 8).value)) % Power10(digits))
      && (counter < 0 ==> forall i | 0 <= i < digits :: c.value[i] == '0')
  {
    if counter >= 0 {
      BytesRoundTrip(counter, 8);
      if counter < Power256(8) {
        var digest := mac(secret, ToBytes(counter, 8).value);
        TruncationIsStandard(digest);
        ZeroFilled(Truncated(digest) % Power10(digits), digits);
      }
    }
  }

  // ----- counters and time -----

  /** `int(clock // period)` */
  function CounterAt(t: real, period: nat): int
    requires 0 < period
  {
    (t / period as real).Floor
  }

  /** The time at which a counter begins. */
  function Start(k: int, period: nat): real {
    k as real * period as real
  }

  lemma Scale(a: real, b: real, p: real)
    requires 0.0 < p
    ensures a <= b ==> a * p <= b * p
    ensures a < b ==> a * p < b * p
  {
  }

  lemma StartsGrow(j: int, k: int, period: nat)
    requires j <= k
    ensures Start(j, period) <= Start(k, period)
  {
    if period > 0 {
      Scale(j as real, k as real, period as real);
    }
  }

  lemma StartPlus(j: int, k: int, period: nat)
    ensures Start(j + k, period) == Start(j, period) + Start(k, period)
  {
    assert (j + k) as real == j as real + k as real;
    Distribute(j as real, k as real, period as real);
  }

  lemma Distribute(a: real, b: real, p: real)
    ensures (a + b) * p == a * p + b * p
  {
  }

  /** A counter is the one whose interval holds the time. */
  lemma CounterBounds(t: real, period: nat)
    requires 0 < period
    ensures Start(CounterAt(t, period), period) <= t < Start(CounterAt(t, period) + 1, period)
  {
    var q, c := t / period as real, CounterAt(t, period);
    assert q * period as real == t;
    assert c as real <= q < (c + 1) as real;
    Scale(c as real, q, period as real);
    Scale(q, (c + 1) as real, period as real);
  }

  lemma CounterUnique(t: real, period: nat, k: int)
    requires 0 < period && Start(k, period) <= t < Start(k + 1, period)
    ensures CounterAt(t, period) == k
  {
    var d := CounterAt(t, period);
    CounterBounds(t, period);
    if d < k {
      StartsGrow(d + 1, k, period);
    } else if k < d {
      StartsGrow(k + 1, d, period);
    }
  }

  lemma LaterCounters(t: real, u: real, period: nat)
    requires 0 < period && t <= u
    ensures CounterAt(t, period) <= CounterAt(u, period)
  {
    CounterBounds(t, period);
    CounterBounds(u, period);
    if CounterAt(u, period) < CounterAt(t, period) {
      StartsGrow(CounterAt(u, period) + 1, CounterAt(t, period), period);
    }
  }

  lemma PeriodsLater(t: real, period: nat, steps: nat)
    requires 0 < period
    ensures CounterAt(t + Start(steps, period), period) == CounterAt(t, period) + steps
  {
    var c := CounterAt(t, period);
    CounterBounds(t, period);
    StartPlus(c, steps, period);
    StartPlus(c + 1, steps, period);
    CounterUnique(t + Start(steps, period), period, c + steps);
  }

  /** Times at most `steps` periods apart have counters at most `steps` apart. */
  lemma CountersNearby(t: real, u: real, period: nat, steps: nat)
    requires 0 < period && t <= u <= t + Start(steps, period)
    ensures CounterAt(t, period) <= CounterAt(u, period) <= CounterAt(t, period) + steps
  {
    LaterCounters(t, u, period);
    LaterCounters(u, t + Start(steps, period), period);
    PeriodsLater(t, period, steps);
  }

  /** Every counter of the window starts less than one period more than the allowed steps away. */
  lemma WindowStarts(t: real, counter: int, period: nat, steps: nat)
    requires 0 < period && CounterAt(t, period) - steps <= counter <= CounterAt(t, period) + steps
    ensures t - Start(steps + 1, period) < Start(counter, period) < t + Start(steps + 1, period)
  {
    var c := CounterAt(t, period);
    CounterBounds(t, period);
    StartsGrow(c + 1, counter + (steps + 1), period);
    StartPlus(counter, steps + 1, period);
    StartsGrow(counter + 1, c + (steps + 1), period);
    StartPlus(c, steps + 1, period);
    StartPlus(counter, 1, period);
    StartsGrow(0, 1, period);
    StrictlyOne(period);
  }

  lemma StrictlyOne(period: nat)
    requires 0 < period
    ensures Start(1, period) == period as real > 0.0 && Start(0, period) == 0.0
  {
  }

  // ----- the verifier -----

  /** Codes of the window at time t, by counter. */
  ghost predicate MatchesSome(mac: Mac, secret: seq<Byte>, digits: nat, otp: string, low: int, high: int) {
    exists k | low <= k < high :: Code(mac, secret, k, digits) == Ok(otp)
  }

  /** The decimal digits of Unicode: among the ASCII characters exactly the ten digits. */
  type Decimals = f: char -> bool | forall c | c < 128 as char :: f(c) <==> '0' <= c <= '9' witness c => '0' <= c <= '9'

  predicate LooksLikeCode(decimal: Decimals, otp: string, digits: nat) {
    |otp| == digits && forall i | 0 <= i < |otp| :: decimal(otp[i])
  }

  predicate Ascii(s: string) {
    forall i | 0 <= i < |s| :: s[i] < 128 as char
  }

  /** What the verifier accepts around a counter. */
  ghost predicate Accepted(
      mac: Mac, decimal: Decimals, secret: seq<Byte>, digits: nat, otp: string, counter: int, steps: nat)
  {
    && LooksLikeCode(decimal, otp, digits) && Ascii(otp)
    && MatchesSome(mac, secret, digits, otp, counter - steps, counter + steps + 1)
  }

  /** A code looks like one: its length and its digits are right. */
  lemma MatchIsAccepted(
      mac: Mac, decimal: Decimals, secret: seq<Byte>, digits: nat, otp: string, counter: int, steps: nat)
    requires 0 < digits
    ensures MatchesSome(mac, secret, digits, otp, counter - steps, counter + steps + 1) <==>
      Accepted(mac, decimal, secret, digits, otp, counter, steps)
  {
    if MatchesSome(mac, secret, digits, otp, counter - steps, counter + steps + 1) {
      var k :| counter - steps <= k < counter + steps + 1 && Code(mac, secret, k, digits) == Ok(otp);
      CodeShape(mac, secret, k, digits);
    }
  }

  class TotpVerifier {
    const mac: Mac
    const decimal: Decimals
    const period: nat
    const digits: nat
    const allowedSteps: nat
    var secrets: map<string, seq<Byte>>

    predicate Configured() {
      0 < period && (digits == 6 || digits == 8) && allowedSteps <= 2
    }

    /** Other parameters are refused by the source. */
    constructor (mac: Mac, decimal: Decimals, secrets: map<string, seq<Byte>>, period: nat, digits: nat,
        allowedSteps: nat)
      requires 0 < period && (digits == 6 || digits == 8) && allowedSteps <= 2
      ensures Configured() && this.secrets == secrets && this.period == period && this.digits == digits
      ensures this.allowedSteps == allowedSteps && this.mac == mac && this.decimal == decimal
    {
      this.mac, this.decimal, this.secrets, this.period, this.digits, this.allowedSteps :=
        mac, decimal, secrets, period, digits, allowedSteps;
    }

    /** Accepted exactly when the text is the code of a counter in the window.  The comparison raises
        for digits outside ASCII and the code raises for a counter beyond eight bytes. */
    method Verify(userId: string, otp: string, now: real) returns (r: Result<bool>)
      requires Configured()
      ensures userId !in secrets || |otp| != digits || (exists i | 0 <= i < |otp| :: !decimal(otp[i])) ==>
        r == Ok(false)
      ensures r == Ok(true) <==>
        && userId in secrets
        && exists k | CounterAt(now, period) - allowedSteps <= k < CounterAt(now, period) + allowedSteps + 1 ::
             Code(mac, secrets[userId], k, digits) == Ok(otp)
      ensures r == Ok(true) ==>
        Accepted(mac, decimal, secrets[userId], digits, otp, CounterAt(now, period), allowedSteps)
      ensures r == Refused ==>
        (exists i | 0 <= i < |otp| :: otp[i] >= 128 as char) || CounterAt(now, period) + allowedSteps >= Power256(8)
      ensures (userId in secrets && |otp| == digits && (forall i | 0 <= i < |otp| :: decimal(otp[i]))
               && (exists i | 0 <= i < |otp| :: otp[i] >= 128 as char)) ==> r == Refused
    {
      if userId in secrets {
        MatchIsAccepted(mac, decimal, secrets[userId], digits, otp, CounterAt(now, period), allowedSteps);
      }
      if userId !in secrets || !LooksLikeCode(decimal, otp, digits) {
        return Ok(false);
      }
      r := Search(secrets[userId], otp, CounterAt(now, period));
    }

    /** The loop over the window around a counter. */
    method Search(secret: seq<Byte>, otp: string, counter: int) returns (r: Result<bool>)
      requires Configured()
      ensures r == Ok(true) <==>
        Ascii(otp) && MatchesSome(mac, secret, digits, otp, counter - allowedSteps, counter + allowedSteps + 1)
      ensures r == Refused ==> !Ascii(otp) || counter + allowedSteps >= Power256(8)
      ensures !Ascii(otp) ==> r == Refused
    {
      for offset: int := 0 - allowedSteps to allowedSteps + 1
        invariant offset > 0 - allowedSteps ==> Ascii(otp)
        invariant !MatchesSome(mac, secret, digits, otp, counter - allowedSteps, counter + offset)
      {
        var candidate := Code(mac, secret, counter + offset, digits);
        if candidate.Refused? {
          NoneLater(mac, secret, digits, otp, counter - allowedSteps, counter + offset, counter + allowedSteps + 1);
          return Refused;
        }
        if !Ascii(otp) {
          return Refused;
        }
        if candidate.value == otp {
          assert Code(mac, secret, counter + offset, digits) == Ok(otp);
          return Ok(true);
        }
        OneMore(mac, secret, digits, otp, counter - allowedSteps, counter + offset);
      }
      r := Ok(false);
    }
  }

  lemma OneMore(mac: Mac, secret: seq<Byte>, digits: nat, otp: string, low: int, k: int)
    requires !MatchesSome(mac, secret, digits, otp, low, k) && Code(mac, secret, k, digits) != Ok(otp)
    ensures !MatchesSome(mac, secret, digits, otp, low, k + 1)
  {
    forall j | low <= j < k + 1 ensures Code(mac, secret, j, digits) != Ok(otp) {
      assert j < k ==> Code(mac, secret, j, digits) != Ok(otp);
    }
  }

  lemma NoneLater(mac: Mac, secret: seq<Byte>, digits: nat, otp: string, low: int, k: int, high: int)
    requires 0 < digits && k < high && !MatchesSome(mac, secret, digits, otp, low, k)
    requires Code(mac, secret, k, digits).Refused?
    ensures !MatchesSome(mac, secret, digits, otp, low, high) && k >= Power256(8)
  {
    LaterCodesRefuse(mac, secret, k, digits);
    forall j | low <= j < high ensures Code(mac, secret, j, digits) != Ok(otp) {
      assert j < k ==> Code(mac, secret, j, digits) != Ok(otp);
    }
  }

  /** Beyond the first counter without a code there is none. */
  lemma LaterCodesRefuse(mac: Mac, secret: seq<Byte>, counter: int, digits: nat)
    requires 0 < digits && Code(mac, secret, counter, digits).Refused?
    ensures counter >= Power256(8) && forall k | counter <= k :: Code(mac, secret, k, digits).Refused?
  {
    CodeShape(mac, secret, counter, digits);
    forall k | counter <= k ensures Code(mac, secret, k, digits).Refused? {
      CodeShape(mac, secret, k, digits);
    }
  }

  /** A code made at one time is accepted at every time at most the allowed steps of periods away. */
  lemma AcceptedNearby(
      mac: Mac, decimal: Decimals, secret: seq<Byte>, made: real, now: real, period: nat, digits: nat, steps: nat)
    requires 0 < period && 0 < digits && Code(mac, secret, CounterAt(made, period), digits).Ok?
    requires made - Start(steps, period) <= now <= made + Start(steps, period)
    ensures var code := Code(mac, secret, CounterAt(made, period), digits).value;
      Accepted(mac, decimal, secret, digits, code, CounterAt(now, period), steps)
  {
    if made <= now {
      CountersNearby(made, now, period, steps);
    } else {
      CountersNearby(now, made, period, steps);
    }
    var k := CounterAt(made, period);
    CodeShape(mac, secret, k, digits);
    assert Code(mac, secret, k, digits) == Ok(Code(mac, secret, k, digits).value);
  }
}
