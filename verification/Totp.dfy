/** Time-based one-time codes (section 5.3 of RFC 4226, section 4.2 of RFC 6238). */
module Totp {
  import opened ByteStrings
  import opened Wrappers
  import opened PageText

  /** What the metadata of a credential says; `Supported` is what the broker
      accepts of it. */
  datatype Generator = Generator(period: nat, digits: nat)
  {
    predicate Supported() {
      5 <= period <= 300 && (digits == 6 || digits == 8)
    }
  }

  datatype TotpError = SessionExpired

  const MARGIN: nat := 2
  const MAC_BYTES: nat := 20

  type Mac = s: Bytes | |s| == MAC_BYTES witness seq(MAC_BYTES, _ => 0)

  function TimeStep(g: Generator, unix: nat): (r: (nat, nat))
    requires g.period > 0
  {
    (unix / g.period, g.period - unix % g.period)
  }

  function Pow10(k: nat): (p: nat)
    ensures p > 0
  {
    if k == 0 then 1 else 10 * Pow10(k - 1)
  }

  /** Dynamic truncation: 31 bits from where the last half-byte points. */
  function Truncation(mac: Mac): (binary: nat)
    ensures binary < 0x8000_0000
  {
    var offset := mac[19] as nat % 16;
    (mac[offset] as nat % 128) * 0x100_0000 + mac[offset + 1] as nat * 0x1_0000
    + mac[offset + 2] as nat * 0x100 + mac[offset + 3] as nat
  }

  /** Decimal with leading zeros up to a width. */
  function Padded(n: nat, width: nat): Text {
    var s := Decimal(n);
    if |s| >= width then s else seq(width - |s|, _ => '0') + s
  }

  /** The code of a time step. `hmac` is HMAC-SHA-1, keyed first. */
  function CodeText(g: Generator, hmac: (Bytes, Bytes) -> Mac, seed: Bytes, step: nat): Text {
    Padded(Truncation(hmac(seed, BigEndian(step, 8))) % Pow10(g.digits), g.digits)
  }

  function Generate(g: Generator, hmac: (Bytes, Bytes) -> Mac, seed: Bytes, unix: nat): Result<(Text, nat), TotpError>
    requires g.period > 0
  {
    var (step, remaining) := TimeStep(g, unix);
    if remaining < MARGIN then Failure(SessionExpired)
    else Success((CodeText(g, hmac, seed, step), step))
  }

  lemma {:induction false} DecimalLength(n: nat, k: nat)
    requires k > 0
    ensures |Decimal(n)| <= k <==> n < Pow10(k)
  {
    if n >= 10 {
      if k > 1 {
        DecimalLength(n / 10, k - 1);
      } else {
        assert Pow10(1) == 10 * Pow10(0);
      }
    } else {
      assert Pow10(k) == 10 * Pow10(k - 1);
    }
  }

  /** A code has exactly the configured number of digits, all of them decimal,
      and is made from the MAC of the step that contains `unix`. */
  lemma CodeHasItsDigits(g: Generator, hmac: (Bytes, Bytes) -> Mac, seed: Bytes, unix: nat)
    requires g.period > 0 && g.digits > 0
    requires Generate(g, hmac, seed, unix).Success?
    ensures var (code, step) := Generate(g, hmac, seed, unix).value;
            && |code| == g.digits && (forall i :: 0 <= i < |code| ==> '0' <= code[i] <= '9')
            && g.period * step <= unix < g.period * step + g.period
  {
    var step := unix / g.period;
    var otp := Truncation(hmac(seed, BigEndian(step, 8))) % Pow10(g.digits);
    DecimalLength(otp, g.digits);
    assert unix == g.period * step + unix % g.period;
  }

  /** A code is handed out exactly when its step has two more seconds to run. */
  lemma CodeIffMargin(g: Generator, hmac: (Bytes, Bytes) -> Mac, seed: Bytes, unix: nat)
    requires g.period > 0
    ensures Generate(g, hmac, seed, unix).Success? <==> unix % g.period + MARGIN <= g.period
    ensures Generate(g, hmac, seed, unix).Success? ==>
              TimeStep(g, unix + MARGIN - 1).0 == Generate(g, hmac, seed, unix).value.1
  {
    var q, r := unix / g.period, unix % g.period;
    if r + MARGIN <= g.period {
      assert unix + MARGIN - 1 == g.period * q + (r + MARGIN - 1);
      DivModUnique(unix + MARGIN - 1, g.period, q, r + MARGIN - 1);
    }
  }

  /** Too near the end of a step the handler first sleeps out what remains; it
      then stands at the start of a later step, so unless it oversleeps into the
      next margin the code can be made. */
  lemma WaitingCrossesTheBoundary(g: Generator, unix: nat, slept: nat)
    requires g.period >= 5 && TimeStep(g, unix).1 < MARGIN
    requires TimeStep(g, unix).1 <= slept
    ensures TimeStep(g, unix + slept).0 > TimeStep(g, unix).0
    ensures slept <= TimeStep(g, unix).1 + g.period - MARGIN ==> TimeStep(g, unix + slept).1 >= MARGIN
  {
    var p, q, r := g.period, unix / g.period, unix % g.period;
    assert unix == p * q + r;
    var over := slept - (p - r);
    assert unix + slept == p * (q + 1) + over;
    LaterStep(p, q + 1, over);
    if over <= p - MARGIN {
      DivModUnique(unix + slept, p, q + 1, over);
    }
  }

  lemma LaterStep(p: nat, q: nat, over: nat)
    requires p > 0
    ensures (p * q + over) / p >= q
  {
    var d, m := over / p, over % p;
    assert p * q + over == p * (q + d) + m;
    DivModUnique(p * q + over, p, q + d, m);
  }
}
