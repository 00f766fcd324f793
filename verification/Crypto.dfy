/**
 Keyed hashing, encryption and PIN generation (app/core/crypto.py).

 The HMAC is a free constructor, hence injective; a ciphertext remembers its plain text,
 hence decryption undoes encryption. PINs are modelled digit by digit.
 */
module Crypto {
  import opened Basics

  datatype PartyHash = PartyHash(of: string)

  datatype Cipher = Sealed(plain: string)

  // ---- Decimal notation --------------------------------------------------------

  function Digit(d: nat): char
    requires d < 10
  {
    '0' + d as char
  }

  function DigitValue(c: char): nat
    requires IsDigit(c)
  {
    (c - '0') as nat
  }

  /** `str(v)`. */
  function Decimal(v: nat): string {
    if v < 10 then [Digit(v)] else Decimal(v / 10) + [Digit(v % 10)]
  }

  /** `s.zfill(width)` of text without a sign. */
  function Zfill(s: string, width: nat): string
    decreases width - |s|
  {
    if |s| >= width then s else Zfill("0" + s, width)
  }

  /** Reading a numeral back. */
  function Value(s: string): nat
    requires AllDigits(s)
  {
    if s == "" then 0 else 10 * Value(s[..|s| - 1]) + DigitValue(s[|s| - 1])
  }

  function Pow10(n: nat): (p: nat)
    ensures p >= 1
  {
    if n == 0 then 1 else 10 * Pow10(n - 1)
  }

  function Pad(v: nat, length: nat): string {
    Zfill(Decimal(v), length)
  }

  /** The PIN for the random draw `raw`: `randbelow(10 ** length)`, zero-padded. */
  function ExtCode(raw: nat, length: nat): string
    requires length >= 1
  {
    Pad(raw % Pow10(length), length)
  }

  // ---- A PIN is exactly `length` digits, and each such string is one PIN --------

  lemma {:induction false} DecimalFacts(v: nat)
    ensures AllDigits(Decimal(v)) && |Decimal(v)| >= 1
    ensures Value(Decimal(v)) == v
  {
    if v < 10 {
      assert Decimal(v)[..0] == "";
    } else {
      DecimalFacts(v / 10);
      assert Decimal(v)[..|Decimal(v)| - 1] == Decimal(v / 10);
    }
  }

  lemma {:induction false} DecimalLength(v: nat, n: nat)
    requires v < Pow10(n) && n >= 1
    ensures |Decimal(v)| <= n
  {
    if v >= 10 {
      assert n >= 2 by { assert Pow10(1) == 10 * Pow10(0) == 10; }
      DecimalLength(v / 10, n - 1);
    }
  }

  lemma {:induction false} ValueOfZero(s: string)
    requires AllDigits(s)
    ensures AllDigits("0" + s) && Value("0" + s) == Value(s)
  {
    if s == "" {
      assert ("0" + s)[..0] == "";
    } else {
      var front := s[..|s| - 1];
      assert ("0" + s)[..|s|] == "0" + front;
      ValueOfZero(front);
    }
  }

  lemma {:induction false} ZfillFacts(s: string, width: nat)
    requires AllDigits(s)
    ensures AllDigits(Zfill(s, width)) && |Zfill(s, width)| == Max(|s|, width)
    ensures Value(Zfill(s, width)) == Value(s)
    decreases width - |s|
  {
    if |s| < width {
      ValueOfZero(s);
      ZfillFacts("0" + s, width);
    }
  }

  lemma PadFacts(v: nat, length: nat)
    requires length >= 1 && v < Pow10(length)
    ensures AllDigits(Pad(v, length)) && |Pad(v, length)| == length
    ensures Value(Pad(v, length)) == v
  {
    DecimalFacts(v);
    DecimalLength(v, length);
    ZfillFacts(Decimal(v), length);
  }

  /** Shape of a PIN, and the draw it was made from. */
  lemma ExtCodeRoundTrip(raw: nat, length: nat)
    requires length >= 1
    ensures AllDigits(ExtCode(raw, length)) && |ExtCode(raw, length)| == length
    ensures Value(ExtCode(raw, length)) == raw % Pow10(length)
  {
    PadFacts(raw % Pow10(length), length);
  }

  lemma ExtCodeOfSmall(v: nat, length: nat)
    requires length >= 1 && v < Pow10(length)
    ensures ExtCode(v, length) == Pad(v, length)
  {
    SmallMod(v, Pow10(length));
  }

  lemma SmallMod(v: nat, m: nat)
    requires v < m
    ensures v % m == v
  {
  }

  lemma {:induction false} ValueInjective(s: string, t: string)
    requires AllDigits(s) && AllDigits(t) && |s| == |t|
    requires Value(s) == Value(t)
    ensures s == t
  {
    if s != "" {
      var i := |s| - 1;
      assert Value(s[..i]) == Value(t[..i]) && s[i] == t[i];
      ValueInjective(s[..i], t[..i]);
      assert s == s[..i] + [s[i]] && t == t[..i] + [t[i]];
    }
  }

  lemma {:induction false} ValueBound(s: string)
    requires AllDigits(s)
    ensures Value(s) < Pow10(|s|)
  {
    if s != "" { ValueBound(s[..|s| - 1]); }
  }

  /** Every string of `length` digits is the PIN of the number it denotes. */
  lemma EveryPinIsDrawn(pin: string)
    requires AllDigits(pin) && pin != ""
    ensures Value(pin) < Pow10(|pin|)
    ensures ExtCode(Value(pin), |pin|) == pin
  {
    var v, n := Value(pin), |pin|;
    ValueBound(pin);
    PadFacts(v, n);
    ExtCodeOfSmall(v, n);
    ValueInjective(Pad(v, n), pin);
  }

  // ---- Supply ----------------------------------------------------------------------

  /** The PINs of the numbers below `n`. */
  function Pins(n: nat, length: nat): set<string> {
    if n == 0 then {} else Pins(n - 1, length) + {Pad(n - 1, length)}
  }

  lemma {:induction false} PinsFacts(n: nat, length: nat)
    requires length >= 1 && n <= Pow10(length)
    ensures |Pins(n, length)| == n
    ensures forall p :: p in Pins(n, length) ==> AllDigits(p) && |p| == length && Value(p) < n
  {
    if n > 0 {
      PinsFacts(n - 1, length);
      PadFacts(n - 1, length);
    }
  }

  lemma SubsetCard<T>(a: set<T>, b: set<T>)
    requires a <= b
    ensures |a| <= |b|
  {
    assert b == a + (b - a);
  }

  /** The pigeonhole: fewer than ten to the `length` PINs in use leave one unused. */
  lemma UnusedPinExists(used: set<string>, length: nat) returns (v: nat)
    requires length >= 1 && |used| < Pow10(length)
    ensures v < Pow10(length) && ExtCode(v, length) !in used
  {
    var all := Pins(Pow10(length), length);
    PinsFacts(Pow10(length), length);
    if all <= used {
      SubsetCard(all, used);
    }
    var p :| p in all && p !in used;
    EveryPinIsDrawn(p);
    v := Value(p);
  }
}
