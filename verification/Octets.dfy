/** Bytes, and numbers spelled in bytes or in decimal digits. */
module Octets {

  type Byte = x: int | 0 <= x < 256

  type Bytes = seq<Byte>

  function BigEndian(b: Bytes): nat
    decreases |b|
  {
    if b == [] then 0 else BigEndian(b[..|b| - 1]) * 256 + b[|b| - 1]
  }

  function LittleEndian(b: Bytes): nat
    decreases |b|
  {
    if b == [] then 0 else b[0] + 256 * LittleEndian(b[1..])
  }

  function ToBig(n: nat, width: nat): (b: Bytes)
    ensures |b| == width
    decreases width
  {
    if width == 0 then [] else ToBig(n / 256, width - 1) + [n % 256]
  }

  function ToLittle(n: nat, width: nat): (b: Bytes)
    ensures |b| == width
    decreases width
  {
    if width == 0 then [] else [n % 256] + ToLittle(n / 256, width - 1)
  }

  function Pow256(k: nat): nat {
    if k == 0 then 1 else 256 * Pow256(k - 1)
  }

  lemma {:induction false} BigRoundTrip(b: Bytes)
    ensures ToBig(BigEndian(b), |b|) == b
    decreases |b|
  {
    if b != [] {
      BigRoundTrip(b[..|b| - 1]);
      assert b == b[..|b| - 1] + [b[|b| - 1]];
    }
  }

  lemma {:induction false} LittleRoundTrip(b: Bytes)
    ensures ToLittle(LittleEndian(b), |b|) == b
    decreases |b|
  {
    if b != [] {
      LittleRoundTrip(b[1..]);
      assert b == [b[0]] + b[1..];
    }
  }

  lemma {:induction false} BigFits(n: nat, width: nat)
    requires n < Pow256(width)
    ensures BigEndian(ToBig(n, width)) == n
    decreases width
  {
    if width > 0 {
      BigFits(n / 256, width - 1);
      assert ToBig(n, width)[..width - 1] == ToBig(n / 256, width - 1);
    }
  }

  lemma {:induction false} LittleFits(n: nat, width: nat)
    requires n < Pow256(width)
    ensures LittleEndian(ToLittle(n, width)) == n
    decreases width
  {
    if width > 0 {
      LittleFits(n / 256, width - 1);
      assert ToLittle(n, width)[1..] == ToLittle(n / 256, width - 1);
    }
  }

  predicate IsDigit(c: char) {
    '0' <= c <= '9'
  }

  predicate AllDigits(s: string) {
    forall c | c in s :: IsDigit(c)
  }

  /** The decimal numeral, without leading zeros. */
  function Decimal(n: nat): (s: string)
    ensures s != [] && AllDigits(s)
  {
    if n < 10 then [('0' as int + n) as char] else Decimal(n / 10) + [('0' as int + n % 10) as char]
  }

  function DecimalValue(s: string): nat
    requires AllDigits(s)
    decreases |s|
  {
    if s == [] then 0
    else
      assert s[|s| - 1] in s;
      DecimalValue(s[..|s| - 1]) * 10 + (s[|s| - 1] as int - '0' as int)
  }

  lemma {:induction false} DecimalRoundTrip(n: nat)
    ensures DecimalValue(Decimal(n)) == n
  {
    if n >= 10 {
      DecimalRoundTrip(n / 10);
      assert Decimal(n)[..|Decimal(n)| - 1] == Decimal(n / 10);
    } else {
      assert Decimal(n)[..0] == [];
    }
  }
}
