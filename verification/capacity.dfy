/**
 The capacity conversion of main.go: a module's size in bytes (a uint64)
 becomes a whole number of gigabytes by converting it to float64, dividing
 by 2^30 and truncating, and the slot shows that number followed by " GB".
 */
module Capacity {
  import opened MachineInts
  import Decimal

  /** 2^30 bytes: the divisor 1024 * 1024 * 1024 of convertBytesToGB. */
  const GIB: nat := 0x4000_0000
  /** Below 2^53 every integer is a float64. */
  const TWO_TO_THE_52: nat := 0x10_0000_0000_0000
  const TWO_TO_THE_53: nat := 0x20_0000_0000_0000

  function Pow2(e: nat): (p: nat)
    ensures p >= 1
  {
    if e == 0 then 1 else 2 * Pow2(e - 1)
  }

  lemma {:induction false} Pow2Add(a: nat, b: nat)
    ensures Pow2(a + b) == Pow2(a) * Pow2(b)
  {
    if a > 0 {
      Pow2Add(a - 1, b);
    }
  }

  lemma Pow2Split(n: nat, a: nat)
    requires a <= n
    ensures Pow2(n) == Pow2(a) * Pow2(n - a)
  {
    Pow2Add(a, n - a);
  }

  lemma {:induction false} Pow2Monotone(a: nat, b: nat)
    requires a <= b
    ensures Pow2(a) <= Pow2(b)
    decreases b
  {
    if a < b {
      Pow2Monotone(a, b - 1);
    }
  }

  /**
   The exponent of the spacing between consecutive float64 values around x:
   0 below 2^53, and above it the e for which x has 53 significant bits at
   granularity 2^e.
   */
  function UlpExponent(x: nat): (e: nat)
    ensures x < TWO_TO_THE_53 ==> e == 0
    ensures x >= TWO_TO_THE_53 ==> TWO_TO_THE_52 * Pow2(e) <= x < TWO_TO_THE_53 * Pow2(e)
  {
    if x < TWO_TO_THE_53 then 0 else 1 + UlpExponent(x / 2)
  }

  lemma MulAtLeast(d: nat, u: nat)
    requires d >= 1
    ensures d * u >= u
  {
  }

  /** Division is determined by quotient and remainder. */
  lemma DivModUnique(a: nat, u: nat, q: nat, r: nat)
    requires u > 0 && r < u && a == q * u + r
    ensures a / u == q && a % u == r
  {
    var q', r' := a / u, a % u;
    assert a == q' * u + r';
    if q' > q {
      assert (q' - q) * u == q' * u - q * u;
      MulAtLeast(q' - q, u);
      assert false;
    } else if q' < q {
      assert (q - q') * u == q * u - q' * u;
      MulAtLeast(q - q', u);
      assert false;
    }
  }

  /**
   x rounded to the nearest multiple of u, a tie going to the even multiple
   (IEEE 754 round-to-nearest-even at granularity u).
   */
  function RoundToMultiple(x: nat, u: nat): (f: nat)
    requires u >= 1
    ensures f % u == 0
    ensures x - u / 2 <= f <= x + u / 2
    ensures f >= x - x % u
    ensures (2 * (f - x) == u || 2 * (x - f) == u) ==> (f / u) % 2 == 0
    ensures u == 1 ==> f == x
  {
    var q, rem := x / u, x % u;
    var down := x - rem;
    var up := down + u;
    Neighbours(x, u);
    if 2 * rem < u then down
    else if 2 * rem > u then up
    else if q % 2 == 0 then down
    else up
  }

  /** The multiples of u just below and just above x, and their indices. */
  lemma Neighbours(x: nat, u: nat)
    requires u >= 1
    ensures x % u < u && (u == 1 ==> x % u == 0)
    ensures (x - x % u) % u == 0 && (x - x % u) / u == x / u
    ensures (x - x % u + u) % u == 0 && (x - x % u + u) / u == x / u + 1
  {
    var q, rem := x / u, x % u;
    var down := x - rem;
    var up := down + u;
    assert x == q * u + rem && rem < u;
    assert down == q * u && up == (q + 1) * u;
    DivModUnique(down, u, q, 0);
    DivModUnique(up, u, q + 1, 0);
  }

  /** Go's float64(x) for an unsigned x: x kept to 53 significant bits, rounded to nearest even. */
  function RoundToFloat64(x: nat): (f: nat)
    ensures x < TWO_TO_THE_53 ==> f == x
  {
    RoundToMultiple(x, Pow2(UlpExponent(x)))
  }

  /** convertBytesToGB: float64(bytes) / 2^30, truncated toward zero. */
  function BytesToGB(bytes: U64): (gb: nat)
    ensures bytes < TWO_TO_THE_53 ==> gb == bytes / GIB
  {
    RoundToFloat64(bytes) / GIB
  }

  /** The text a matched slot receives: the gigabyte count in decimal, a space, and "GB". */
  function CapacityLabel(bytes: U64): (s: string)
    ensures |s| >= 4 && s[|s| - 3..] == " GB"
    ensures Decimal.IsNumeral(s[..|s| - 3]) && Decimal.ParseDecimal(s[..|s| - 3]) == BytesToGB(bytes)
  {
    var digits := Decimal.NatToString(BytesToGB(bytes));
    Decimal.ParseNatToString(BytesToGB(bytes));
    assert (digits + " GB")[..|digits|] == digits;
    digits + " GB"
  }

  lemma Pow2Thirty()
    ensures Pow2(30) == GIB
  {
    assert Pow2(10) == 1024;
    Pow2Add(10, 10);
    Pow2Add(20, 10);
  }

  /** Every power of two up to 2^30 divides a gigabyte. */
  lemma Pow2DividesGib(e: nat) returns (m: nat)
    requires e <= 30
    ensures Pow2(e) * m == GIB
  {
    Pow2Split(30, e);
    Pow2Thirty();
    m := Pow2(30 - e);
  }

  lemma MulMono(a: nat, b: nat, u: nat)
    requires a <= b
    ensures a * u <= b * u
  {
    if a < b {
      MulAtLeast(b - a, u);
      assert (b - a) * u == b * u - a * u;
    }
  }

  /** Bounds on a quotient from bounds on the dividend. */
  lemma QuotientBounds(f: nat, d: nat, c: nat)
    requires d >= 1
    ensures c * d <= f ==> c <= f / d
    ensures f < c * d ==> f / d < c
  {
    var q := f / d;
    assert f == q * d + f % d;
    assert (q + 1) * d == q * d + d;
    if c * d <= f && c > q {
      MulMono(q + 1, c, d);
      assert false;
    }
    if f < c * d && q >= c {
      MulMono(c, q, d);
      assert false;
    }
  }

  /** Within uint64 range the float64 spacing is at most 2^11. */
  lemma UlpExponentOfU64(bytes: U64)
    ensures UlpExponent(bytes) <= 11
  {
    var e := UlpExponent(bytes);
    if e > 11 {
      Pow2Monotone(12, e);
      assert false;
    }
  }

  lemma MulAssoc(a: nat, b: nat, c: nat)
    ensures a * (b * c) == (a * b) * c
  {
  }

  /** If u * m == g, then k * m steps of u make k * g. */
  lemma ScaledMultiple(k: nat, m: nat, u: nat, g: nat)
    requires u * m == g
    ensures (k * m) * u == k * g
  {
    MulAssoc(k, m, u);
  }

  /** A multiple of u that x has reached lies at or below x rounded down to a multiple of u. */
  lemma MultipleBelowRounding(x: nat, u: nat, c: nat)
    requires u >= 1 && c * u <= x
    ensures c * u <= x - x % u
  {
    QuotientBounds(x, u, c);
    MulMono(c, x / u, u);
  }

  /** Rounding to a multiple of u never drops below a multiple of u that x has reached. */
  lemma RoundingKeepsMultiple(x: nat, u: nat, c: nat)
    requires u >= 1 && c * u <= x
    ensures c * u <= RoundToMultiple(x, u)
  {
    MultipleBelowRounding(x, u, c);
  }

  /** A whole number of gigabytes is a whole number of spacings 2^e, for e up to 30. */
  lemma GigabyteBoundaryInUlps(k: nat, e: nat) returns (c: nat)
    requires e <= 30
    ensures c * Pow2(e) == k * GIB
  {
    var m := Pow2DividesGib(e);
    c := k * m;
    ScaledMultiple(k, m, Pow2(e), GIB);
  }

  /** Rounding never drops below a whole gigabyte boundary that x has reached. */
  lemma RoundKeepsGigabyteFloor(bytes: U64)
    ensures (bytes / GIB) * GIB <= RoundToFloat64(bytes)
  {
    var u := Pow2(UlpExponent(bytes));
    UlpExponentOfU64(bytes);
    var c := GigabyteBoundaryInUlps(bytes / GIB, UlpExponent(bytes));
    assert (bytes / GIB) * GIB <= bytes;
    RoundingKeepsMultiple(bytes, u, c);
  }

  /**
   For every uint64 the float path is off from exact integer division by at
   most one gigabyte, and never below it.
   */
  lemma BytesToGBWithinOne(bytes: U64)
    ensures bytes / GIB <= BytesToGB(bytes) <= bytes / GIB + 1
  {
    var f := RoundToFloat64(bytes);
    var k := bytes / GIB;
    RoundKeepsGigabyteFloor(bytes);
    QuotientBounds(f, GIB, k);
    UlpExponentOfU64(bytes);
    Pow2Monotone(UlpExponent(bytes), 11);
    assert Pow2(11) == 0x800;
    assert f <= bytes + 0x400;
    QuotientBounds(bytes, GIB, k + 1);
    assert (k + 2) * GIB == (k + 1) * GIB + GIB;
    QuotientBounds(f, GIB, k + 2);
  }

  /**
   The float path can round up: 2^60 - 1 bytes is just under 2^30 whole
   gigabytes, yet float64 conversion rounds it to 2^60 and the slot shows 2^30.
   */
  lemma BytesToGBRoundsUpNearTop()
    ensures (0x1000_0000_0000_0000 - 1) / GIB == 0x3FFF_FFFF
    ensures BytesToGB(0x1000_0000_0000_0000 - 1) == 0x4000_0000
  {
    var x: nat := 0x0FFF_FFFF_FFFF_FFFF;
    assert UlpExponent(x) == 7;
    assert Pow2(7) == 128;
    assert RoundToFloat64(x) == 0x1000_0000_0000_0000;
  }

  /** Two documented module sizes: 8 GiB and 16 GiB. */
  lemma CapacityLabelExamples()
    ensures CapacityLabel(8589934592) == "8 GB"
    ensures CapacityLabel(17179869184) == "16 GB"
  {
  }
}
