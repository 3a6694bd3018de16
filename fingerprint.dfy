/**
 * `generateDatasetSignature`: a short text built from the series' length,
 * first and last date labels and three prices, reduced to a seed by the
 * `h * 31 + c` rolling hash kept in a 32-bit signed integer.
 */
module Fingerprint {
  import opened Types
  import opened Text
  import opened Host

  const TwoTo31: int := 0x8000_0000
  const TwoTo32: int := 0x1_0000_0000

  /** JavaScript's ToInt32: the signed 32-bit integer congruent to `x` modulo 2^32. */
  function ToInt32(x: int): (r: int)
    ensures -TwoTo31 <= r < TwoTo31
    ensures (r - x) % TwoTo32 == 0
  {
    var m := x % TwoTo32;
    if m >= TwoTo31 then m - TwoTo32 else m
  }

  /** Two integers congruent modulo 2^32 have the same ToInt32. */
  lemma ToInt32Congruent(a: int, b: int)
    requires (a - b) % TwoTo32 == 0
    ensures ToInt32(a) == ToInt32(b)
  {
    var q := (a - b) / TwoTo32;
    assert a == b + q * TwoTo32;
    assert a % TwoTo32 == b % TwoTo32;
  }

  /** One step of the loop: `hash = ((hash << 5) - hash) + char; hash = hash & hash`. */
  function HashStep(hash: int, ch: int): int {
    ToInt32(ToInt32(hash * 32) - hash + ch)
  }

  /** The loop's value after the whole of `s`. */
  function StringHash(s: string): int {
    if s == [] then 0 else HashStep(StringHash(s[..|s| - 1]), s[|s| - 1] as int)
  }

  function Pow31(e: nat): int {
    if e == 0 then 1 else 31 * Pow31(e - 1)
  }

  /** The polynomial hash of Java's `String.hashCode`, unbounded: the sum of `s[i] * 31^(|s|-1-i)`. */
  function PolyHash(s: string): int {
    if s == [] then 0 else (s[0] as int) * Pow31(|s| - 1) + PolyHash(s[1..])
  }

  lemma {:induction false} PolyHashSnoc(s: string, c: char)
    ensures PolyHash(s + [c]) == 31 * PolyHash(s) + c as int
  {
    if s != [] {
      assert (s + [c])[1..] == s[1..] + [c];
      PolyHashSnoc(s[1..], c);
      var a := s[0] as int;
      var p := Pow31(|s| - 1);
      assert Pow31(|s|) == 31 * p;
      assert a * (31 * p) == 31 * (a * p);
    }
  }

  /** The shift-subtract step is the step `h * 31 + c` taken modulo 2^32. */
  lemma HashStepIsTimes31(hash: int, ch: int)
    ensures HashStep(hash, ch) == ToInt32(31 * hash + ch)
  {
    var a := ToInt32(hash * 32);
    var q := (a - hash * 32) / TwoTo32;
    assert a - hash * 32 == q * TwoTo32;
    assert (a - hash + ch) - (31 * hash + ch) == q * TwoTo32;
    ToInt32Congruent(a - hash + ch, 31 * hash + ch);
  }

  /** Values congruent modulo 2^32 stay congruent through one step `h * 31 + c`. */
  lemma CongruentStep(h: int, p: int, c: int)
    requires h == ToInt32(p)
    ensures ToInt32(31 * h + c) == ToInt32(31 * p + c)
  {
    ScaledMultiple(h - p, 31);
    assert (31 * h + c) - (31 * p + c) == 31 * (h - p);
    ToInt32Congruent(31 * h + c, 31 * p + c);
  }

  /** A multiple of 2^32, scaled, is still one. */
  lemma ScaledMultiple(d: int, m: int)
    requires d % TwoTo32 == 0
    ensures (m * d) % TwoTo32 == 0
  {
    var q := d / TwoTo32;
    assert d == q * TwoTo32;
    assert m * d == (m * q) * TwoTo32;
  }

  /** The loop computes Java's `String.hashCode`: the polynomial hash wrapped to a signed 32-bit integer. */
  lemma {:induction false} StringHashIsJavaHash(s: string)
    ensures StringHash(s) == ToInt32(PolyHash(s))
  {
    if s != [] {
      var p := s[..|s| - 1];
      var c := s[|s| - 1];
      assert s == p + [c];
      StringHashIsJavaHash(p);
      HashStepIsTimes31(StringHash(p), c as int);
      PolyHashSnoc(p, c);
      CongruentStep(StringHash(p), PolyHash(p), c as int);
    }
  }

  /** The hashing loop, run over the signature text. */
  method HashSignature(signature: string) returns (hash: int)
    ensures hash == StringHash(signature)
    ensures hash == ToInt32(PolyHash(signature))
  {
    hash := 0;
    var i := 0;
    while i < |signature|
      invariant 0 <= i <= |signature|
      invariant hash == StringHash(signature[..i])
    {
      var ch := signature[i] as int;
      assert signature[..i + 1][..i] == signature[..i];
      hash := ToInt32(hash * 32) - hash + ch;
      hash := ToInt32(hash);
      i := i + 1;
    }
    assert signature[..i] == signature;
    StringHashIsJavaHash(signature);
  }

  /** `Math.abs` of a signed 32-bit value. */
  function AbsInt32(h: int): (r: nat)
    requires -TwoTo31 <= h < TwoTo31
    ensures r <= TwoTo31
    ensures r == h || r == -h
  {
    if h < 0 then -h else h
  }

  /**
   * The text `[length, first date, last date, first, middle, last price].join('|')`,
   * which opens with the series length and a separator.
   */
  function Signature(data: seq<DataPoint>, num: Numerics): (r: string)
    requires |data| > 0
    ensures NatToDecimal(|data|) + "|" <= r
  {
    var n := |data|;
    Join([NatToDecimal(n), data[0].date, data[n - 1].date,
          num.toFixed3(data[0].mcpKWh), num.toFixed3(data[n / 2].mcpKWh),
          num.toFixed3(data[n - 1].mcpKWh)], "|")
  }

  /**
   * The seed of a series: the absolute value of a 32-bit hash, so at most
   * 2^31; an empty series takes the clock reading `now` instead.
   */
  function DatasetSeed(data: seq<DataPoint>, now: nat, num: Numerics): (r: nat)
    ensures |data| == 0 ==> r == now
    ensures |data| > 0 ==> r <= TwoTo31
  {
    if |data| == 0 then now else AbsInt32(StringHash(Signature(data, num)))
  }

  /** `generateDatasetSignature`, with `Date.now()` passed in as `now`. */
  method GenerateDatasetSignature(data: seq<DataPoint>, now: nat, num: Numerics) returns (seed: nat)
    ensures seed == DatasetSeed(data, now, num)
    ensures |data| > 0 ==> seed <= TwoTo31
    ensures |data| > 0 ==> seed == AbsInt32(ToInt32(PolyHash(Signature(data, num))))
  {
    if |data| == 0 {
      return now;
    }
    var signature := Signature(data, num);
    var hash := HashSignature(signature);
    seed := AbsInt32(hash);
  }

  /** The seed of a non-empty series depends only on its length, end dates and three sampled prices. */
  lemma SeedDependsOnSummary(a: seq<DataPoint>, b: seq<DataPoint>, now: nat, num: Numerics)
    requires |a| == |b| > 0
    requires a[0].date == b[0].date && a[|a| - 1].date == b[|b| - 1].date
    requires num.toFixed3(a[0].mcpKWh) == num.toFixed3(b[0].mcpKWh)
    requires num.toFixed3(a[|a| / 2].mcpKWh) == num.toFixed3(b[|b| / 2].mcpKWh)
    requires num.toFixed3(a[|a| - 1].mcpKWh) == num.toFixed3(b[|b| - 1].mcpKWh)
    ensures DatasetSeed(a, now, num) == DatasetSeed(b, now, num)
  {
  }
}
