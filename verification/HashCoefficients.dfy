/** The coefficients of the program's 64 hash functions, drawn in the doubles that it computes with. */
module HashCoefficients {
  import opened Collections
  import opened MinHash

  // ---- Integers as doubles ----------------------------------------------------------

  /** The multiple of `u` nearest to `n`; of two equally near, the one with an even quotient. */
  function Nearest(n: nat, u: nat): nat
    requires u > 0
  {
    var q, r := n / u, n % u;
    if 2 * r < u || (2 * r == u && q % 2 == 0) then n - r else n - r + u
  }

  const TWO_53: nat := 0x20_0000_0000_0000

  /** The double nearest to an integer below two to the power 63. */
  function Double(n: nat): nat {
    if n < TWO_53 then n
    else if n < 2 * TWO_53 then Nearest(n, 2)
    else if n < 4 * TWO_53 then Nearest(n, 4)
    else if n < 8 * TWO_53 then Nearest(n, 8)
    else if n < 16 * TWO_53 then Nearest(n, 16)
    else if n < 32 * TWO_53 then Nearest(n, 32)
    else if n < 64 * TWO_53 then Nearest(n, 64)
    else if n < 128 * TWO_53 then Nearest(n, 128)
    else if n < 256 * TWO_53 then Nearest(n, 256)
    else if n < 512 * TWO_53 then Nearest(n, 512)
    else Nearest(n, 1024)
  }

  // ---- The hash family --------------------------------------------------------------

  const HASH_PRIME: nat := 2147483647

  function NextSeed(seed: nat): (next: nat)
    ensures next < 2147483648
  {
    Double(Double(seed * 1103515245) + 12345) % 2147483648
  }

  /** The seed before the coefficients of slot `k` are drawn. */
  function Seed(k: nat): nat { if k == 0 then 42 else NextSeed(NextSeed(Seed(k - 1))) }

  datatype Coefficients = Coefficients(a: nat, b: nat)

  function CoefficientsAfter(seed: nat): Coefficients {
    var draw := NextSeed(seed);
    Coefficients(draw % 2147483646 + 1, NextSeed(draw) % 2147483647)
  }

  function CoefficientsAt(k: nat): Coefficients { CoefficientsAfter(Seed(k)) }

  function Affine(c: Coefficients, h: nat): (v: nat)
    ensures v < HASH_PRIME
  {
    Double(Double(c.a * h) + c.b) % 2147483647
  }

  function StringHashFrom(s: string, hash: nat): nat {
    if s == "" then hash else StringHashFrom(s[1..], (31 * hash + s[0] as nat) % 0x1_0000_0000)
  }

  function StringHash(s: string): nat { StringHashFrom(s, 0) }

  function SourceFamily(): HashFamily { (w: string, k: nat) => Affine(CoefficientsAt(k), StringHash(w)) }

  /** Draw two coefficients for each slot, from one seed. */
  method GenerateHashCoefficients() returns (coefficients: seq<Coefficients>)
    ensures |coefficients| == NUM_HASHES
    ensures forall k :: 0 <= k < NUM_HASHES ==> coefficients[k] == CoefficientsAt(k)
  {
    coefficients := [];
    var seed: nat := 42;
    for i := 0 to NUM_HASHES
      invariant |coefficients| == i && seed == Seed(i)
      invariant forall k :: 0 <= k < i ==> coefficients[k] == CoefficientsAt(k)
    {
      var draw := NextSeed(seed);
      seed := NextSeed(draw);
      coefficients := coefficients + [Coefficients(draw % (HASH_PRIME - 1) + 1, seed % HASH_PRIME)];
    }
  }

  /** Every text with a word sets every slot, so it agrees nowhere with a text without one. */
  lemma WordsSetSlots(words: seq<string>, k: nat)
    ensures Slot(words, SourceFamily(), k) == UNSET <==> words == []
  {
    if words != [] { SlotIsLeast(words, SourceFamily(), k); assert words[0] in words; }
  }

  lemma {:induction false} NoneMatch(words: seq<string>, n: nat)
    requires words != [] && n <= NUM_HASHES
    ensures Matches(Signature(words, SourceFamily()), Signature([], SourceFamily()), n) == 0
    ensures Matches(Signature([], SourceFamily()), Signature(words, SourceFamily()), n) == 0
  {
    if n > 0 {
      NoneMatch(words, n - 1);
      WordsSetSlots(words, n - 1);
      WordsSetSlots([], n - 1);
    }
  }

  // ---- Draws given with their quotients -----------------------------------------------

  predicate IsSpacing(u: int) {
    u == 1 || u == 4 || u == 8 || u == 16 || u == 32 || u == 64 || u == 128 || u == 256 || u == 512
  }

  /** The multiple of the spacing nearest to the generator's increment. */
  function Increment(u: int): int {
    if u == 1 then 12345 else if u <= 8 then 12344 else if u <= 64 then 12352 else 12288
  }

  /**
   * The seed `value` is drawn after `seed`: `u` is the spacing of doubles around the product, `q`
   * the rounded product over it, and `wraps` what the mask cuts off.
   */
  predicate Drawn(seed: int, u: int, q: int, wraps: int, value: int) {
    var product, rounded := seed * 1103515245, q * u;
    && IsSpacing(u)
    && (u == 1 || 0x10_0000_0000_0000 * u <= product)
    && 2147483648 <= rounded && rounded + 12345 < 0x20_0000_0000_0000 * u
    && 2 * rounded <= 2 * product + u && 2 * product <= 2 * rounded + u
    && (2 * rounded == 2 * product + u || 2 * product == 2 * rounded + u ==> q % 2 == 0)
    && value == rounded + Increment(u) - wraps * 2147483648 && 0 <= value < 2147483646
  }

  lemma ModOffset(q: int, u: int, d: int)
    requires 0 <= d < u
    ensures (q * u + d) / u == q && (q * u + d) % u == d
  {
    var x := q * u + d;
    var t := q - x / u;
    assert x == u * (x / u) + x % u;
    assert u * t == u * q - u * (x / u) == x % u - d;
    assert t >= 1 ==> u * t >= u;
    assert t <= -1 ==> u * t <= -u;
  }

  /** `q` times `u` is the multiple of `u` nearest to `n`; halfway between two, `q` is even. */
  predicate Rounds(n: int, u: int, q: int, m: int) {
    && m == q * u && 2 * m <= 2 * n + u && 2 * n <= 2 * m + u
    && (2 * m == 2 * n + u || 2 * n == 2 * m + u ==> q % 2 == 0)
  }

  lemma NearestIs(n: nat, u: nat, q: int, m: int)
    requires u > 1 && Rounds(n, u, q, m)
    ensures Nearest(n, u) == m
  {
    if m <= n {
      ModOffset(q, u, n - m);
    } else {
      assert (q - 1) * u == m - u;
      ModOffset(q - 1, u, u - (m - n));
    }
  }

  lemma DoubleIs(n: nat, u: nat, q: int, m: int)
    requires IsSpacing(u) && (u == 1 || 0x10_0000_0000_0000 * u <= n) && n < 0x20_0000_0000_0000 * u
    requires Rounds(n, u, q, m)
    ensures Double(n) == m
  {
    if u > 1 { NearestIs(n, u, q, m); }
  }

  lemma IncrementIs(u: int)
    requires IsSpacing(u)
    ensures Increment(u) % u == 0 && 2 * Increment(u) < 2 * 12345 + u && 2 * 12345 < 2 * Increment(u) + u
  {
  }

  /** Adding the increment to a rounded product, rounding again, and wrapping. */
  lemma IncrementedIs(u: int, q: int, rounded: nat, wraps: int, value: int)
    requires IsSpacing(u) && rounded == q * u && (u == 1 || 0x10_0000_0000_0000 * u <= rounded + 12345)
    requires rounded + 12345 < 0x20_0000_0000_0000 * u
    requires value == rounded + Increment(u) - wraps * 2147483648 && 0 <= value < 2147483646
    ensures Double(rounded + 12345) % 2147483648 == value
  {
    IncrementIs(u);
    var steps := Increment(u) / u;
    assert (q + steps) * u == rounded + Increment(u);
    DoubleIs(rounded + 12345, u, q + steps, rounded + Increment(u));
    ModOffset(wraps, 2147483648, value);
  }

  lemma DrawnIsNext(seed: nat, u: int, q: int, wraps: int, value: int)
    requires Drawn(seed, u, q, wraps, value)
    ensures NextSeed(seed) == value
  {
    DoubleIs(seed * 1103515245, u, q, q * u);
    IncrementIs(u);
    IncrementedIs(u, q, q * u, wraps, value);
  }
}
