/** The server's port of the noise table: a 32-bit linear congruential
    generator with the Numerical Recipes constants drives the Fisher–Yates
    shuffle, so a seed alone determines the table. */
module PerlinPy {
  import opened NoiseTable

  const LCG_MULTIPLIER: int := 1664525
  const LCG_INCREMENT: int := 1013904223
  const MODULUS: nat := 0x1_0000_0000

  /** One step of the generator: `(state * 1664525 + 1013904223) & 0xFFFFFFFF`
      (masking a Python integer keeps its remainder modulo 2^32, also for a
      negative seed). */
  function LcgNext(state: int): (s: int)
    ensures 0 <= s < MODULUS
    ensures (s - (state * LCG_MULTIPLIER + LCG_INCREMENT)) % MODULUS == 0
  {
    (state * LCG_MULTIPLIER + LCG_INCREMENT) % MODULUS
  }

  /** The generator state after n steps from the seed. */
  function LcgState(seed: int, n: nat): (s: int)
    ensures n > 0 ==> 0 <= s < MODULUS
  {
    if n == 0 then seed else LcgNext(LcgState(seed, n - 1))
  }

  /** The swap partner of position i for a generator state:
      `int(math.floor(state / 0x100000000 * (i + 1)))`, in exact integers. */
  function SwapIndex(state: int, i: nat): (j: int)
    requires 0 <= state < MODULUS
    ensures 0 <= j <= i
  {
    assert state * (i + 1) < MODULUS * (i + 1) by {
      MultiplyStrict(state, MODULUS, i + 1);
    }
    DivBelow(state * (i + 1), MODULUS, i + 1);
    state * (i + 1) / MODULUS
  }

  lemma MultiplyStrict(a: int, b: int, c: nat)
    requires a < b && c > 0
    ensures a * c < b * c
  {
  }

  lemma DivBelow(n: nat, m: nat, k: nat)
    requires m > 0 && n < m * k
    ensures n / m < k
  {
    if n / m >= k {
      assert m * (n / m) >= m * k by { MultiplyMonotone(m, k, n / m); }
    }
  }

  lemma MultiplyMonotone(m: nat, a: int, b: int)
    requires a <= b
    ensures m * a <= m * b
  {
  }

  /** The floating-point formula of the source, read over exact reals, is the
      integer quotient: the draw is exact because state * (i + 1) < 2^41 fits in
      a double's 53-bit mantissa. */
  lemma SwapIndexIsFloor(state: int, i: nat)
    requires 0 <= state < MODULUS
    ensures SwapIndex(state, i) == ((state as real / MODULUS as real) * ((i + 1) as real)).Floor
  {
    var n := state * (i + 1);
    var q := n / MODULUS;
    var r := n % MODULUS;
    assert n == q * MODULUS + r && 0 <= r < MODULUS;
    var x := (state as real / MODULUS as real) * ((i + 1) as real);
    assert x == n as real / MODULUS as real;
    assert x == q as real + r as real / MODULUS as real;
    assert 0.0 <= r as real / MODULUS as real < 1.0;
  }

  /** The swap partners of the whole shuffle, step k working on position 255 - k
      with the state after k + 1 steps of the generator. */
  function Draws(seed: int): (js: seq<int>)
    ensures |js| == TABLE_SIZE - 1
    ensures ValidDraws(js, TABLE_SIZE)
  {
    seq(TABLE_SIZE - 1, k requires 0 <= k < TABLE_SIZE - 1 => SwapIndex(LcgState(seed, k + 1), TABLE_SIZE - 1 - k))
  }

  /** The table a seed produces, before doubling. */
  function Shuffled(seed: int): seq<int>
  {
    Shuffle(Identity(), Draws(seed))
  }

  /** Whatever the seed, the shuffled table is a permutation of 0..255, and the
      doubled table repeats it with period 256. */
  lemma SeededTable(seed: int)
    ensures IsPermutation(Shuffled(seed))
    ensures IsTable(Doubled(Shuffled(seed)))
    ensures forall i :: 0 <= i < TABLE_SIZE ==> Doubled(Shuffled(seed))[i] == Doubled(Shuffled(seed))[i + TABLE_SIZE]
  {
    ShuffledTable(Draws(seed));
    DoubledPermutation(Shuffled(seed));
  }

  /** `_grad`: picks u and v from the low four bits of the hash and their signs
      from bits 0 and 1. */
  function Grad(hash: int, x: real, y: real): (g: real)
    ensures Abs(g) <= Abs(x) + Abs(y)
  {
    var h := hash % 16;
    var u := if h < 8 then x else y;
    var v := if h < 4 then y else if h == 12 || h == 14 then x else 0.0;
    (if h % 2 == 0 then u else -u) + (if h % 4 < 2 then v else -v)
  }

  /** `_grad` is the dot product of (x, y) with one of 16 fixed directions. */
  lemma GradIsDot(hash: int, x: real, y: real)
    ensures Grad(hash, x, y) == GradientDot(hash, x, y)
  {
    var h := hash % 16;
    if h == 0 {} else if h == 1 {} else if h == 2 {} else if h == 3 {}
    else if h == 4 {} else if h == 5 {} else if h == 6 {} else if h == 7 {}
    else if h == 8 {} else if h == 9 {} else if h == 10 {} else if h == 11 {}
    else if h == 12 {} else if h == 13 {} else if h == 14 {} else {}
  }

  /** The loop of the constructor: for i from 255 down to 1, advance the
      generator and swap p[i] with p[j], j the draw for i. */
  method ShuffleInPlace(p: array<int>, seed: int)
    requires p.Length == TABLE_SIZE && p[..] == Identity()
    modifies p
    ensures p[..] == Shuffled(seed)
  {
    var state := seed;
    ghost var js := Draws(seed);
    var i := TABLE_SIZE - 1;
    while i > 0
      invariant 0 <= i <= TABLE_SIZE - 1
      invariant state == LcgState(seed, TABLE_SIZE - 1 - i)
      invariant p[..] == Shuffle(Identity(), js[..TABLE_SIZE - 1 - i])
    {
      state := LcgNext(state);
      var j := SwapIndex(state, i);
      assert j == js[TABLE_SIZE - 1 - i];
      ShuffleStep(Identity(), js, TABLE_SIZE - 1 - i);
      ghost var before := p[..];
      p[i], p[j] := p[j], p[i];
      assert p[..] == Swap(before, i, j);
      i := i - 1;
    }
    assert js[..TABLE_SIZE - 1] == js;
  }

  class Perlin {
    var perm: seq<int>

    ghost predicate Valid()
      reads this
    {
      IsTable(perm)
    }

    /** Shuffles 0..255 with draws from the generator seeded by `seed`, then
        doubles the table. */
    constructor (seed: int)
      ensures perm == Doubled(Shuffled(seed))
      ensures Valid()
    {
      var p := new int[TABLE_SIZE](k => k);
      assert p[..] == Identity();
      ShuffleInPlace(p, seed);
      perm := Doubled(p[..]);
      SeededTable(seed);
    }

    /** The four corner hashes `noise` reads for (x, y); each index it uses lies in 0..511. */
    function NoiseHashes(x: real, y: real): (c: Corners)
      reads this
      requires Valid()
      ensures 0 <= c.aa < TABLE_SIZE && 0 <= c.ba < TABLE_SIZE && 0 <= c.ab < TABLE_SIZE && 0 <= c.bb < TABLE_SIZE
    {
      CornerHashes(perm, x, y)
    }
  }
}
