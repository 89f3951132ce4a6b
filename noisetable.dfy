/** The integer skeleton shared by both Perlin noise implementations: a table
    0..255 shuffled by Fisher–Yates, doubled to 512 entries so that a corner
    lookup never needs a second mask, and the 16-way gradient selection. */
module NoiseTable {

  const TABLE_SIZE: nat := 256
  const DOUBLED_SIZE: nat := 512

  /** The table before shuffling: 0, 1, ..., 255. */
  function Identity(): (t: seq<int>)
    ensures |t| == TABLE_SIZE
    ensures forall i :: 0 <= i < |t| ==> t[i] == i
  {
    seq(TABLE_SIZE, i => i)
  }

  /** The table with the entries at i and j exchanged. */
  function Swap(s: seq<int>, i: nat, j: nat): (t: seq<int>)
    requires i < |s| && j < |s|
    ensures |t| == |s| && t[i] == s[j] && t[j] == s[i]
    ensures forall k :: 0 <= k < |s| && k != i && k != j ==> t[k] == s[k]
  {
    s[i := s[j]][j := s[i]]
  }

  lemma SwapPermutes(s: seq<int>, i: nat, j: nat)
    requires i < |s| && j < |s|
    ensures multiset(Swap(s, i, j)) == multiset(s)
  {
    var t := s[i := s[j]];
    assert multiset(t) == multiset(s) - multiset{s[i]} + multiset{s[j]};
    assert multiset(t[j := s[i]]) == multiset(t) - multiset{t[j]} + multiset{s[i]};
  }

  /** Draws fit for shuffling a table of n entries: step k of the descending
      loop works on position n-1-k and may only pick a position at or below it. */
  predicate ValidDraws(js: seq<int>, n: nat)
  {
    |js| < n && forall k :: 0 <= k < |js| ==> 0 <= js[k] <= n - 1 - k
  }

  lemma ValidDrawsPrefix(js: seq<int>, n: nat, m: nat)
    requires ValidDraws(js, n) && m <= |js|
    ensures ValidDraws(js[..m], n)
  {
  }

  /** The table after the steps of the loop `for i from n-1 down to 1: swap p[i], p[j]`
      whose draws are js: step k works on position |p|-1-k. */
  function Shuffle(p: seq<int>, js: seq<int>): (t: seq<int>)
    requires ValidDraws(js, |p|)
    ensures |t| == |p|
  {
    if js == [] then p
    else Swap(Shuffle(p, js[..|js| - 1]), |p| - |js|, js[|js| - 1])
  }

  /** Every Fisher–Yates shuffle is a permutation of the table it starts from. */
  lemma {:induction false} ShufflePermutes(p: seq<int>, js: seq<int>)
    requires ValidDraws(js, |p|)
    ensures multiset(Shuffle(p, js)) == multiset(p)
  {
    if js != [] {
      var prev := Shuffle(p, js[..|js| - 1]);
      ShufflePermutes(p, js[..|js| - 1]);
      SwapPermutes(prev, |p| - |js|, js[|js| - 1]);
    }
  }

  lemma ShuffleLast(p: seq<int>, js: seq<int>, k: nat)
    requires ValidDraws(js, |p|) && |js| == k + 1
    ensures Shuffle(p, js) == Swap(Shuffle(p, js[..k]), |p| - 1 - k, js[k])
  {
  }

  /** One more step of the loop extends the shuffle by one draw. */
  lemma ShuffleStep(p: seq<int>, js: seq<int>, k: nat)
    requires ValidDraws(js, |p|) && k < |js|
    ensures Shuffle(p, js[..k + 1]) == Swap(Shuffle(p, js[..k]), |p| - 1 - k, js[k])
  {
    ValidDrawsPrefix(js, |p|, k + 1);
    ShuffleLast(p, js[..k + 1], k);
    assert js[..k + 1][..k] == js[..k];
  }

  /** A permutation of 0..255. */
  predicate IsPermutation(t: seq<int>)
  {
    |t| == TABLE_SIZE && multiset(t) == multiset(Identity())
  }

  /** A permutation of 0..255 holds every value of 0..255 and nothing else. */
  lemma PermutationValues(t: seq<int>)
    requires IsPermutation(t)
    ensures |t| == TABLE_SIZE
    ensures forall k :: 0 <= k < |t| ==> 0 <= t[k] < TABLE_SIZE
    ensures forall v :: 0 <= v < TABLE_SIZE ==> v in t
  {
    forall k | 0 <= k < |t| ensures 0 <= t[k] < TABLE_SIZE {
      assert t[k] in multiset(t);
      assert t[k] in Identity();
    }
    forall v | 0 <= v < TABLE_SIZE ensures v in t {
      assert Identity()[v] == v;
      assert v in multiset(Identity());
    }
  }

  /** The shuffled table, doubled: entry i is p[i & 255]. */
  function Doubled(p: seq<int>): (perm: seq<int>)
    requires |p| == TABLE_SIZE
    ensures |perm| == DOUBLED_SIZE
    ensures forall i :: 0 <= i < DOUBLED_SIZE ==> perm[i] == p[i % TABLE_SIZE]
  {
    seq(DOUBLED_SIZE, i requires 0 <= i < DOUBLED_SIZE => p[i % TABLE_SIZE])
  }

  /** A table fit for noise lookups: 512 entries, each in 0..255. */
  predicate IsTable(perm: seq<int>)
  {
    |perm| == DOUBLED_SIZE && forall i :: 0 <= i < |perm| ==> 0 <= perm[i] < TABLE_SIZE
  }

  /** Doubling a permutation gives a table whose second half repeats the first. */
  lemma DoubledPermutation(p: seq<int>)
    requires IsPermutation(p)
    ensures IsTable(Doubled(p))
    ensures forall i :: 0 <= i < TABLE_SIZE ==> Doubled(p)[i] == Doubled(p)[i + TABLE_SIZE] == p[i]
  {
    PermutationValues(p);
    var perm := Doubled(p);
    forall i | 0 <= i < TABLE_SIZE ensures perm[i] == perm[i + TABLE_SIZE] == p[i] {
      assert i % TABLE_SIZE == i && (i + TABLE_SIZE) % TABLE_SIZE == i;
    }
  }

  /** A fully shuffled identity table, doubled, is fit for noise lookups. */
  lemma ShuffledTable(js: seq<int>)
    requires ValidDraws(js, TABLE_SIZE)
    ensures IsPermutation(Shuffle(Identity(), js))
    ensures IsTable(Doubled(Shuffle(Identity(), js)))
  {
    ShufflePermutes(Identity(), js);
    DoubledPermutation(Shuffle(Identity(), js));
  }

  /** The lattice cell of a coordinate, masked to 0..255: `floor(x) & 255`
      (for integers, `& 255` keeps the remainder modulo 256 in two's complement). */
  function Cell(x: real): (c: int)
    ensures 0 <= c < TABLE_SIZE
  {
    x.Floor % TABLE_SIZE
  }

  /** The four corner hashes perm[A], perm[B], perm[A + 1], perm[B + 1] of the
      lattice cell of (x, y), with A = perm[X] + Y and B = perm[X + 1] + Y. */
  datatype Corners = Corners(aa: int, ba: int, ab: int, bb: int)

  /** The indices read by the second round of lookups: A, B, A + 1 and B + 1. */
  function SecondIndices(perm: seq<int>, x: real, y: real): (r: (int, int))
    requires IsTable(perm)
    ensures 0 <= r.0 && r.0 + 1 < DOUBLED_SIZE && 0 <= r.1 && r.1 + 1 < DOUBLED_SIZE
  {
    var X := Cell(x);
    var Y := Cell(y);
    (perm[X] + Y, perm[X + 1] + Y)
  }

  /** The corner hashes of the lattice cell of (x, y); every index stays inside the table. */
  function CornerHashes(perm: seq<int>, x: real, y: real): (c: Corners)
    requires IsTable(perm)
    ensures 0 <= c.aa < TABLE_SIZE && 0 <= c.ba < TABLE_SIZE
    ensures 0 <= c.ab < TABLE_SIZE && 0 <= c.bb < TABLE_SIZE
  {
    var (A, B) := SecondIndices(perm, x, y);
    Corners(perm[A], perm[B], perm[A + 1], perm[B + 1])
  }

  /** The 16 gradient directions, by `hash & 15`, as (coefficient of x, coefficient of y). */
  const GRADIENTS: seq<(int, int)> := [
    (1, 1), (-1, 1), (1, -1), (-1, -1),
    (1, 0), (-1, 0), (1, 0), (-1, 0),
    (0, 1), (0, -1), (0, 1), (0, -1),
    (1, 1), (0, -1), (-1, 1), (0, -1)
  ]

  /** The dot product of the gradient chosen by `hash` with (x, y). */
  function GradientDot(hash: int, x: real, y: real): real
  {
    var g := GRADIENTS[hash % 16];
    (g.0 as real) * x + (g.1 as real) * y
  }

  function Abs(v: real): real
  {
    if v < 0.0 then -v else v
  }

  /** The smoothing curve 6t^5 - 15t^4 + 10t^3, written as `t*t*t*(t*(t*6 - 15) + 10)`;
      it fixes both ends of the unit interval. */
  function Fade(t: real): (r: real)
    ensures t == 0.0 ==> r == 0.0
    ensures t == 1.0 ==> r == 1.0
  {
    t * t * t * (t * (t * 6.0 - 15.0) + 10.0)
  }

  /** The curve is symmetric about the middle of the cell: fade(1 - t) == 1 - fade(t). */
  lemma FadeSymmetric(t: real)
    ensures Fade(1.0 - t) == 1.0 - Fade(t)
  {
    var s := 1.0 - t;
    assert s * s == 1.0 - 2.0 * t + t * t;
    assert s * s * s == 1.0 - 3.0 * t + 3.0 * t * t - t * t * t;
    assert s * (s * 6.0 - 15.0) + 10.0 == 6.0 * t * t + 3.0 * t + 1.0;
  }

  /** Linear interpolation `a + t*(b - a)`: a at t = 0, b at t = 1. */
  function Lerp(t: real, a: real, b: real): (r: real)
    ensures t == 0.0 ==> r == a
    ensures t == 1.0 ==> r == b
  {
    a + t * (b - a)
  }

  /** For t in the unit interval the interpolation stays between its ends. */
  lemma LerpBetween(t: real, a: real, b: real)
    requires 0.0 <= t <= 1.0 && a <= b
    ensures a <= Lerp(t, a, b) <= b
  {
    var d := b - a;
    assert 0.0 <= t * d by { ProductNonNegative(t, d); }
    assert t * d <= d by { ProductNonNegative(1.0 - t, d); }
  }

  lemma ProductNonNegative(x: real, y: real)
    requires 0.0 <= x && 0.0 <= y
    ensures 0.0 <= x * y
  {
  }
}
