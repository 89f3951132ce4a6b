/** The client's port of the noise table: the shuffle draws its swap partners
    from the engine's random generator (here a sequence of draws given as
    input), and reads the table through JavaScript array indexing, which
    yields `undefined` outside the array. */
module PerlinTs {
  import opened Common
  import opened NoiseTable
  import PerlinPy

  /** The reals `realInRange(0, i + 1)` returned, in loop order: draw k is for
      position 255 - k and lies in [0, 256 - k). */
  predicate ValidRealDraws(rs: seq<real>)
  {
    |rs| == TABLE_SIZE - 1 && forall k :: 0 <= k < |rs| ==> 0.0 <= rs[k] < (TABLE_SIZE - k) as real
  }

  /** The swap partners `Math.floor` makes of the draws. */
  function Picks(rs: seq<real>): (js: seq<int>)
    requires ValidRealDraws(rs)
    ensures |js| == |rs| && ValidDraws(js, TABLE_SIZE)
    ensures forall k :: 0 <= k < |js| ==> js[k] as real <= rs[k] < js[k] as real + 1.0
  {
    seq(|rs|, k requires 0 <= k < |rs| => rs[k].Floor)
  }

  /** `this.perm[i]`: the entry, or `undefined` outside the array. */
  function At(t: seq<int>, i: int): (v: Option<int>)
    ensures v.Some? <==> 0 <= i < |t|
    ensures v.Some? ==> v.value == t[i]
  {
    if 0 <= i < |t| then Some(t[i]) else None
  }

  /** The lookups of `noise`, with its two `undefined` fallbacks (which return 0)
      as None. */
  function NoiseLookups(perm: seq<int>, x: real, y: real): Option<Corners>
  {
    var X := Cell(x);
    var Y := Cell(y);
    match (At(perm, X), At(perm, X + 1))
    case (Some(term1), Some(term2)) =>
      var A := term1 + Y;
      var B := term2 + Y;
      (match (At(perm, A), At(perm, B), At(perm, A + 1), At(perm, B + 1))
       case (Some(aa), Some(ba), Some(ab), Some(bb)) => Some(Corners(aa, ba, ab, bb))
       case _ => None)
    case _ => None
  }

  /** On a table fit for lookups neither fallback can fire: `noise` reads the
      same four corner hashes as the server's port. */
  lemma FallbacksUnreachable(perm: seq<int>, x: real, y: real)
    requires IsTable(perm)
    ensures NoiseLookups(perm, x, y) == Some(CornerHashes(perm, x, y))
  {
    var (A, B) := SecondIndices(perm, x, y);
    assert At(perm, Cell(x)) == Some(perm[Cell(x)]);
    assert At(perm, Cell(x) + 1) == Some(perm[Cell(x) + 1]);
    assert At(perm, A) == Some(perm[A]) && At(perm, B) == Some(perm[B]);
    assert At(perm, A + 1) == Some(perm[A + 1]) && At(perm, B + 1) == Some(perm[B + 1]);
  }

  /** `grad`: the same selection as the server's, with `& 1` and `& 2` tests
      written as remainders. */
  function Grad(hash: int, x: real, y: real): (g: real)
    ensures Abs(g) <= Abs(x) + Abs(y)
  {
    var h := hash % 16;
    var u := if h < 8 then x else y;
    var v := if h < 4 then y else if h == 12 || h == 14 then x else 0.0;
    (if h % 2 == 0 then u else -u) + (if h % 4 < 2 then v else -v)
  }

  /** Both ports pick the same gradient for every hash, so the client's `grad` is
      also the dot product with one of the 16 fixed directions. */
  lemma GradPortsAgree(hash: int, x: real, y: real)
    ensures Grad(hash, x, y) == PerlinPy.Grad(hash, x, y)
    ensures Grad(hash, x, y) == GradientDot(hash, x, y)
  {
    PerlinPy.GradIsDot(hash, x, y);
  }

  /** The shuffle loop of `init`: for i from 255 down to 1, swap p[i] with
      p[floor(draw)]. */
  method ShuffleInPlace(p: array<int>, rs: seq<real>)
    requires p.Length == TABLE_SIZE && p[..] == Identity()
    requires ValidRealDraws(rs)
    modifies p
    ensures p[..] == Shuffle(Identity(), Picks(rs))
  {
    ghost var js := Picks(rs);
    var i := TABLE_SIZE - 1;
    while i > 0
      invariant 0 <= i <= TABLE_SIZE - 1
      invariant p[..] == Shuffle(Identity(), js[..TABLE_SIZE - 1 - i])
    {
      var j := rs[TABLE_SIZE - 1 - i].Floor;
      assert j == js[TABLE_SIZE - 1 - i];
      ShuffleStep(Identity(), js, TABLE_SIZE - 1 - i);
      ghost var before := p[..];
      var temp := p[i];
      p[i] := p[j];
      p[j] := temp;
      assert p[..] == Swap(before, i, j);
      i := i - 1;
    }
    assert js[..TABLE_SIZE - 1] == js;
  }

  class Perlin {
    var perm: seq<int>

    ghost predicate Valid()
      reads this
    {
      IsTable(perm)
    }

    constructor (rs: seq<real>)
      requires ValidRealDraws(rs)
      ensures perm == Doubled(Shuffle(Identity(), Picks(rs)))
      ensures Valid()
    {
      perm := [];
      new;
      Init(rs);
    }

    /** `init`: shuffles 0..255 with the draws, then fills `perm` entry by entry
        with p[i & 255]. */
    method Init(rs: seq<real>)
      requires ValidRealDraws(rs)
      modifies this
      ensures perm == Doubled(Shuffle(Identity(), Picks(rs)))
      ensures Valid()
    {
      var p := new int[TABLE_SIZE](k => k);
      assert p[..] == Identity();
      ShuffleInPlace(p, rs);
      perm := [];
      var i := 0;
      while i < DOUBLED_SIZE
        invariant 0 <= i <= DOUBLED_SIZE
        invariant p[..] == Shuffle(Identity(), Picks(rs))
        invariant |perm| == i
        invariant forall k :: 0 <= k < i ==> perm[k] == p[k % TABLE_SIZE]
      {
        perm := perm + [p[i % TABLE_SIZE]];
        i := i + 1;
      }
      assert perm == Doubled(p[..]);
      ShuffledTable(Picks(rs));
    }

    /** The corner hashes `noise` reads for (x, y): the fallbacks never fire. */
    function NoiseHashes(x: real, y: real): (c: Option<Corners>)
      reads this
      requires Valid()
      ensures c == Some(CornerHashes(perm, x, y))
    {
      FallbacksUnreachable(perm, x, y);
      NoiseLookups(perm, x, y)
    }
  }
}
