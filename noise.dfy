/**
 * Noise2D of math.ts (the authority's copy in server/server.js is the same
 * text): a Fisher-Yates shuffle of 0..255 driven by SeededRandom, doubled
 * into a 512-entry table, and value noise read off that table with a
 * quintic fade and bilinear interpolation.  The lattice part is integer
 * logic; fade and interpolation are over `real`.
 */
module Noise {
  import opened Hash

  // ---------------------------------------------------------------------
  // The shuffle

  /** `Math.floor(next() * (i + 1))` when next() drew the integer n. */
  function SwapIndex(n: nat, i: nat): nat
  {
    (n * (i + 1)) / 0x1_0000_0000
  }

  lemma MulMono(a: int, b: int, c: nat)
    requires a <= b
    ensures a * c <= b * c
  {
  }

  /** Every swap index of the loop at step i lies in [0, i]. */
  lemma SwapIndexInRange(n: nat, i: nat)
    requires n < 0x1_0000_0000
    ensures SwapIndex(n, i) <= i
  {
    MulMono(n, 0x1_0000_0000 - 1, i + 1);
  }

  lemma FloorOfQuotient(a: nat)
    ensures (a as real / 0x1_0000_0000 as real).Floor == a / 0x1_0000_0000
  {
    var q, r := a / 0x1_0000_0000, a % 0x1_0000_0000;
    assert a == q * 0x1_0000_0000 + r;
    assert a as real / 0x1_0000_0000 as real == q as real + r as real / 0x1_0000_0000 as real;
  }

  /** The floating-point recipe of the source and the integer SwapIndex agree
      exactly, because next() is n / 2^32 for an integer n. */
  lemma SwapIndexIsFloor(x: real, n: nat, i: nat)
    requires x == Unit(n)
    ensures (x * (i + 1) as real).Floor == SwapIndex(n, i)
  {
    assert x * (i + 1) as real == (n * (i + 1)) as real / 0x1_0000_0000 as real;
    FloorOfQuotient(n * (i + 1));
  }

  function Identity256(): (p: seq<int>)
    ensures |p| == 256 && forall v :: 0 <= v < 256 ==> p[v] == v
  {
    seq(256, v => v)
  }

  /** `[p[i], p[j]] = [p[j], p[i]]` on a sequence. */
  function Swap(p: seq<int>, i: nat, j: nat): (q: seq<int>)
    requires i < |p| && j < |p|
    ensures |q| == |p| && q[i] == p[j] && q[j] == p[i]
    ensures forall k :: 0 <= k < |p| && k != i && k != j ==> q[k] == p[k]
    ensures multiset(q) == multiset(p)
  {
    p[i := p[j]][j := p[i]]
  }

  /** The array `p` after m iterations of the shuffle loop of a generator whose
      seed hash is h: iteration m has i = 256 - m and uses draw m - 1. */
  function Shuffled(h: int, m: nat): (p: seq<int>)
    requires m <= 255
    ensures |p| == 256 && multiset(p) == multiset(Identity256())
  {
    if m == 0 then Identity256()
    else
      var i := 256 - m;
      var n := Draw(h, m - 1);
      SwapIndexInRange(n, i);
      Swap(Shuffled(h, m - 1), i, SwapIndex(n, i))
  }

  /** Iteration k + 1 of the loop (index i = 255 - k) swaps i with the index
      taken from draw k. */
  lemma ShuffledStep(h: int, k: nat)
    requires k < 255
    ensures SwapIndex(Draw(h, k), 255 - k) <= 255 - k
    ensures Shuffled(h, k + 1) == Swap(Shuffled(h, k), 255 - k, SwapIndex(Draw(h, k), 255 - k))
  {
    SwapIndexInRange(Draw(h, k), 255 - k);
  }

  /** A sequence with the multiset of 0..255 holds every value of 0..255
      exactly once and nothing else. */
  lemma PermutationFacts(p: seq<int>)
    requires multiset(p) == multiset(Identity256())
    ensures |p| == 256
    ensures forall k :: 0 <= k < |p| ==> 0 <= p[k] < 256
    ensures forall v :: 0 <= v < 256 ==> multiset(p)[v] == 1
  {
    assert |p| == |multiset(p)| == |multiset(Identity256())| == 256;
    forall k | 0 <= k < |p|
      ensures 0 <= p[k] < 256
    {
      assert p[k] in multiset(p);
      assert p[k] in multiset(Identity256());
      assert p[k] in Identity256();
    }
    forall v | 0 <= v < 256
      ensures multiset(p)[v] == 1
    {
      Identity256Count(v);
    }
  }

  lemma Identity256Count(v: int)
    requires 0 <= v < 256
    ensures multiset(Identity256())[v] == 1
  {
    var id := Identity256();
    assert id == id[..v] + [v] + id[v + 1..];
    assert v !in id[..v];
    assert v !in id[v + 1..];
    assert multiset(id) == multiset(id[..v]) + multiset([v]) + multiset(id[v + 1..]);
  }

  // ---------------------------------------------------------------------
  // The 512-entry table

  /** A table shaped like `perm`: 512 entries, each in [0, 255]. */
  type Perm512 = t: seq<int> | |t| == 512 && forall i :: 0 <= i < 512 ==> 0 <= t[i] < 256
    witness seq(512, i => 0)

  /** `perm` of `new Noise2D(seed)`: the shuffled array written twice; the
      source's index `i & 255` is i mod 256 for 0 <= i < 512. */
  function PermTable(seed: string): Perm512
  {
    TableFromHash(Cyrb128(seed))
  }

  /** The table for a given seed hash. */
  function TableFromHash(h: int): Perm512
  {
    var p := Shuffled(h, 255);
    PermutationFacts(p);
    Doubled(p)
  }

  /** `for (i = 0; i < 512; i++) perm[i] = p[i & 255]` on a sequence. */
  function Doubled(p: seq<int>): (t: seq<int>)
    requires |p| == 256 && forall k :: 0 <= k < 256 ==> 0 <= p[k] < 256
    ensures |t| == 512 && forall i :: 0 <= i < 512 ==> t[i] == p[i % 256] && 0 <= t[i] < 256
  {
    seq(512, i requires 0 <= i < 512 => p[i % 256])
  }

  /** The table repeats with period 256, and its first half holds every value
      of 0..255 exactly once. */
  lemma PermTableShape(seed: string)
    ensures forall i :: 0 <= i < 512 ==> PermTable(seed)[i] == PermTable(seed)[i % 256]
    ensures forall v :: 0 <= v < 256 ==> multiset(PermTable(seed)[..256])[v] == 1
  {
    var p := Shuffled(Cyrb128(seed), 255);
    var t := PermTable(seed);
    FirstHalf(p, t);
    PermutationFacts(p);
  }

  lemma FirstHalf(p: seq<int>, t: seq<int>)
    requires |p| == 256 && |t| == 512
    requires forall i :: 0 <= i < 512 ==> t[i] == p[i % 256]
    ensures t[..256] == p
    ensures forall i :: 0 <= i < 512 ==> t[i] == t[i % 256]
  {
    assert forall i :: 0 <= i < 256 ==> t[..256][i] == p[i];
  }

  // ---------------------------------------------------------------------
  // Sampling

  /** `fade(t)`: 6t^5 - 15t^4 + 10t^3. */
  function Fade(t: real): real
  {
    t * t * t * (t * (t * 6.0 - 15.0) + 10.0)
  }

  /** The class's private `lerp(t, a, b)`. */
  function Lerp(t: real, a: real, b: real): real
  {
    a + t * (b - a)
  }

  /** `val(h) = (h % 256) / 255`. */
  function Val(h: int): real
  {
    (h % 256) as real / 255.0
  }

  lemma MulNonneg(a: real, b: real)
    requires 0.0 <= a && 0.0 <= b
    ensures 0.0 <= a * b
  {
  }

  /** fade maps [0,1] into [0,1]. */
  lemma FadeRange(t: real)
    requires 0.0 <= t <= 1.0
    ensures 0.0 <= Fade(t) <= 1.0
  {
    var u := t - 1.25;
    var q := t * (t * 6.0 - 15.0) + 10.0;
    assert q == 6.0 * (u * u) + 0.625;
    if u < 0.0 {
      MulNonneg(-u, -u);
      assert (-u) * (-u) == u * u;
    } else {
      MulNonneg(u, u);
    }
    MulNonneg(t, t);
    MulNonneg(t * t, t);
    MulNonneg(t * t * t, q);
    var s := 1.0 - t;
    var w := 6.0 * t * t + 3.0 * t + 1.0;
    assert 1.0 - Fade(t) == s * s * s * w;
    MulNonneg(s, s);
    MulNonneg(s * s, s);
    MulNonneg(s * s * s, w);
  }

  /** Interpolating between two values of [0,1] with a weight of [0,1] stays in [0,1]. */
  lemma LerpRange(t: real, a: real, b: real)
    requires 0.0 <= t <= 1.0 && 0.0 <= a <= 1.0 && 0.0 <= b <= 1.0
    ensures 0.0 <= Lerp(t, a, b) <= 1.0
  {
    var s := 1.0 - t;
    assert Lerp(t, a, b) == s * a + t * b;
    MulNonneg(s, a);
    MulNonneg(t, b);
    assert 1.0 - Lerp(t, a, b) == s * (1.0 - a) + t * (1.0 - b);
    MulNonneg(s, 1.0 - a);
    MulNonneg(t, 1.0 - b);
  }

  /** `get(x, y)` on the table t.  `Math.floor(x) & 255` keeps the low eight
      bits of the two's-complement pattern, which is floor(x) mod 256 with a
      non-negative remainder (Dafny's `%`), also for negative x. */
  function NoiseAt(t: Perm512, x: real, y: real): (r: real)
    ensures 0.0 <= r <= 1.0
  {
    var gx := x.Floor % 256;
    var gy := y.Floor % 256;
    var fx := x - x.Floor as real;
    var fy := y - y.Floor as real;
    var u := Fade(fx);
    var v := Fade(fy);
    var aa := t[t[gx] + gy];
    var ab := t[t[gx] + gy + 1];
    var ba := t[t[gx + 1] + gy];
    var bb := t[t[gx + 1] + gy + 1];
    FadeRange(fx);
    FadeRange(fy);
    LerpRange(u, Val(aa), Val(ba));
    LerpRange(u, Val(ab), Val(bb));
    LerpRange(v, Lerp(u, Val(aa), Val(ba)), Lerp(u, Val(ab), Val(bb)));
    Lerp(v, Lerp(u, Val(aa), Val(ba)), Lerp(u, Val(ab), Val(bb)))
  }

  /** The lattice cell is all that changes between x and x + 256: the noise
      tiles the plane with period 256 on each axis. */
  lemma {:induction false} NoisePeriodic(t: Perm512, x: real, y: real)
    ensures NoiseAt(t, x + 256.0, y) == NoiseAt(t, x, y)
    ensures NoiseAt(t, x, y + 256.0) == NoiseAt(t, x, y)
  {
    assert (x + 256.0).Floor == x.Floor + 256;
    assert (y + 256.0).Floor == y.Floor + 256;
    assert (x.Floor + 256) % 256 == x.Floor % 256;
    assert (y.Floor + 256) % 256 == y.Floor % 256;
  }

  /** At a lattice point the fade weights are zero and the sample is the
      corner value val(perm[perm[X] + Y]). */
  lemma NoiseAtLattice(t: Perm512, x: int, y: int)
    ensures NoiseAt(t, x as real, y as real) == Val(t[t[x % 256] + y % 256])
  {
    assert (x as real).Floor == x;
    assert (y as real).Floor == y;
  }

  /** The module-level `lerp(start, end, t)`. */
  function Mix(start: real, end: real, t: real): (r: real)
    ensures t == 0.0 ==> r == start
    ensures t == 1.0 ==> r == end
  {
    start * (1.0 - t) + end * t
  }

  /** The exported lerp and the class's private lerp are the same function. */
  lemma MixIsLerp(start: real, end: real, t: real)
    ensures Mix(start, end, t) == Lerp(t, start, end)
  {
    assert start * (1.0 - t) == start - start * t;
    assert t * (end - start) == t * end - t * start;
  }

  /** `for (i = 0; i < 256; i++) p[i] = i` */
  method IdentityArray() returns (p: array<int>)
    ensures fresh(p) && p[..] == Identity256()
  {
    p := new int[256];
    var i := 0;
    while i < 256
      invariant 0 <= i <= 256
      invariant forall k :: 0 <= k < i ==> p[k] == k
    {
      p[i] := i;
      i := i + 1;
    }
  }

  /** `for (i = 255; i > 0; i--)`: swap p[i] with p[floor(next() * (i + 1))]. */
  method ShuffleInPlace(p: array<int>, g: SeededRandom)
    requires p[..] == Identity256() && g.Valid() && g.calls == 0
    modifies p, g
    ensures g.Valid() && g.calls == 255
    ensures p[..] == Shuffled(g.seedHash, 255)
  {
    var i := 255;
    while i > 0
      invariant 0 <= i <= 255
      invariant g.Valid() && g.calls == 255 - i
      invariant p[..] == Shuffled(g.seedHash, g.calls)
    {
      ghost var k := g.calls;
      ghost var before := p[..];
      ShuffledStep(g.seedHash, k);
      var x := g.Next();
      var r := (x * (i + 1) as real).Floor;
      SwapIndexIsFloor(x, Draw(g.seedHash, k), i);
      p[i], p[r] := p[r], p[i];
      assert p[..] == Swap(before, i, r);
      assert i == 255 - k && r == SwapIndex(Draw(g.seedHash, k), 255 - k);
      assert p[..] == Shuffled(g.seedHash, k + 1);
      assert g.calls == k + 1;
      i := i - 1;
    }
  }

  /** `for (i = 0; i < 512; i++) perm[i] = p[i & 255]` */
  method DoubleInto(p: array<int>) returns (t: array<int>)
    requires p.Length == 256 && forall k :: 0 <= k < 256 ==> 0 <= p[k] < 256
    ensures fresh(t) && t[..] == Doubled(p[..])
  {
    t := new int[512];
    var i := 0;
    while i < 512
      invariant 0 <= i <= 512
      invariant forall k :: 0 <= k < i ==> t[k] == p[k % 256]
    {
      t[i] := p[i % 256];
      i := i + 1;
    }
  }

  // ---------------------------------------------------------------------
  // The class

  /** A noise generator: its table is fixed by the seed string. */
  class Noise2D {
    const rng: SeededRandom
    const perm: array<int>
    ghost const seed: string
    ghost const table: Perm512

    /** `perm` holds the table. */
    ghost predicate Valid()
      reads this, perm
    {
      perm.Length == 512 && perm[..] == table
    }

    /** The table is the one the seed string determines. */
    ghost predicate Seeded()
    {
      table == PermTable(seed)
    }

    /** Identity array, 255 Fisher-Yates swaps drawn from g, then the
        512-entry table. */
    static method BuildTable(g: SeededRandom) returns (t: array<int>)
      requires g.Valid() && g.calls == 0
      modifies g
      ensures fresh(t) && t[..] == TableFromHash(g.seedHash)
      ensures g.Valid() && g.calls == 255
    {
      var p := IdentityArray();
      ShuffleInPlace(p, g);
      ghost var shuffled := p[..];
      PermutationFacts(shuffled);
      t := DoubleInto(p);
    }

    /** The constructor: identity array, 255 Fisher-Yates swaps, then the
        512-entry table. */
    constructor (seedStr: string)
      ensures Valid() && Seeded() && seed == seedStr
      ensures fresh(perm) && fresh(rng)
    {
      var g := new SeededRandom(seedStr);
      var t := BuildTable(g);
      assert t[..] == PermTable(seedStr);
      rng := g;
      perm := t;
      seed := seedStr;
      table := PermTable(seedStr);
    }

    /** `get(x, y)`: a value in [0, 1] that depends only on the table. */
    function Get(x: real, y: real): (r: real)
      requires Valid()
      reads this, perm
      ensures r == NoiseAt(table, x, y)
      ensures 0.0 <= r <= 1.0
    {
      NoiseAt(perm[..], x, y)
    }
  }

  /** Two generators built from the same string agree everywhere. */
  lemma SameSeedSameNoise(a: Noise2D, b: Noise2D, x: real, y: real)
    requires a.Valid() && b.Valid() && a.Seeded() && b.Seeded() && a.seed == b.seed
    ensures a.Get(x, y) == b.Get(x, y)
  {
  }
}
