/**
 * The seed hash (cyrb128) and the small PRNG seeded by it (math.ts; the
 * authority's copy in server/server.js is the same text).
 *
 * JavaScript does this arithmetic on doubles and int32/uint32 views of them:
 * `Math.imul` keeps the low 32 bits of the product, `^` and `|` work on the
 * int32 view, `>>>` on the uint32 view.  All of these agree with `bv32`
 * operations on the two's-complement bit pattern, which is how they are
 * written here.
 */
module Hash {

  // Arithmetic below writes 2^32 as the literal 0x1_0000_0000 and the
  // increment of next() as the literal 0x6D2B79F5: the verifier treats a
  // product with a named constant as nonlinear.

  /** A UTF-16 code unit, the number `charCodeAt` returns. */
  type CodeUnit = k: int | 0 <= k < 0x10000

  /** The UTF-16 code units `charCodeAt` yields for a string: characters above
      U+FFFF become a surrogate pair. */
  function CodeUnits(s: string): (r: seq<CodeUnit>)
    ensures |r| >= |s|
  {
    if s == [] then []
    else
      var c := s[0] as int;
      var head: seq<CodeUnit> :=
        if c < 0x10000 then [c]
        else [0xD800 + (c - 0x10000) / 0x400, 0xDC00 + (c - 0x10000) % 0x400];
      head + CodeUnits(s[1..])
  }

  /** On a string without characters above U+FFFF, the code units are the characters. */
  lemma {:induction false} CodeUnitsOfBasic(s: string)
    requires forall i :: 0 <= i < |s| ==> (s[i] as int) < 0x10000
    ensures |CodeUnits(s)| == |s|
    ensures forall i :: 0 <= i < |s| ==> CodeUnits(s)[i] == s[i] as int
  {
    if s != [] {
      CodeUnitsOfBasic(s[1..]);
    }
  }

  /** The four 32-bit accumulators of cyrb128. */
  datatype Acc = Acc(h1: bv32, h2: bv32, h3: bv32, h4: bv32)

  const INIT: Acc := Acc(1779033703, 3144134277, 1013904242, 2773480762)

  /** `a ^ Math.imul(b ^ k, c)`, the shape of each loop line of cyrb128. */
  function Churn(a: bv32, b: bv32, k: bv32, c: bv32): bv32
  {
    a ^ ((b ^ k) * c)
  }

  /** `Math.imul(a ^ (b >>> n), c)`, the shape of each final line of cyrb128. */
  function Avalanche(a: bv32, b: bv32, n: bv32, c: bv32): bv32
    requires n < 32
  {
    (a ^ (b >> n)) * c
  }

  /** One loop iteration of cyrb128 on code unit `k`; h4 uses the new h1. */
  function Absorb(a: Acc, k: CodeUnit): Acc
  {
    var kb := k as bv32;
    var h1 := Churn(a.h2, a.h1, kb, 597399067);
    var h2 := Churn(a.h3, a.h2, kb, 2869860233);
    var h3 := Churn(a.h4, a.h3, kb, 951274213);
    var h4 := Churn(h1, a.h4, kb, 2716044179);
    Acc(h1, h2, h3, h4)
  }

  /** The accumulators after absorbing `ks` left to right. */
  function AbsorbAll(ks: seq<CodeUnit>): Acc
    decreases |ks|
  {
    if ks == [] then INIT else Absorb(AbsorbAll(ks[..|ks| - 1]), ks[|ks| - 1])
  }

  lemma AbsorbAllSnoc(ks: seq<CodeUnit>, i: nat)
    requires i < |ks|
    ensures AbsorbAll(ks[..i + 1]) == Absorb(AbsorbAll(ks[..i]), ks[i])
  {
    assert ks[..i + 1][..i] == ks[..i];
  }

  /** The final avalanche, then `>>> 0`. */
  function Finish(a: Acc): bv32
  {
    var h1 := Avalanche(a.h3, a.h1, 18, 597399067);
    var h2 := Avalanche(a.h4, a.h2, 22, 2869860233);
    var h3 := Avalanche(h1, a.h3, 17, 951274213);
    var h4 := Avalanche(h2, a.h4, 19, 2716044179);
    h1 ^ h2 ^ h3 ^ h4
  }

  /** cyrb128(str): a pure function of the string, an integer in [0, 2^32). */
  function Cyrb128(s: string): (r: nat)
    ensures r < 0x1_0000_0000
  {
    Finish(AbsorbAll(CodeUnits(s))) as nat
  }

  /** cyrb128 as the source computes it: one pass over the code units. */
  method ComputeCyrb128(str: string) returns (r: nat)
    ensures r == Cyrb128(str)
  {
    var ks := CodeUnits(str);
    var h1: bv32, h2: bv32, h3: bv32, h4: bv32 := 1779033703, 3144134277, 1013904242, 2773480762;
    var i := 0;
    while i < |ks|
      invariant 0 <= i <= |ks|
      invariant Acc(h1, h2, h3, h4) == AbsorbAll(ks[..i])
    {
      AbsorbAllSnoc(ks, i);
      var k := ks[i] as bv32;
      h1 := Churn(h2, h1, k, 597399067);
      h2 := Churn(h3, h2, k, 2869860233);
      h3 := Churn(h4, h3, k, 951274213);
      h4 := Churn(h1, h4, k, 2716044179);
      i := i + 1;
    }
    assert ks[..|ks|] == ks;
    r := Finish(Acc(h1, h2, h3, h4)) as nat;
  }

  /** `Math.imul(t ^ (t >>> 15), t | 1)` */
  function Scramble(t: bv32): bv32
  {
    (t ^ (t >> 15)) * (t | 1)
  }

  /** `t ^ (t + Math.imul(t ^ (t >>> 7), t | 61))`; the JavaScript sum is
      reduced mod 2^32 by the outer `^`, which is bv32 addition. */
  function Rescramble(t: bv32): bv32
  {
    t ^ (t + (t ^ (t >> 7)) * (t | 61))
  }

  /** `(t ^ (t >>> 14)) >>> 0` */
  function Temper(t: bv32): nat
  {
    (t ^ (t >> 14)) as nat
  }

  /** The uint32 (equally int32) bit pattern of an integer-valued number. */
  function Bits(s: int): bv32
  {
    (s % 0x1_0000_0000) as bv32
  }

  /** The integer n < 2^32 that next() divides by 2^32 once its state has
      become `s`.  Only s mod 2^32 enters: that is all the int32/uint32 views see. */
  function Output(s: int): (n: nat)
    ensures n < 0x1_0000_0000
  {
    Temper(Rescramble(Scramble(Bits(s))))
  }

  /** Shifting the state by a multiple of 2^32 does not change the output. */
  lemma OutputModulo(s: int, k: int)
    ensures Output(s + k * 0x1_0000_0000) == Output(s)
  {
    BitsModulo(s, k);
  }

  lemma BitsModulo(s: int, k: int)
    ensures Bits(s + k * 0x1_0000_0000) == Bits(s)
  {
    assert (s + k * 0x1_0000_0000) % 0x1_0000_0000 == s % 0x1_0000_0000;
  }

  /** The value next() returns for the integer n: n / 2^32. */
  function Unit(n: nat): real
  {
    n as real / 0x1_0000_0000 as real
  }

  lemma UnitRange(n: nat)
    requires n < 0x1_0000_0000
    ensures 0.0 <= Unit(n) < 1.0
  {
  }

  /** The k-th (0-based) integer drawn by a generator whose hash was h. */
  function Draw(h: int, k: nat): (n: nat)
    ensures n < 0x1_0000_0000
  {
    Output(h + (k + 1) * 0x6D2B79F5)
  }

  /** The k-th draw is the output once the state has reached h + (k+1)*0x6D2B79F5. */
  lemma DrawIsOutput(h: int, k: nat, s: int)
    requires s == h + k * 0x6D2B79F5 + 0x6D2B79F5
    ensures Output(s) == Draw(h, k)
  {
    assert s == h + (k + 1) * 0x6D2B79F5;
  }

  /** After k draws the state is h + k*0x6D2B79F5; only that value mod 2^32 affects
      what comes next, so the stream repeats with period 2^32. */
  lemma DrawPeriodic(h: int, k: nat)
    ensures Draw(h, k + 0x1_0000_0000) == Draw(h, k)
  {
    var s := h + (k + 1) * 0x6D2B79F5;
    assert h + (k + 0x1_0000_0000 + 1) * 0x6D2B79F5 == s + 0x6D2B79F5 * 0x1_0000_0000;
    OutputModulo(s, 0x6D2B79F5);
  }

  /** The seeded generator.  The state is an unbounded integer, as the source's
      JavaScript number is (exact while below 2^53). */
  class SeededRandom {
    var state: int
    ghost const seedHash: nat
    ghost var calls: nat

    ghost predicate Valid()
      reads this
    {
      state == seedHash + calls * 0x6D2B79F5
    }

    constructor (seedStr: string)
      ensures Valid() && seedHash == Cyrb128(seedStr) && calls == 0
    {
      var h := ComputeCyrb128(seedStr);
      state := h;
      seedHash := h;
      calls := 0;
    }

    /** next(): advances the state by 0x6D2B79F5 and returns the k-th draw over 2^32. */
    method Next() returns (x: real)
      requires Valid()
      modifies this
      ensures Valid() && calls == old(calls) + 1
      ensures state == old(state) + 0x6D2B79F5
      ensures x == Unit(Draw(seedHash, old(calls)))
      ensures 0.0 <= x < 1.0
    {
      state := state + 0x6D2B79F5;
      calls := calls + 1;
      var n := Output(state);
      DrawIsOutput(seedHash, old(calls), state);
      x := n as real / 0x1_0000_0000 as real;
      UnitRange(n);
    }
  }

  /** Two generators built from the same string emit the same numbers: the
      j-th value of each is the j-th draw of the string's hash. */
  method SameSeedSameStream(seedStr: string, k: nat) returns (xs: seq<real>, ys: seq<real>)
    ensures |xs| == k && xs == ys
    ensures forall j :: 0 <= j < k ==> xs[j] == Unit(Draw(Cyrb128(seedStr), j))
  {
    var a := new SeededRandom(seedStr);
    var b := new SeededRandom(seedStr);
    ghost var h := Cyrb128(seedStr);
    xs, ys := [], [];
    while |xs| < k
      invariant |xs| <= k && xs == ys
      invariant a.Valid() && b.Valid() && a != b
      invariant a.seedHash == b.seedHash == h
      invariant a.calls == b.calls == |xs|
      invariant forall j :: 0 <= j < |xs| ==> xs[j] == Unit(Draw(h, j))
      decreases k - |xs|
    {
      var x := a.Next();
      var y := b.Next();
      assert x == y == Unit(Draw(h, |xs|));
      ghost var prev := xs;
      xs, ys := xs + [x], ys + [y];
      forall j | 0 <= j < |xs|
        ensures xs[j] == Unit(Draw(h, j))
      {
        if j < |prev| {
          assert xs[j] == prev[j];
        } else {
          assert j == |prev|;
          assert xs[j] == x;
        }
      }
    }
  }
}
