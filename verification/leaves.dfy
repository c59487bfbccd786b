/**
  `buildLeaves` of app/page.tsx: the deterministic list of falling-leaf
  descriptors that the landing page animates.

  For leaf `i` the builder takes one draw from a base `mulberry32` stream,
  turns it into a sub-seed, and takes exactly sixteen draws from the
  sub-stream, in the order the fields of `Draws` list. Numeric fields are
  reals: floating-point rounding is not modelled, and `Math.pow(u, 1.7)` is
  the parameter `pow`, about which nothing is assumed.

  Proofs that only move draws and leaves around `hide` the bit-level body of
  `Mix` and the leaf formulas: those bodies play no part in them and only
  slow the solver down.
 */
module Leaves {

  import opened Mulberry32

  type Color = string

  const Greens: seq<Color> := ["#39FF14", "#A6FF4D", "#00FF9A"]
  const Purples: seq<Color> := ["#8A2BE2", "#B65CFF", "#6D28D9"]
  const Yellows: seq<Color> := ["#FFE86B", "#FFD54A", "#C7FF4D"]

  /** The seed `buildLeaves` uses when none is given. */
  const DefaultSeed: int := 20260211

  /** No colour is both green and purple, so the palette a leaf colour comes
      from can be read off the colour. */
  lemma PalettesDisjoint()
    ensures forall c :: c in Greens ==> c !in Purples
  {
  }

  /** A leaf is drawn in front of the others when its depth exceeds this. */
  const FrontThreshold: real := 0.62

  /** Index access on a JavaScript array: out of range gives `undefined`. */
  datatype Option<T> = None | Some(value: T)

  /** One leaf descriptor; field names follow the `FallingLeaf` record. */
  datatype Leaf = Leaf(
    id: nat,
    depth: real,
    isFront: bool,
    size: real,
    x: real,
    drift: real,
    rotateZ: real,
    rotateZ2: real,
    rotateX: real,
    rotateY: real,
    duration: real,
    delay: real,
    opacity: real,
    c1: Color,
    c2: Color,
    c3: Color)

  function Abs(v: real): real
  {
    if v < 0.0 then -v else v
  }

  function Min(a: real, b: real): real
  {
    if a <= b then a else b
  }

  function Max(a: real, b: real): real
  {
    if a >= b then a else b
  }

  /** `Math.min(1, Math.max(0, v))`: the nearest point of [0, 1], which is
      `v` itself when `v` already lies there. */
  function Clamp01(v: real): (c: real)
    ensures 0.0 <= c <= 1.0
    ensures 0.0 <= v <= 1.0 ==> c == v
    ensures v < 0.0 ==> c == 0.0
    ensures v > 1.0 ==> c == 1.0
  {
    Min(1.0, Max(0.0, v))
  }

  /** `Math.floor(u * n)` for a draw `u = k / 2^32`. The float product is
      exact, so it equals the integer quotient `n * k / 2^32`, and it is a
      valid index of any non-empty array of length `n`. */
  function PickIndex(n: nat, k: Word): (i: int)
    ensures i == (n * k) / Modulus
    ensures n > 0 ==> 0 <= i < n
    ensures n == 0 ==> i == 0
  {
    (Unit(k) * n as real).Floor
  }

  /** The inner `pick` helper: the element at `floor(u * length)`. */
  function Pick(palette: seq<Color>, k: Word): (c: Option<Color>)
    ensures c.Some? <==> |palette| > 0
    ensures c.Some? ==> c.value in palette
    ensures c.Some? ==> c.value == palette[(|palette| * k) / Modulus]
  {
    var i := PickIndex(|palette|, k);
    if 0 <= i < |palette| then Some(palette[i]) else None
  }

  /** `Math.floor(u * 1e9) + i * 97` for a base draw `u = k / 2^32`. The
      float product `k * 1e9 / 2^32` is exact (`k * 1953125 < 2^53`), so the
      sub-seed is an integer quotient plus the index offset. */
  function SubSeed(k: Word, i: nat): (s: int)
    ensures s == (k * 1000000000) / Modulus + i * 97
    ensures i * 97 <= s < 1000000000 + i * 97
  {
    (Unit(k) * 1000000000.0).Floor + i * 97
  }

  /** `(u * 2 - 1) * amplitude`: a signed value whose magnitude never exceeds
      the amplitude. */
  function Spread(u: real, amplitude: real): (v: real)
    ensures 0.0 <= u < 1.0 && 0.0 <= amplitude ==> Abs(v) <= amplitude
    ensures 0.0 <= u < 1.0 && 0.0 < amplitude ==> -amplitude <= v < amplitude
  {
    SpreadBound(u, amplitude);
    (u * 2.0 - 1.0) * amplitude
  }

  lemma SpreadBound(u: real, amplitude: real)
    ensures 0.0 <= u < 1.0 && 0.0 <= amplitude ==>
      -amplitude <= (u * 2.0 - 1.0) * amplitude <= amplitude
    ensures 0.0 <= u < 1.0 && 0.0 < amplitude ==>
      (u * 2.0 - 1.0) * amplitude < amplitude
  {
  }

  /** The sixteen sub-stream draws of one leaf, as raw 32-bit outputs, in
      the order the loop body consumes them. */
  datatype Draws = Draws(
    depth: Word,
    coin1: Word,
    pick1: Word,
    coin2: Word,
    pick2: Word,
    pick3: Word,
    size: Word,
    x: Word,
    drift: Word,
    rotateZ: Word,
    rotateZ2: Word,
    rotateX: Word,
    rotateY: Word,
    duration: Word,
    delay: Word,
    opacity: Word)

  /** The draws of the sub-stream seeded with `subSeed`: its first sixteen
      outputs, field by field. */
  function DrawsOf(mix: Scrambler, subSeed: int): Draws
  {
    var o := Outputs(mix, Init(subSeed), 16);
    Draws(o[0], o[1], o[2], o[3], o[4], o[5], o[6], o[7],
          o[8], o[9], o[10], o[11], o[12], o[13], o[14], o[15])
  }

  /** The order in which a leaf consumes its sub-stream: field `n` of the
      list above (counting from 1) is draw `n` of `mulberry32(subSeed)`, the
      scrambled state of `subSeed + n * 0x6d2b79f5`. */
  lemma DrawsOrder(mix: Scrambler, subSeed: int)
    ensures DrawsOf(mix, subSeed).depth == mix(Init(subSeed + 1 * Increment))
    ensures DrawsOf(mix, subSeed).coin1 == mix(Init(subSeed + 2 * Increment))
    ensures DrawsOf(mix, subSeed).pick1 == mix(Init(subSeed + 3 * Increment))
    ensures DrawsOf(mix, subSeed).coin2 == mix(Init(subSeed + 4 * Increment))
    ensures DrawsOf(mix, subSeed).pick2 == mix(Init(subSeed + 5 * Increment))
    ensures DrawsOf(mix, subSeed).pick3 == mix(Init(subSeed + 6 * Increment))
    ensures DrawsOf(mix, subSeed).size == mix(Init(subSeed + 7 * Increment))
    ensures DrawsOf(mix, subSeed).x == mix(Init(subSeed + 8 * Increment))
    ensures DrawsOf(mix, subSeed).drift == mix(Init(subSeed + 9 * Increment))
    ensures DrawsOf(mix, subSeed).rotateZ == mix(Init(subSeed + 10 * Increment))
    ensures DrawsOf(mix, subSeed).rotateZ2 == mix(Init(subSeed + 11 * Increment))
    ensures DrawsOf(mix, subSeed).rotateX == mix(Init(subSeed + 12 * Increment))
    ensures DrawsOf(mix, subSeed).rotateY == mix(Init(subSeed + 13 * Increment))
    ensures DrawsOf(mix, subSeed).duration == mix(Init(subSeed + 14 * Increment))
    ensures DrawsOf(mix, subSeed).delay == mix(Init(subSeed + 15 * Increment))
    ensures DrawsOf(mix, subSeed).opacity == mix(Init(subSeed + 16 * Increment))
  {
    var o := Outputs(mix, Init(subSeed), 16);
    forall k | 0 <= k < 16
      ensures o[k] == mix(Init(subSeed + (k + 1) * Increment))
    {
      SeedDraw(mix, subSeed, 16, k);
    }
  }

  /** The coin tests compare `k / 2^32` with 0.45 and 0.5. As 0.45 * 2^32 is
      1932735283.2, the first succeeds exactly for raw draws from 1932735284
      on, and the second for raw draws above 2^31. No draw lies between 0.45
      and the double nearest to it, so the float comparison decides the same. */
  lemma CoinThresholds(k: Word)
    ensures Unit(k) > 0.45 <==> k >= 1932735284
    ensures Unit(k) > 0.5 <==> k > 0x8000_0000
  {
  }

  /** `c1`: a green when its coin draw exceeds 0.45, a purple otherwise. */
  function FirstColor(coin: Word, k: Word): (c: Color)
    ensures c in Greens <==> Unit(coin) > 0.45
    ensures c in Purples <==> !(Unit(coin) > 0.45)
  {
    PalettesDisjoint();
    if Unit(coin) > 0.45 then Pick(Greens, k).value else Pick(Purples, k).value
  }

  /** `c2`: a purple when its coin draw exceeds 0.5, a green otherwise. */
  function SecondColor(coin: Word, k: Word): (c: Color)
    ensures c in Purples <==> Unit(coin) > 0.5
    ensures c in Greens <==> !(Unit(coin) > 0.5)
  {
    PalettesDisjoint();
    if Unit(coin) > 0.5 then Pick(Purples, k).value else Pick(Greens, k).value
  }

  /** `c3`: always a yellow. */
  function AccentColor(k: Word): (c: Color)
    ensures c in Yellows
  {
    Pick(Yellows, k).value
  }

  /** Every bound the descriptor formulas guarantee, whatever the draws and
      whatever `pow` returns. */
  predicate InRange(l: Leaf)
  {
    && 0.0 <= l.depth <= 1.0
    && l.isFront == (l.depth > FrontThreshold)
    && 26.0 <= l.size < 154.0
    && -5.0 <= l.x < 105.0
    && Abs(l.drift) <= 10.0 + 14.0 * l.depth <= 24.0
    && 0.0 <= l.rotateZ < 360.0
    && Abs(l.rotateZ2) <= 520.0 + 640.0 * l.depth <= 1160.0
    && Abs(l.rotateX) <= 6.0 + 10.0 * l.depth <= 16.0
    && Abs(l.rotateY) <= 6.0 + 10.0 * l.depth <= 16.0
    && 9.0 <= l.duration < 20.3
    && 0.0 <= l.delay < 2.2
    && 0.14 <= l.opacity < 0.94
    && (l.c1 in Greens || l.c1 in Purples)
    && (l.c2 in Greens || l.c2 in Purples)
    && l.c3 in Yellows
  }

  /** The body of the loop of `buildLeaves` for one index: the descriptor
      built from the sixteen draws of its sub-stream. */
  function MakeLeaf(id: nat, d: Draws, pow: real -> real): (l: Leaf)
    ensures l.id == id
    ensures InRange(l)
    ensures 0.0 <= pow(Unit(d.depth)) <= 1.0 ==> l.depth == pow(Unit(d.depth))
    ensures l.c1 in Greens <==> Unit(d.coin1) > 0.45
    ensures l.c1 in Purples <==> !(Unit(d.coin1) > 0.45)
    ensures l.c2 in Purples <==> Unit(d.coin2) > 0.5
    ensures l.c2 in Greens <==> !(Unit(d.coin2) > 0.5)
  {
    var depth := Clamp01(pow(Unit(d.depth)));
    Leaf(
      id,
      depth,
      depth > FrontThreshold,
      26.0 + depth * 110.0 + Unit(d.size) * 18.0,
      Unit(d.x) * 110.0 - 5.0,
      Spread(Unit(d.drift), 10.0 + depth * 14.0),
      Unit(d.rotateZ) * 360.0,
      Spread(Unit(d.rotateZ2), 520.0 + depth * 640.0),
      Spread(Unit(d.rotateX), 6.0 + depth * 10.0),
      Spread(Unit(d.rotateY), 6.0 + depth * 10.0),
      18.0 - depth * 9.0 + Unit(d.duration) * 2.3,
      Unit(d.delay) * 2.2,
      0.14 + depth * 0.72 + Unit(d.opacity) * 0.08,
      FirstColor(d.coin1, d.pick1),
      SecondColor(d.coin2, d.pick2),
      AccentColor(d.pick3))
  }

  /** The loop body for index `i` once its base draw `k` is known: the
      sub-seed, the sixteen sub-stream draws, the descriptor. */
  function LeafFor(mix: Scrambler, k: Word, i: nat, pow: real -> real): (l: Leaf)
    ensures l.id == i && InRange(l)
  {
    MakeLeaf(i, DrawsOf(mix, SubSeed(k, i)), pow)
  }

  /** Leaves `first .. first + n - 1`, the base stream standing at `base`:
      each takes one base draw, turns it into its sub-seed and builds itself
      from that sub-stream. */
  function Generate(mix: Scrambler, base: Word, first: nat, n: nat, pow: real -> real): (ls: seq<Leaf>)
    ensures |ls| == n
    ensures forall j :: 0 <= j < n ==> ls[j].id == first + j && InRange(ls[j])
    decreases n
  {
    hide *;
    if n == 0 then []
    else
      var draw := Step(mix, base);
      var rest := Generate(mix, draw.next, first + 1, n - 1, pow);
      var leaf := LeafFor(mix, draw.out, first, pow);
      ConsNumbered(leaf, rest, first);
      [leaf] + rest
  }

  /** A leaf with the next id in front of a numbered, in-range list keeps it
      numbered and in range. */
  lemma ConsNumbered(leaf: Leaf, rest: seq<Leaf>, first: nat)
    requires leaf.id == first && InRange(leaf)
    requires forall j :: 0 <= j < |rest| ==> rest[j].id == first + 1 + j && InRange(rest[j])
    ensures forall j :: 0 <= j < |rest| + 1 ==> ([leaf] + rest)[j].id == first + j && InRange(([leaf] + rest)[j])
  {
  }

  /** `buildLeaves(count, seed)`. The loop `for (i = 0; i < count; i++)`
      runs no iteration when `count` is zero or negative, so the result is
      empty rather than an error. */
  function BuildLeaves(count: int, seed: int, pow: real -> real): (ls: seq<Leaf>)
    ensures |ls| == if count > 0 then count else 0
    ensures forall j :: 0 <= j < |ls| ==> ls[j].id == j && InRange(ls[j])
  {
    if count <= 0 then [] else Generate(Mix, Init(seed), 0, count, pow)
  }

  /** Leaf `j` described on its own: built from the sub-stream whose seed
      comes from draw `j` of `mulberry32(seed)`, which is `Mix` of the seed
      plus `j + 1` increments. Nothing about the other leaves or the count
      enters. */
  function LeafAt(seed: int, j: nat, pow: real -> real): Leaf
  {
    LeafFor(Mix, Mix(Init(seed + (j + 1) * Increment)), j, pow)
  }

  /** Element `j` of `Generate` is built from output `j` of the base
      stream. */
  lemma {:induction false} GenerateNth(mix: Scrambler, base: Word, first: nat, n: nat, pow: real -> real, j: nat)
    requires j < n
    ensures Generate(mix, base, first, n, pow)[j] == LeafFor(mix, Outputs(mix, base, n)[j], first + j, pow)
    decreases j
  {
    hide LeafFor, InRange, MakeLeaf, DrawsOf, Mix;
    var leaf := LeafFor(mix, Step(mix, base).out, first, pow);
    var rest := Generate(mix, Next(base), first + 1, n - 1, pow);
    assert Generate(mix, base, first, n, pow) == [leaf] + rest;
    assert Outputs(mix, base, n) == [Step(mix, base).out] + Outputs(mix, Next(base), n - 1);
    if j > 0 {
      GenerateNth(mix, Next(base), first + 1, n - 1, pow, j - 1);
      assert ([leaf] + rest)[j] == rest[j - 1];
    }
  }

  /** `buildLeaves` agrees, leaf by leaf, with the closed-form description
      `LeafAt`. */
  lemma BuildLeavesNth(count: int, seed: int, pow: real -> real, j: nat)
    requires j < count
    ensures BuildLeaves(count, seed, pow)[j] == LeafAt(seed, j, pow)
  {
    hide LeafFor, Mix;
    GenerateNth(Mix, Init(seed), 0, count, pow, j);
    SeedDraw(Mix, seed, count, j);
  }

  /** The first `n` leaves do not depend on how many more are asked for:
      a shorter list is a prefix of a longer one. */
  lemma BuildLeavesPrefix(m: int, n: int, seed: int, pow: real -> real)
    requires 0 <= n <= m
    ensures BuildLeaves(m, seed, pow)[..n] == BuildLeaves(n, seed, pow)
  {
    forall j | 0 <= j < n
      ensures BuildLeaves(m, seed, pow)[j] == BuildLeaves(n, seed, pow)[j]
    {
      BuildLeavesNth(m, seed, pow, j);
      BuildLeavesNth(n, seed, pow, j);
    }
  }

  /** The list depends on the seed only modulo 2^32. */
  lemma BuildLeavesSeedCongruence(count: int, seed1: int, seed2: int, pow: real -> real)
    requires (seed1 - seed2) % Modulus == 0
    ensures BuildLeaves(count, seed1, pow) == BuildLeaves(count, seed2, pow)
  {
    SeedCongruence(seed1, seed2);
  }

  /** Only `depth` carries the power curve: for the same draws, a deeper
      (nearer) leaf is at least as large, at least as opaque, no slower,
      and at least as likely to be in front; position, spin start, delay
      and colours do not move. */
  lemma DepthOrdering(id: nat, d: Draws, pow1: real -> real, pow2: real -> real)
    requires MakeLeaf(id, d, pow1).depth <= MakeLeaf(id, d, pow2).depth
    ensures MakeLeaf(id, d, pow1).size <= MakeLeaf(id, d, pow2).size
    ensures MakeLeaf(id, d, pow1).opacity <= MakeLeaf(id, d, pow2).opacity
    ensures MakeLeaf(id, d, pow1).duration >= MakeLeaf(id, d, pow2).duration
    ensures MakeLeaf(id, d, pow1).isFront ==> MakeLeaf(id, d, pow2).isFront
    ensures MakeLeaf(id, d, pow1).x == MakeLeaf(id, d, pow2).x
    ensures MakeLeaf(id, d, pow1).rotateZ == MakeLeaf(id, d, pow2).rotateZ
    ensures MakeLeaf(id, d, pow1).delay == MakeLeaf(id, d, pow2).delay
    ensures MakeLeaf(id, d, pow1).c1 == MakeLeaf(id, d, pow2).c1
    ensures MakeLeaf(id, d, pow1).c2 == MakeLeaf(id, d, pow2).c2
    ensures MakeLeaf(id, d, pow1).c3 == MakeLeaf(id, d, pow2).c3
  {
  }

  /** The scrambler on the state after the first call of `mulberry32(20260211)`. */
  lemma MixFirstPageState()
    ensures Mix(1851826024) == 273380713
  {
    var t: bv32 := 1851826024;
    assert 1851826024 as bv32 == t;
    var t1 := (t ^ (t >> 15)) * (t | 1);
    assert t1 == 216119121;
    var t2 := t1 ^ (t1 + (t1 ^ (t1 >> 7)) * (t1 | 61));
    assert t2 == 273364037;
    assert t2 ^ (t2 >> 14) == 273380713;
    assert (t2 ^ (t2 >> 14)) as int == 273380713;
  }

  /** The scrambler on the state after its second call. */
  lemma MixSecondPageState()
    ensures Mix(3683391837) == 2204926365
  {
    var t: bv32 := 3683391837;
    assert 3683391837 as bv32 == t;
    var t1 := (t ^ (t >> 15)) * (t | 1);
    assert t1 == 3979938833;
    var t2 := t1 ^ (t1 + (t1 ^ (t1 >> 7)) * (t1 | 61));
    assert t2 == 2205060135;
    assert t2 ^ (t2 >> 14) == 2204926365;
    assert (t2 ^ (t2 >> 14)) as int == 2204926365;
  }

  /** The first two base draws of the page's call `buildLeaves(16)` with
      the default seed. */
  lemma PageBaseDraws()
    ensures Outputs(Mix, Init(DefaultSeed), 2) == [273380713, 2204926365]
  {
    hide Mix;
    MixFirstPageState();
    MixSecondPageState();
    assert Init(DefaultSeed + Increment) == 1851826024;
    assert Init(DefaultSeed + 2 * Increment) == 3683391837;
    SeedDraw(Mix, DefaultSeed, 2, 0);
    SeedDraw(Mix, DefaultSeed, 2, 1);
  }

  /** The page's call `buildLeaves(16)` with the default seed: its first
      two leaves (see `GenerateNth`) are built from the sub-streams seeded
      with 63651407 and 513374521, the second including the offset 1 * 97. */
  lemma PageSubSeeds()
    ensures SubSeed(Outputs(Mix, Init(DefaultSeed), 2)[0], 0) == 63651407
    ensures SubSeed(Outputs(Mix, Init(DefaultSeed), 2)[1], 1) == 513374521
  {
    hide Mix, Outputs;
    PageBaseDraws();
    assert SubSeed(273380713, 0) == 63651407;
    assert SubSeed(2204926365, 1) == 513374521;
  }

  /** The `for` loop of `buildLeaves` as written: one base-stream closure
      whose state is advanced once per leaf, and an array pushed in index
      order. */
  method BuildLeavesLoop(count: int, seed: int, pow: real -> real) returns (out: seq<Leaf>)
    ensures out == BuildLeaves(count, seed, pow)
    ensures |out| == if count > 0 then count else 0
    ensures forall j :: 0 <= j < |out| ==> out[j] == LeafAt(seed, j, pow)
  {
    hide Mix, LeafFor;
    var base := Init(seed);
    out := [];
    var i := 0;
    while i < count
      invariant 0 <= i <= if count > 0 then count else 0
      invariant base == Init(seed + i * Increment)
      invariant |out| == i
      invariant forall j :: 0 <= j < i ==> out[j] == LeafAt(seed, j, pow)
    {
      var draw := Step(Mix, base);
      StepTracksSeed(Mix, seed + i * Increment);
      assert seed + i * Increment + Increment == seed + (i + 1) * Increment;
      out := out + [LeafFor(Mix, draw.out, i, pow)];
      base := draw.next;
      i := i + 1;
    }
    assert |out| == |BuildLeaves(count, seed, pow)|;
    forall j | 0 <= j < |out|
      ensures out[j] == BuildLeaves(count, seed, pow)[j]
    {
      BuildLeavesNth(count, seed, pow, j);
    }
  }
}
