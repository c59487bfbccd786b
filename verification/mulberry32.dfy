/**
  The `mulberry32` pseudo-random generator of app/page.tsx.

  The JavaScript closure keeps its seed as an unbounded number and adds
  0x6d2b79f5 before every draw; every later bit operation (`>>>`, `^`, `|`,
  `Math.imul`) first reduces its operands to 32 bits, so a draw depends only
  on the seed modulo 2^32. The model keeps the state as a 32-bit word,
  advances it with wrapping addition, and proves that this word is exactly
  the JavaScript seed reduced modulo 2^32 (`StateTracksSeed`).

  The stream functions take the output scrambler as a parameter and `Mix`
  is the one the source uses: every property of the stream proved here holds
  whatever the scrambler, and keeping the bit-level body of `Mix` out of the
  proofs keeps them cheap.
 */
module Mulberry32 {

  const Modulus: int := 0x1_0000_0000

  /** An unsigned 32-bit value, as produced by ToUint32. */
  type Word = x: int | 0 <= x < 0x1_0000_0000

  /** The constant added to the seed before every draw. */
  const Increment: Word := 0x6d2b79f5

  /** A function from the advanced state to the 32-bit output. */
  type Scrambler = Word -> Word

  /** ToUint32 of an integer seed: the unique word congruent to it. */
  function Init(seed: int): (s: Word)
    ensures (seed - s) % Modulus == 0
  {
    seed % Modulus
  }

  /** The output scrambler of mulberry32, applied to the freshly advanced
      state. Shifts on `bv32` are logical, as `>>>` is; `*` on `bv32` wraps
      as `Math.imul` does; the sum `t + Math.imul(..)` is reduced to 32 bits
      by the `^=` that consumes it. */
  function Mix(w: Word): Word
  {
    var t := w as bv32;
    var t1 := (t ^ (t >> 15)) * (t | 1);
    var t2 := t1 ^ (t1 + (t1 ^ (t1 >> 7)) * (t1 | 61));
    (t2 ^ (t2 >> 14)) as int
  }

  /** The state update: add the increment, wrapping at 2^32. */
  function Next(s: Word): Word
  {
    (s + Increment) % Modulus
  }

  /** One call of the closure: the 32-bit output and the state after it. */
  datatype Draw = Draw(out: Word, next: Word)

  function Step(mix: Scrambler, s: Word): Draw
  {
    Draw(mix(Next(s)), Next(s))
  }

  /** The value the closure returns for a raw output: k / 2^32, which is
      always in [0, 1). */
  function Unit(k: Word): (r: real)
    ensures 0.0 <= r < 1.0
    ensures r * 4294967296.0 == k as real
  {
    k as real / 4294967296.0
  }

  /** The state after `n` calls. */
  function Advance(s: Word, n: nat): Word
    decreases n
  {
    if n == 0 then s else Advance(Next(s), n - 1)
  }

  /** The raw outputs of the first `n` calls, in order. */
  function Outputs(mix: Scrambler, s: Word, n: nat): (ks: seq<Word>)
    ensures |ks| == n
    decreases n
  {
    if n == 0 then [] else [Step(mix, s).out] + Outputs(mix, Step(mix, s).next, n - 1)
  }

  /** Reducing modulo 2^32 before an addition changes nothing. */
  lemma ModAdd(a: int, b: int)
    ensures (a % Modulus + b) % Modulus == (a + b) % Modulus
  {
  }

  /** After `n` calls the state is the initial state plus `n` increments,
      modulo 2^32. */
  lemma {:induction false} AdvanceClosedForm(s: Word, n: nat)
    ensures Advance(s, n) == (s + n * Increment) % Modulus
    decreases n
  {
    if n > 0 {
      AdvanceClosedForm(Next(s), n - 1);
      ModAdd(s + Increment, (n - 1) * Increment);
    }
  }

  /** The 32-bit state is the JavaScript seed, which grows by 0x6d2b79f5 per
      call without wrapping, reduced modulo 2^32. */
  lemma StateTracksSeed(seed: int, n: nat)
    ensures Advance(Init(seed), n) == Init(seed + n * Increment)
  {
    AdvanceClosedForm(Init(seed), n);
    ModAdd(seed, n * Increment);
  }

  /** One call on the state of the JavaScript seed `seed` yields the output
      for, and the state of, `seed + 0x6d2b79f5`. */
  lemma StepTracksSeed(mix: Scrambler, seed: int)
    ensures Step(mix, Init(seed)) == Draw(mix(Init(seed + Increment)), Init(seed + Increment))
  {
  }

  /** Output `k` (counting from 0) is the scrambled state after `k + 1`
      calls; it depends on nothing else. */
  lemma {:induction false} OutputsNth(mix: Scrambler, s: Word, n: nat, k: nat)
    requires k < n
    ensures Outputs(mix, s, n)[k] == mix(Advance(s, k + 1))
    decreases k
  {
    if k > 0 {
      OutputsNth(mix, Next(s), n - 1, k - 1);
    }
  }

  /** Draw `k` of `mulberry32(seed)` depends only on
      `(seed + (k + 1) * 0x6d2b79f5) mod 2^32`. */
  lemma SeedDraw(mix: Scrambler, seed: int, n: nat, k: nat)
    requires k < n
    ensures Outputs(mix, Init(seed), n)[k] == mix(Init(seed + (k + 1) * Increment))
  {
    OutputsNth(mix, Init(seed), n, k);
    StateTracksSeed(seed, k + 1);
  }

  /** Seeds congruent modulo 2^32 start from the same state, hence give the
      same stream. */
  lemma SeedCongruence(seed1: int, seed2: int)
    requires (seed1 - seed2) % Modulus == 0
    ensures Init(seed1) == Init(seed2)
  {
  }

  /** Taking `m + n` draws is taking `m` and then `n` more from where the
      first `m` left the state. */
  lemma {:induction false} OutputsSplit(mix: Scrambler, s: Word, m: nat, n: nat)
    ensures Outputs(mix, s, m + n) == Outputs(mix, s, m) + Outputs(mix, Advance(s, m), n)
    decreases m
  {
    if m > 0 {
      OutputsSplit(mix, Next(s), m - 1, n);
    }
  }
}
