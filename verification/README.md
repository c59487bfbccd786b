# Falling-leaf generator

A Dafny model of the deterministic leaf generator behind the landing page
of `app/page.tsx`. It has two parts:

- `mulberry32` is a seedable 32-bit pseudo-random generator. Its model is
  module `Mulberry32` in `mulberry32.dfy`.
- `buildLeaves(count, seed = 20260211)` turns one base stream into a list
  of `FallingLeaf` descriptors: ids, depth, size, position, drift, spins,
  timing, opacity and three colours. Its model is module `Leaves` in
  `leaves.dfy`.

How the model is built:

- **Generator state.** It is a 32-bit word, and each call advances it by
  0x6d2b79f5 with wrapping addition. The JavaScript seed is a number that
  grows without wrapping. Every later bit operation reduces it to 32 bits,
  so the word is that seed modulo 2^32, as `StateTracksSeed` proves.
- **Output scrambler.** `Mix` is the `Math.imul`/`^`/`>>>` scrambler,
  written on `bv32`. The stream functions take the scrambler as a
  parameter, so the structural facts about the stream hold for any
  scrambler. `Mix` is passed in only where `buildLeaves` is modelled.
- **Draws.** A draw `k` stands for the number `k / 2^32`.
- **Sub-seeds and picks.** The sub-seed `floor(u * 1e9) + i * 97` and the
  pick index `floor(u * 3)` are exact integer quotients of `k`: the float
  products they come from are exact.
- **Coin tests.** The comparisons of a draw with 0.45 and 0.5 are exact
  thresholds on `k` (`CoinThresholds`). No `k / 2^32` lies between 0.45 and
  the double nearest to 0.45, so the float comparison decides the same.
- **Numeric fields.** These are reals. `Math.pow(u, 1.7)` is a parameter
  `pow: real -> real` about which nothing is assumed. The clamp
  `min(1, max(0, ·))` that follows it is modelled.
- **Zero or negative count.** For `count <= 0` the loop
  `for (let i = 0; i < count; i++)` runs no iteration, so `buildLeaves`
  returns `[]` and raises nothing. `BuildLeaves` does the same.

## Model

| member | source | states |
|---|---|---|
| Mulberry32.Init | app/page.tsx:11-12 | the starting state is the unique 32-bit word congruent to the seed modulo 2^32, which is the value ToUint32 gives the seed |
| Mulberry32.Mix | app/page.tsx:12-14 | the output scrambler on `bv32`: logical shifts for `>>>`, wrapping products for `Math.imul`, the sum reduced to 32 bits by `^=`; it has no contract, and its values on two states are stated by `MixFirstPageState` and `MixSecondPageState` |
| Mulberry32.Unit | app/page.tsx:14 | every value the generator returns lies in [0, 1), and it is exactly the raw 32-bit output divided by 2^32 |
| Mulberry32.Outputs | app/page.tsx:10-15 | `n` calls of the closure produce exactly `n` outputs |
| Mulberry32.AdvanceClosedForm | app/page.tsx:11 | after `n` calls the state is the initial state plus `n` times 0x6d2b79f5, modulo 2^32 |
| Mulberry32.StateTracksSeed | app/page.tsx:9-11 | the wrapping 32-bit state after `n` calls equals the unwrapped JavaScript seed `seed + n * 0x6d2b79f5` reduced modulo 2^32 |
| Mulberry32.StepTracksSeed | app/page.tsx:10-14 | one call on the state of seed `s` yields the scrambled state of `s + 0x6d2b79f5` and leaves that state behind |
| Mulberry32.OutputsNth | app/page.tsx:9-15 | output `k` of the stream is the scrambler applied to the state after `k + 1` calls, independent of how many outputs are taken |
| Mulberry32.SeedDraw | app/page.tsx:9-15 | draw `k` of `mulberry32(seed)` depends only on `(seed + (k + 1) * 0x6d2b79f5) mod 2^32` |
| Mulberry32.SeedCongruence | app/page.tsx:11-12 | seeds congruent modulo 2^32 give the same starting state, hence the same stream |
| Mulberry32.OutputsSplit | app/page.tsx:10-15 | taking `m + n` draws is taking `m` draws and then `n` more from the state the first `m` left |
| Leaves.PalettesDisjoint | app/page.tsx:40-41 | no colour is both in the green and in the purple palette |
| Leaves.Clamp01 | app/page.tsx:50 | the clamped depth lies in [0, 1]; it is the input when the input already lies there, 0 below and 1 above |
| Leaves.PickIndex | app/page.tsx:44 | `floor(u * n)` equals the integer quotient `n * k / 2^32` and is a valid index of any non-empty array of length `n` |
| Leaves.Pick | app/page.tsx:44 | `pick` returns an element exactly when the array is non-empty, that element is in the array, and it sits at index `n * k / 2^32` |
| Leaves.SubSeed | app/page.tsx:48 | the sub-seed is `k * 10^9 / 2^32` plus `i * 97`, so it lies in `[i * 97, 10^9 + i * 97)` |
| Leaves.Spread | app/page.tsx:59-65 | `(u * 2 - 1) * a` for a draw `u` has magnitude at most `a`, and lies in `[-a, a)` when `a > 0` |
| Leaves.CoinThresholds | app/page.tsx:53-54 | the coin test `> 0.45` holds exactly for raw draws from 1932735284 on, and the test `> 0.5` exactly for raw draws above 2^31 |
| Leaves.FirstColor | app/page.tsx:53 | `c1` is a green if and only if its coin exceeds 0.45, and a purple if and only if it does not |
| Leaves.SecondColor | app/page.tsx:54 | `c2` is a purple if and only if its coin exceeds 0.5, and a green if and only if it does not |
| Leaves.AccentColor | app/page.tsx:55 | `c3` is always a yellow |
| Leaves.MakeLeaf | app/page.tsx:50-88 | the descriptor carries the loop index as its id and satisfies every range bound: depth in [0, 1], `isFront` iff depth > 0.62, the size, x, drift, spin, duration, delay and opacity bounds, and palette membership; when `pow` stays in [0, 1] the depth is `pow(u)` itself; the colour iff facts hold |
| Leaves.DrawsOf | app/page.tsx:48-69 | a leaf's sixteen draws are the first sixteen outputs of the sub-stream, taken in the order the loop body consumes them; its contract is stated by `DrawsOrder` |
| Leaves.DrawsOrder | app/page.tsx:50-69 | field `n` of the draws (depth, the coin and pick for `c1`, the coin and pick for `c2`, the pick for `c3`, size, x, drift, rotateZ, rotateZ2, rotateX, rotateY, duration, delay, opacity) is draw `n` of `mulberry32(subSeed)`, that is, the scrambled state of `subSeed + n * 0x6d2b79f5` |
| Leaves.LeafFor | app/page.tsx:48-88 | the leaf built from a base draw and its index carries that index as id and is in range |
| Leaves.Generate | app/page.tsx:46-89 | `n` loop iterations from index `first` give exactly `n` leaves, numbered `first, first + 1, ...`, each in range |
| Leaves.BuildLeaves | app/page.tsx:37-92 | `buildLeaves(count, seed)` returns `max(count, 0)` leaves; the leaf at position `j` has id `j` and satisfies every range and palette bound |
| Leaves.GenerateNth | app/page.tsx:46-48 | leaf `j` of the list is built from exactly the `j`-th base draw, with index `first + j` |
| Leaves.BuildLeavesNth | app/page.tsx:37-48 | leaf `j` of `buildLeaves(count, seed)` is the closed-form leaf `LeafAt(seed, j)`, independent of `count` and of the other leaves |
| Leaves.BuildLeavesPrefix | app/page.tsx:46-47 | asking for fewer leaves gives a prefix of the longer list |
| Leaves.BuildLeavesSeedCongruence | app/page.tsx:37-38 | two seeds congruent modulo 2^32 give the same leaf list |
| Leaves.DepthOrdering | app/page.tsx:50-69 | for the same draws, a greater depth gives a leaf at least as large and as opaque, no slower, at least as likely to be in front, with the same position, spin start, delay and colours |
| Leaves.MixFirstPageState | app/page.tsx:11-14 | the scrambler maps the state after the first call of `mulberry32(20260211)` to 273380713 |
| Leaves.MixSecondPageState | app/page.tsx:11-14 | the scrambler maps the state after the second call to 2204926365 |
| Leaves.PageBaseDraws | app/page.tsx:37-38 | the first two base draws with the default seed are 273380713 and 2204926365 |
| Leaves.PageSubSeeds | app/page.tsx:48 | with the default seed, leaves 0 and 1 are built from sub-streams seeded with 63651407 and 513374521 |
| Leaves.BuildLeavesLoop | app/page.tsx:46-91 | the imperative loop with one advancing base stream and an array pushed in index order computes `BuildLeaves`, and its leaf `j` is `LeafAt(seed, j)` |

## Left out

- `MaskedStainedGlassLeaf`, `LeafRain` and `Home` (app/page.tsx:94-315) are left out. They are React rendering, CSS masks and framer-motion timing, with no logic of their own.
- app/layout.tsx and tailwind.config.ts are not part of this model: they hold static markup and styling configuration.
- `Math.pow(u, 1.7)` is the abstract parameter `pow`. Its monotonicity and its range on [0, 1) are not assumed, so only the clamp's guarantees are proved about depth.
- IEEE-754 rounding of the affine formulas (app/page.tsx:50-69) is not modelled. Each numeric field is an exact real that approximates a value the source computes with several double roundings (size, for instance, takes four). The decimal literals 0.14, 0.72, 0.08, 2.3 and 0.62 are used exactly, although the doubles the source uses differ from them slightly. The bounds are proved for the reals; the corresponding bounds on the doubles are not proved.
- A non-integer, NaN or infinite `count` or `seed` is not modelled. `count` and `seed` are integers.
- The JavaScript seed stays an exact integer only below 2^53. The model treats it as an unbounded integer, which agrees with the code for every seed the page uses.
- Mix: its body defines the scrambler completely, but no general property of it (bijectivity, distribution) is stated. `MixFirstPageState` and `MixSecondPageState` evaluate it on two known states.
- Seed sensitivity (different seeds giving visibly different lists) is a statistical property and is not stated.
