# Chaos game, modelled in Dafny

This project models the core of `ChaosGame.py`. That file draws chaos-game fractals: a
point repeatedly moves toward a randomly chosen corner of a regular polygon, and the
positions it visits approximate the attractor of the iterated function system (IFS)
made of the contractions toward each corner. The model covers the class
`ChaosGame` and its four pieces of logic:

- **Construction** (`Game.ChaosGame.New`, which models `__init__`). A non-integer corner
  count is rejected, and so is a scale above 1. Otherwise both settings are stored
  unchanged, as `const` fields of the class.
- **The board** (`GenerateBoard`). It allocates `numCorners + 1` zeroed slots as two
  `real` arrays. It overwrites a prefix with `(cos a, sin a)` for the angles
  `np.linspace(0, 2*pi, m)[:-1]`, where `m` is `numCorners` when a corner sits at the
  centre and `numCorners + 1` otherwise. Then it pairs the two arrays into points.
  `linspace` is modelled exactly over the reals, `np.pi` is its decimal value, and
  `cos`/`sin` are parameters.
- **The corner-index stream** (`GenerateIFS`). The probability array is validated and
  completed in the source's order. This is the pure function `Sampling.Normalise`:
  empty means uniform; two or more missing entries are rejected; exactly one missing
  entry is derived as `1 - sum`; too many entries are rejected; a sum other than 1 is
  rejected. Each corner's count is `int(num_points * p[k])`, i.e. truncation toward zero.
  A loop then appends that many copies of each 1-based corner index, and the result is
  shuffled in place by a Fisher–Yates shuffle whose random draws come from a
  parameter `rng`.
- **The recurrence** (`Iterate`, `GenerateFractal`). A `pos` array gets
  `pos[0] = start`, then `pos[i] = s*pos[i-1] + (1-s)*corners[IFS[i]-1]`. The array is
  over `real`.

Errors that the source raises are values of `Errors.Error`, returned in a `Result`.
This covers every `raise` in the file. It also covers the library failures the
code runs into:
- `1.0/0` when the corner count is 0.
- numpy rejecting a negative array length. This happens in four cases:
  - a negative corner count with an empty probability array (`np.full`, line 47);
  - a negative `num_points` with `num_points * p_k <= -1` for some corner k;
  - a negative entry the caller supplies in a full-length array, e.g. `[1.5, -0.5]`
    with 10 points;
  - an unchecked derived probability `1 - sum` that is negative enough (lines 62-66).
- `pos[0]` written into an empty array when every count truncates to 0.

Proved properties include:
- The validation outcome for every length of the probability array.
- Every accepted distribution has one entry per corner and sums to exactly 1. This
  includes the uniform one and the completed one.
- Corner `k` occurs exactly `int(num_points * p[k-1])` times in the shuffled stream.
- Every index in the stream is a corner number `1..numCorners`, so `corners[j-1]` is
  always in range.
- With non-negative probabilities and `num_points >= 0` the stream has at most
  `num_points` entries.
- The positions are determined by the stream.
- With scale 1 the point never moves.
- With `0 <= scale <= 1`, an orbit that starts in `[-1,1]^2` over corners in `[-1,1]^2`
  stays there. For a generated fractal the corners are in `[-1,1]^2` when `cos` and `sin`
  are bounded by 1.

Points where the code does less than its description suggests, which the model follows:
- With a corner at the centre (`ans` true) the code lays out only `numCorners - 1`
  polygon angles, not `numCorners`. Corner `numCorners` is then the origin.
- The code does not reject a non-positive scale. It checks only `scale <= 1`. The
  lemmas that need `0 <= scale` take it as a hypothesis.
- The sum check is exact equality, with no tolerance. Over the reals this is exact
  equality of reals. The completed distribution passes the same check (line 58), and
  over the reals it always sums to 1.
- Nothing checks the derived probability `1 - sum`. When it is negative enough, its
  count is negative and numpy refuses the array.
- The stream has the total of the truncated counts as its length, which can be less
  than `num_points`. `IFS[0]` is never used.
- The docstring calls the scale the fraction of the distance moved toward the corner.
  Line 94 keeps the fraction `scale` of the current position, so the point moves
  `1 - scale` of the way. `Geometry.Step` follows line 94.

## Model

| member | source | states |
|---|---|---|
| `Game.ChaosGame.New` | ChaosGame.py:6-13 | a float corner count fails with NotAnInteger; otherwise a scale above 1 fails with ScaleTooLarge; otherwise a fresh game holds exactly the given count and scale |
| `Game.ChaosGame.constructor` | ChaosGame.py:12-13 | the two checked settings are stored unchanged |
| `Game.ChaosGame.GenerateBoard` | ChaosGame.py:18-38 | numCorners + 1 slots; the first numCorners - 1 (corner at centre) or numCorners slots are (cos, sin) of the evenly spaced angles 2πj/(numCorners-1) or 2πj/numCorners; every later slot is (0,0), so with a corner at the centre corner numCorners is the origin |
| `Geometry.Linspace` | ChaosGame.py:22 | np.linspace gives num points, starting at start, ending at stop, with equal steps (stop - start)/(num - 1) |
| `Geometry.LinspaceAt` | ChaosGame.py:26 | the j-th linspace point is start + (stop - start)·j/(num - 1) |
| `Geometry.PolygonAngles` | ChaosGame.py:22-26 | linspace(0, 2π, m)[:-1] has m - 1 angles (none for m = 0) and angle j is 2πj/(m - 1) |
| `Geometry.BoardInSquare` | ChaosGame.py:32-38 | with cos and sin bounded by 1, every board slot lies in [-1,1]² |
| `Geometry.DropLast` | ChaosGame.py:22-26 | the slice `[:-1]` keeps every element but the last, in order, and gives nothing for an empty array |
| `Sampling.Sum` | ChaosGame.py:53-58 | np.sum over the reals: the sum of the entries, built up one entry at a time; its property is SumAppend |
| `Sampling.SumAppend` | ChaosGame.py:53 | appending x to an array adds x to its sum, which is what makes the completed array sum to 1 |
| `Sampling.Uniform` | ChaosGame.py:47 | np.full((n,), 1.0/n): n entries, each 1/n; its property is UniformSumsToOne |
| `Sampling.Normalise` | ChaosGame.py:46-59 | empty array: uniform 1/n per corner (DivisionByZero for n = 0, NegativeSize for n < 0); 0 < length < n - 1: MissingProbabilities; length n - 1: completed with 1 - sum, always accepted, derived entry unchecked; length > n: ExcessProbabilities; length n: kept iff the sum is 1, else BadSum; anything accepted has n ≥ 1 entries summing to 1 |
| `Sampling.UniformSumsToOne` | ChaosGame.py:46-47 | n copies of 1/n sum to exactly 1 |
| `Sampling.Trunc` | ChaosGame.py:62 | astype(int) truncates toward zero: the result is within 1 of x, below it for x ≥ 0 and above it for x < 0 |
| `Sampling.TruncNegative` | ChaosGame.py:62-66 | a truncated count is negative exactly when num_points·p ≤ -1 |
| `Sampling.CountOf` | ChaosGame.py:62 | one corner's count int(num_points * p_k), the truncation of the product toward zero; its properties are those of Trunc |
| `Sampling.Frequencies` | ChaosGame.py:62 | (num_points * p).astype(int): CountOf taken entry by entry, one count per corner |
| `Sampling.Counts` | ChaosGame.py:62-66 | one count per corner, each the truncation of num_points·p[k]; fails with NegativeSize exactly when some num_points·p[k] ≤ -1 |
| `Sampling.FrequencyPlan` | ChaosGame.py:46-66 | fails with the validation error when validation fails; otherwise it is Counts of the completed distribution, and a success has exactly n ≥ 1 counts |
| `Sampling.Repeat` | ChaosGame.py:66 | np.full((k,), v): k copies of v; its property is RepeatCount |
| `Sampling.RepeatCount` | ChaosGame.py:66 | k copies of v hold v exactly k times and nothing else |
| `Sampling.Layout` | ChaosGame.py:64-69 | the in-order concatenation before the shuffle: counts[0] copies of 1, then counts[1] copies of 2, and so on; its properties are LayoutCount, LayoutRange and LayoutLength |
| `Sampling.LayoutCount` | ChaosGame.py:64-69 | in the in-order concatenation corner k occurs exactly counts[k-1] times and nothing outside 1..|counts| occurs |
| `Sampling.LayoutRange` | ChaosGame.py:61-69 | every index of the concatenation is a 1-based corner number |
| `Sampling.LayoutLength` | ChaosGame.py:64-69 | the concatenation is as long as the counts add up to |
| `Sampling.PermutedLayout` | ChaosGame.py:69-70 | any permutation of the concatenation has the same per-corner counts, range and length |
| `Sampling.TruncatedTotal` | ChaosGame.py:62 | with num_points ≥ 0, truncated counts of non-negative probabilities add up to at most num_points · sum(p) |
| `Sampling.FrequencyBudget` | ChaosGame.py:58-66 | with non-negative completed probabilities and num_points ≥ 0 the counts are accepted and add up to at most num_points |
| `Sampling.NegativeCountFails` | ChaosGame.py:66 | a negative count makes the stream construction fail with NegativeSize |
| `Sampling.UniformTriangleCounts` | ChaosGame.py:46-62 | three corners, uniform, nine points: counts 3, 3, 3 |
| `Sampling.CompletedMatchesFull` | ChaosGame.py:52-59 | for four corners [0.1, 0.1, 0.1] and [0.1, 0.1, 0.1, 0.7] are both accepted as the same distribution |
| `Sampling.NegativeDerivedEntry` | ChaosGame.py:52-66 | [0.6, 0.6] for three corners is completed with -0.2 and accepted; four points give counts 2, 2, 0, and ten points fail with NegativeSize |
| `Sampling.NegativeSuppliedEntry` | ChaosGame.py:58-66 | [1.5, -0.5] for two corners sums to 1 and is accepted; ten points give the count -5 for corner 2, so the plan fails with NegativeSize |
| `Game.ChaosGame.GenerateIFS` | ChaosGame.py:40-72 | fails exactly when FrequencyPlan fails, with its error; otherwise the stream is a permutation of the in-order concatenation, corner k occurs exactly count[k-1] times, every index is in 1..numCorners and the length is the total of the counts |
| `Game.Shuffle` | ChaosGame.py:70 | the shuffled array is a permutation of the original |
| `Game.ChaosGame.Iterate` | ChaosGame.py:86-94 | one position per stream entry; pos[0] = start and pos[i] = Step(scale, pos[i-1], corners[ifs[i]-1]) for i ≥ 1; ifs[0] is unused |
| `Game.ChaosGame.GenerateFractal` | ChaosGame.py:84-101 | the stream's errors, else EmptyStream exactly when all counts are 0; a success has as many positions as the counts add up to, the board of GenerateBoard, and positions forming an orbit from the start over the numCorners real corners (never the spare slot); the positions follow, step by step, a stream that is a permutation of the in-order concatenation of the counts, so corner k is the target exactly count[k-1] times |
| `Game.StreamInRange` | ChaosGame.py:92-93 | a stream of corner numbers 1..n indexes a board of at least n slots in range at every step that uses it |
| `Game.StreamIsOrbit` | ChaosGame.py:91-94 | positions following a stream of corner numbers 1..n form an orbit over the first n slots |
| `Geometry.Step` | ChaosGame.py:94 | a move scales the offset from the chosen corner by the scale, coordinate by coordinate |
| `Geometry.StepStaysInSquare` | ChaosGame.py:94 | with 0 ≤ scale ≤ 1 a move from a point of [-1,1]² toward a corner of [-1,1]² stays in [-1,1]² |
| `Geometry.StreamDeterminesPositions` | ChaosGame.py:91-94 | two position sequences following the same stream, board, start and scale are equal |
| `Geometry.OrbitStaysInSquare` | ChaosGame.py:91-94 | with 0 ≤ scale ≤ 1, an orbit from a start in [-1,1]² over corners in [-1,1]² stays in [-1,1]² |
| `Geometry.OrbitFixedAtScaleOne` | ChaosGame.py:91-94 | with scale 1 every position equals the start |
| `Game.FractalStaysInSquare` | ChaosGame.py:84-94 | with 0 ≤ scale ≤ 1, a start in [-1,1]² and cos, sin bounded by 1, every position of a generated fractal lies in [-1,1]² |

## Left out

- Plotting. The matplotlib calls are presentation: figure, axis, titles, scatter plots,
  legend and show (lines 15-16, 23, 27, 96-99).
- The values of `np.cos` and `np.sin`. They are function parameters of
  `GenerateBoard` and `GenerateFractal`, so no claim says vertices lie on the unit
  circle.
- Floating point. Probabilities, the scale and positions are `real`. The sum check
  (line 58) is exact real equality. So the float effect where `1 - sum` does not make
  the float sum exactly 1 is not modelled.
- Game.Shuffle: the random draws of `np.random.shuffle` are the parameter `rng`. The
  contract says only that the result is a permutation. It makes no claim about the
  distribution.
- The branch for a non-bool `ans` (lines 29-30). It prints a message and then fails
  because `angles` is unbound. Here `ans` has type `bool`.
- Crashes from numpy's handling of types: a plain Python list reaching `.shape` (line
  61). The probabilities here are always a sequence of reals.
- Game.ChaosGame.GenerateBoard: requires `numCorners >= 0`, so it does not model a board
  for a negative corner count. For `numCorners = -1` without a corner at the centre the
  source builds an empty board rather than failing. For smaller counts numpy rejects the
  negative lengths. The only caller, `GenerateFractal` (line 89), reaches the board only
  after `GenerateIFS` has succeeded, and that forces `numCorners >= 1`.
- Game.ChaosGame.Iterate: requires every used stream entry to be a corner number of
  the board. The source does not check this; Python would wrap an index of 0 to the
  last slot. Its only caller, `GenerateFractal`, gets this guarantee from
  `GenerateIFS`.
- The Python `bool` being a subclass of `int`, so `True` passes the corner-count check.
  `CornerCount` distinguishes only integer counts from counts of another numeric type.
- The module-level script and the closing comment block (lines 103-122). The
  four-corner example from that comment is the lemma `Sampling.CompletedMatchesFull`.
