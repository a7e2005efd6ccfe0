# Constellation generator, modelled in Dafny

This project models `scripts/generate-constellation.js`. That script draws a
decorative "constellation" SVG for a profile page. Its inputs are the day's
date and, optionally, the contribution counts of the last 30 days. The model
and its proofs have four parts:

- `lcg.dfy`, module `Lcg`. This is the seeded linear congruential generator
  `seededRandom`. It is a class `Random` with one mutable `state` field and a
  `Next` method. The pure recurrence `Step` and its k-fold iterate `Iterate`
  specify it.
- `seed.dfy`, module `Seed`. This is the seed: the date packed as yyyymmdd,
  plus the sum of the daily counts when a list was fetched. It also covers
  the 30-day window the fetch keeps.
- `generator.dfy`, module `Generator`. This is `generateConstellation`: the
  point count, the point loop, the neighbour/skip-one loop and the two
  cross-connection attempts.
  - The methods (`Layout`, `DrawPoint`, `DrawPoints`, `ConnectNeighbours`,
    `ConnectAcross`) keep the source's loops. They work on a `Random` object.
  - Each method is proved equal to a closed-form specification over draw
    positions. The d-th call of the generator returns `Iterate(seed, d)`.
  - The layout's properties are proved about that specification: valid
    indices, every neighbour pair linked, connection counts, and
    size/opacity/position ranges.
- `render.dfy`, module `Render`. This is `generateSVG`, as pure functions
  over the constellation.
  - The number formatting `toFixed` is a parameter `fmt`.
  - The document is a join of template lines. Splitting it at line breaks
    gives back the header, one line per connection, one circle per point,
    one glow per point larger than 3.5, and the closing lines, in that
    order.

## Arithmetic

The recurrence `(state * 1103515245 + 12345) & 0x7fffffff` is evaluated by
the script in IEEE-754 double precision. The model reproduces that
evaluation exactly on integers.

- The product, and then the sum, is rounded to the nearest double, with
  ties going to the even significand (`Lcg.RoundInt`). Below 2^53 in
  magnitude this changes nothing. Above it, low bits are lost.
- The mask then keeps the low 31 bits of an integral double. That is
  Dafny's Euclidean `% 2^31`.
- So, from a given seed, the model's states are the states the script
  computes. The seed itself is an exact integer (see `Seed.DeriveSeed` under
  "## Left out"); it equals the script's seed whenever it and every partial
  count sum stay below 2^53 in magnitude. For the seed
  of 2024-03-15 the first state, 1927087320, is also what exact arithmetic
  gives. The second state, 1453658112, is not: exact arithmetic gives
  1453658161 (`Lcg.FirstDrawsFixture`).
- One consequence is proved: the state 0x7fffffff can never occur
  (`Lcg.NeverMaximal`). Its only exact preimage modulo 2^31 is 230538014.
  Any such state pushes the product past 2^53, where every double is even.
  Therefore every draw lies in [0, 1), the point count lies in 8..12, as
  the comment at line 90 says, and a cross connection spans 2 or 3 indices.
  Under exact integer arithmetic the state 230538014 would lead to
  0x7fffffff (`Lcg.ExactOnlyReachesMaximal`), hence to a draw of exactly 1
  and 13 points.

A draw is `state / 0x7fffffff`. The model keeps it as an exact Dafny
`real` (`Lcg.Value`). Two tests on a draw are decided on integers, because
that is cheaper to prove:
- `Math.floor(random() * k)` is `(state * k) / 0x7fffffff` (`Generator.Pick`).
- `random() > 0.6` is `5 * state > 3 * 0x7fffffff` (`Generator.SkipDraw`).

Both are proved equal to the real-valued expressions.

## Model

| member | source | states |
|---|---|---|
| Lcg.RoundInt | scripts/generate-constellation.js:69 | Rounding an integer to the nearest double, ties to the even significand, symmetric in the sign. It has no contract of its own. `Lcg.RoundIntFacts` states its properties. |
| Lcg.RoundIntFacts | scripts/generate-constellation.js:69 | Rounding an integer to a double changes nothing below 2^53 in magnitude. At or beyond it the result is even and stays beyond 2^53. |
| Lcg.NeverMaximal | scripts/generate-constellation.js:69 | The rounded, masked step never yields 0x7fffffff, whatever the state before. |
| Lcg.Step | scripts/generate-constellation.js:69 | One advance of the recurrence, with both double roundings and the mask, always yields a state in 0..0x7ffffffe. |
| Lcg.StepExact | scripts/generate-constellation.js:69 | While the sum `state * 1103515245 + 12345` stays below 2^53, the step is the textbook recurrence modulo 2^31. |
| Lcg.Iterate | scripts/generate-constellation.js:67-69 | The state after k advances from the seed. After at least one advance it is a 31-bit state other than 0x7fffffff. |
| Lcg.Value | scripts/generate-constellation.js:70 | The number a call returns, `state / 0x7fffffff`, as an exact real. Its contract only relates it to the state. `Lcg.ValueInUnit` and `Lcg.DrawBelowOne` state its range. |
| Lcg.Random.constructor | scripts/generate-constellation.js:66-67 | A new generator holds the seed as its state. |
| Lcg.Random.Next | scripts/generate-constellation.js:68-71 | The generator object advances its state once with the recurrence and returns the new state. |
| Lcg.IterateAdd | scripts/generate-constellation.js:67-71 | Advancing a + b times equals advancing a times and then b times. A run is one stream consumed in order. |
| Lcg.ValueInUnit | scripts/generate-constellation.js:70 | A 31-bit state gives a value in [0, 1]. The value is below 1 if and only if the state is not 0x7fffffff. |
| Lcg.DrawBelowOne | scripts/generate-constellation.js:68-70 | Every number the generator returns lies in [0, 1). |
| Lcg.ExactOnlyReachesMaximal | scripts/generate-constellation.js:69 | Exact arithmetic would send 230538014 to 0x7fffffff. The script's rounded step does not. |
| Lcg.FirstDrawsFixture | scripts/generate-constellation.js:66-70 | Seed 20240315 gives the states 1927087320, 1453658112 and 254279680. The second differs from the exact recurrence's 1453658161. |
| Seed.LastDays | scripts/generate-constellation.js:45-47 | The window holds min(length, 30) days and is exactly the suffix of the fetched days. |
| Seed.DateValue | scripts/generate-constellation.js:82 | The date as year × 10000 + month × 100 + day. It has no contract of its own. `Seed.DateValueRoundTrip` states that it is injective on two-digit months and days. |
| Seed.SumCounts | scripts/generate-constellation.js:85 | The sum of the counts, folded in list order. It has no contract of its own. `Seed.SumCountsAppend`, `Seed.SumCountsBounds` and `Seed.SumCountsNonNegative` state its properties. |
| Seed.DeriveSeed | scripts/generate-constellation.js:82-86 | With no list the seed is the date value. With a list (even an empty one) it is the date value plus the sum of the counts. |
| Seed.SumCountsAppend | scripts/generate-constellation.js:85 | The count sum of a concatenation is the sum of the parts' sums. |
| Seed.SumCountsBounds | scripts/generate-constellation.js:85 | With non-negative counts, the sum is at least every single count, and that count is at least 0. |
| Seed.SumCountsNonNegative | scripts/generate-constellation.js:85 | With non-negative counts the sum is non-negative. |
| Seed.SeedAtLeastDate | scripts/generate-constellation.js:82-86 | With non-negative counts the seed is never below the date value. |
| Seed.EmptyListAddsNothing | scripts/generate-constellation.js:84-86 | An empty fetched list gives the same seed as a failed fetch. |
| Seed.SeedSensitivity | scripts/generate-constellation.js:82-86 | For a fixed date, two lists give the same seed if and only if their count sums are equal. |
| Seed.DateOnlyExample | scripts/generate-constellation.js:82 | 2024-03-15 without data gives seed 20240315. |
| Seed.DateValueRoundTrip | scripts/generate-constellation.js:82 | The yyyymmdd packing is undone digit group by digit group whenever month and day have two digits. |
| Generator.Pick | scripts/generate-constellation.js:91 | `Math.floor(random() * k)` on the state a draw left, also at lines 125 and 126. It has no contract of its own. `Generator.PickIsFloor` and `Generator.DrawPick` state its properties. |
| Generator.PickIsFloor | scripts/generate-constellation.js:91 | The integer quotient (state × k) / 0x7fffffff is `Math.floor` of the draw times k. |
| Generator.DrawPick | scripts/generate-constellation.js:91 | `Math.floor(random() * k)` lies in 0..k-1 for every draw, when k > 0. |
| Generator.PointCount | scripts/generate-constellation.js:90-91 | The point count lies in 8..12. |
| Generator.BaseX | scripts/generate-constellation.js:96 | The un-jittered x of point i of n. It has no contract of its own. `Generator.BaseXRange` states that it lies between the paddings, in [60, 740]. |
| Generator.SizesFromContributions | scripts/generate-constellation.js:102 | Whether sizes follow the counts: a list is present and non-empty. An empty list is present but overrides nothing. It has no contract of its own. `Generator.PointFrom` and `Generator.PointBounds` state the size range in each case. |
| Generator.DrawsPerPoint | scripts/generate-constellation.js:97-107 | The draws one point uses: 5 when sizes follow the counts, otherwise 4. It has no contract of its own. `Generator.DrawPoint` states that an iteration advances the state by exactly that many, and `Generator.DrawCountFormula` states the total. |
| Generator.PointFrom | scripts/generate-constellation.js:96-108 | A point drawn from a given state has opacity in [0.5, 0.9) and x within 20 of its base, with y in [50, 150). Its size is in [2, 5) without contributions. With contributions it is below 8, and at least 2 when the day's count is non-negative. |
| Generator.MakePoint | scripts/generate-constellation.js:95-108 | Point i takes its x jitter from the first draw after the count draw and i whole points. Its y jitter comes from the second such draw, and its opacity from the last draw of its block. |
| Generator.Points | scripts/generate-constellation.js:92-109 | The run has exactly as many points as the count draw chose. |
| Generator.SkipDrawIsThreshold | scripts/generate-constellation.js:118 | The integer skip test holds if and only if the draw exceeds 0.6. |
| Generator.SkipDraw | scripts/generate-constellation.js:118 | `random() > 0.6` on the state a draw left, decided on integers. It has no contract of its own. `Generator.SkipDrawIsThreshold` states that it is the real comparison. |
| Generator.SkipTaken | scripts/generate-constellation.js:118 | The whole short-circuit test `i < points.length - 2 && random() > 0.6`, with the draw at its position in the stream. It has no contract of its own. `Generator.SkipPairPresent` states that (i, i+2) is emitted exactly when it holds. |
| Generator.AdjacencyGroup | scripts/generate-constellation.js:115-120 | What one iteration of the first loop emits: (i, i+1), then (i, i+2) when the skip is taken. It has no contract of its own. `Generator.AdjacencyAt`, `Generator.SkipAt` and `Generator.AdjacencyMembers` state where these land in the first pass. |
| Generator.AdjacencyPass | scripts/generate-constellation.js:113-121 | After k iterations the first loop has emitted between k and 2k connections. |
| Generator.CrossAttempt | scripts/generate-constellation.js:124-129 | A cross attempt adds at most one connection, with `to` in range and equal to `from` + 2 or 3. |
| Generator.CrossPass | scripts/generate-constellation.js:124-130 | The connections of the cross loop after j attempts. It has no contract of its own. `Generator.CrossPassShape` states that it holds exactly j connections, each in range and spanning 2 or 3 indices. |
| Generator.Connections | scripts/generate-constellation.js:111-130 | The first pass followed by the cross pass has between n + 1 and 2n - 1 connections. |
| Generator.Generate | scripts/generate-constellation.js:88-132 | The constellation of a seed has PointCount points, and every connection satisfies 0 <= from < to < number of points. |
| Generator.PointBounds | scripts/generate-constellation.js:95-109 | Bounds on point i. (1) Opacity is in [0.5, 0.9). (2) Without contributions the size is in [2, 5). (3) With contributions the size is below 8, and at least 2 when the day's count is non-negative. (4) x is within 20 of its base and inside [40, 760). (5) y is in [50, 150). |
| Generator.PointsInRange | scripts/generate-constellation.js:94-109 | The same ranges hold for every point of a run. |
| Generator.SkipCountBound | scripts/generate-constellation.js:118 | At most one skip per iteration, and at most n - 2 skips overall. |
| Generator.SkipCountMonotone | scripts/generate-constellation.js:118 | The number of skips taken grows with the iteration, by at most one per iteration. |
| Generator.AdjacencyPassLength | scripts/generate-constellation.js:113-121 | After k iterations the first loop holds k adjacencies plus the skips taken. |
| Generator.AdjacencyAt | scripts/generate-constellation.js:113-115 | The connection (i, i+1) sits at position i + (skips before i) of the first loop's output. |
| Generator.SkipAt | scripts/generate-constellation.js:117-120 | A taken skip (i, i+2) directly follows the connection (i, i+1). |
| Generator.AdjacencyMembers | scripts/generate-constellation.js:113-121 | The first loop emits nothing but (i, i+1) and taken skips (i, i+2). |
| Generator.SkipPairPresent | scripts/generate-constellation.js:118-120 | (i, i+2) is among the first loop's connections if and only if i < n - 2 and its draw exceeds 0.6. |
| Generator.CrossAttemptShape | scripts/generate-constellation.js:124-129 | With at least four points, every cross attempt adds exactly one connection, from its two draws. `from` is in 0..n-4 and `to` is `from` + 2 or 3, so the guard `to < points.length` never fails. |
| Generator.CrossPassShape | scripts/generate-constellation.js:123-130 | The cross loop adds exactly two connections. Each is in range and spans two or three indices. |
| Generator.ConnectionsValid | scripts/generate-constellation.js:111-130 | Every connection has 0 <= from < to < number of points: no self-loop and no dangling index. |
| Generator.AdjacencyInOrder | scripts/generate-constellation.js:113-121 | Neighbour connections appear in index order, and each one's position is given by the skips before it. |
| Generator.FirstPassInOrder | scripts/generate-constellation.js:113-115 | Within the first loop's output, (i, i+1) comes before (j, j+1) whenever i < j. |
| Generator.AdjacentConnected | scripts/generate-constellation.js:113-115 | Every consecutive pair of points is connected. |
| Generator.DrawCountFormula | scripts/generate-constellation.js:88-130 | A run uses 1 + 4n + (n - 2) + 4 draws, or 1 + 5n + (n - 2) + 4 when sizes follow contributions. |
| Generator.DrawPoint | scripts/generate-constellation.js:96-108 | One point loop iteration. Its x, y, size and opacity come from the next 4 (or 5) draws in the source's order, and the state advances by exactly that many. |
| Generator.DrawPoints | scripts/generate-constellation.js:92-109 | The point loop yields the specified points, in index order, and advances the state past all their draws. |
| Generator.ConnectNeighbours | scripts/generate-constellation.js:112-121 | The neighbour/skip loop yields the specified first pass. It uses exactly n - 2 draws. |
| Generator.ConnectAcross | scripts/generate-constellation.js:123-130 | The cross loop appends the two specified attempts. It uses exactly 4 draws. |
| Generator.Layout | scripts/generate-constellation.js:88-132 | The whole layout on a generator object is the closed-form constellation of the object's starting state. Exactly DrawCount draws are consumed. |
| Generator.GenerateConstellation | scripts/generate-constellation.js:75-133 | A run from a date and optional counts has several guarantees. (1) It equals the specification at the derived seed. (2) It has 8..12 points. (3) Every connection is valid. (4) All neighbours are linked. (5) It has n+1..2n-1 connections. (6) Its points are in the ranges of lines 96-107. |
| Render.LineTag | scripts/generate-constellation.js:142 | The line element between two points, coordinates to 1 decimal. It has no contract of its own. `Render.TagNewlineFree` states that it is a single line. |
| Render.CircleTag | scripts/generate-constellation.js:147 | The circle element of a point: centre and radius to 1 decimal, opacity to 2. It has no contract of its own. `Render.TagNewlineFree` states that it is a single line. |
| Render.GlowTag | scripts/generate-constellation.js:153 | The glow element of a point, with radius 4 × size. It has no contract of its own. `Render.TagNewlineFree` states that it is a single line. |
| Render.Join | scripts/generate-constellation.js:143 | `join('\n')`. It has no contract of its own. `Render.SplitJoin` and `Render.LayerRoundTrip` state that splitting at line breaks undoes it. |
| Render.LineTags | scripts/generate-constellation.js:139-143 | There is one line tag per connection, in order. Each is drawn between that connection's endpoints. |
| Render.CircleTags | scripts/generate-constellation.js:146-148 | There is one circle per point, in point order. |
| Render.GlowIndices | scripts/generate-constellation.js:151-152 | The glowing points are exactly those with size > 3.5, listed in strictly increasing index order. |
| Render.GlowTags | scripts/generate-constellation.js:151-154 | There is one glow per glowing point, in point order. |
| Render.GenerateSvg | scripts/generate-constellation.js:135-174 | The whole document. It has no contract of its own. `Render.DocumentLines` and `Render.DocumentFrame` state its line structure. |
| Render.SplitJoin | scripts/generate-constellation.js:143 | Splitting a newline join gives the split lines of the parts, in order. |
| Render.LayerRoundTrip | scripts/generate-constellation.js:143 | Joining newline-free tags and splitting the result gives the tags back, or one empty line when there are none. |
| Render.TagNewlineFree | scripts/generate-constellation.js:142-153 | With a formatter that never emits a line break, no tag contains one. |
| Render.DocumentLines | scripts/generate-constellation.js:135-174 | The document, line by line, in this order: (1) the fixed header; (2) one line per connection; (3) the points header; (4) one circle per point; (5) the glow header; (6) one glow per large point; (7) the closing lines. |
| Render.DocumentFrame | scripts/generate-constellation.js:156-173 | The document's first line declares the 800 × 200 canvas, and its last line closes the svg element. |

## Left out

- The network fetch `fetchContributions` (lines 8-63) is not modelled. Its outcome is the parameter `contributions`: `None` when the request, the parse or the shape check failed, `Some(days)` otherwise. Only the 30-day window (`Seed.LastDays`) is modelled.
- The clock (line 81) is not modelled: year, month and day are parameters.
- The console output, the file write and `main` (lines 176-197) are I/O and are not modelled.
- Exponent overflow is not modelled: the generator's doubles are unbounded integers rounded to 53 significant bits, never Infinity. For a product that would overflow, both the script (`ToInt32` of Infinity) and the model (a rounded value divisible by 2^31) give state 0.
- Seed.DeriveSeed: the count sum and the seed are exact integers, while the script folds the counts and adds them to the date value in doubles (lines 82-85). The two agree while every partial sum and the seed stay below 2^53 in magnitude, which any real 30-day window of contribution counts does. Beyond that the script rounds: on 2024-03-15 the one-day lists [9007199234500678] and [9007199234500677] both give the script the seed 9007199254740992.
- Seed.SeedSensitivity: holds of the script only in that same range. The example above gives two different sums with equal script seeds.
- Draws, coordinates, sizes and opacities are exact reals. Floating-point rounding in `state / 0x7fffffff`, in the jitter arithmetic and in `contrib / 3` is not modelled.
  - `Math.floor(random() * k)` and `random() > 0.6` do not depend on this rounding. The exact value of a draw times k is either a whole number or at least 1/0x7fffffff away from one. Likewise it is at least 0.2/0x7fffffff away from 0.6. That gap is far larger than double rounding error.
  - The glow test `size > 3.5` does not depend on it either. Without contributions the size exceeds 3.5 exactly when the state is at least 2^30, and every state's size is at least 1.5/0x7fffffff away from 3.5. With an integer count c below 12, the size minus 3.5 is ((2c - 9) × 0x7fffffff + 12 × state) / (6 × 0x7fffffff). Since 0x7fffffff is prime, that is never 0, so it is at least 1/(6 × 0x7fffffff) in magnitude. With c at least 12 the size is at least 6.
- `toFixed` is the parameter `fmt` of the renderer, so decimal formatting is not modelled. The proofs assume only that it emits no line break.
- Render.GenerateSvg: requires that every connection names two existing points. On a dangling index the source would fail with a TypeError. Every generated constellation satisfies this (`Generator.ConnectionsValid`).
- Non-integer or missing `contributionCount` values are not modelled. Counts are integers, and the day records are always present objects, so `contributions[i % length]` is truthy for a non-empty list.
