# Chart layout core, modelled in Dafny

This project models the layout and interaction logic of four chart widgets of
a mini-program front end. The rest of each widget paints onto a canvas.

- **Static spiral bubble packer** (`BubbleLayout`, `bubble_chart.dfy`).
  - Every `{emotion: value}` entry gets a circle whose area is proportional
    to its value. The areas are scaled so they would cover 80% of the
    container.
  - Diameters are clamped into `[minBubbleSize, maxBubbleSize]`.
  - Entries are placed largest first. Each candidate point lies on a ring
    that grows outward from the centre, and the packer takes the first point
    inside the padded box that clears every earlier bubble by
    `collisionPadding`.
  - An entry with no such point is dropped. Each placed bubble gets a
    jittered clip polygon.
- **Animated physics bubbles** (`DynamicBubbles`, `dynamic_bubble_chart.dfy`).
  - Sizes come from a linear rescale of radii followed by a clamp.
  - Positions and velocities are drawn at random.
  - Each animation step moves each bubble by its velocity, bounces it off
    the padded walls, and pushes overlapping pairs apart by changing their
    velocities.
  - The widget is a class whose `bubbles` field the methods replace.
- **Word cloud** (`WordCloud`, `word_cloud_chart.dfy`).
  - Font sizes are interpolated into `[16, 48]` and colours are taken from
    the palette by index.
  - Words are seeded at random around the centre.
  - Up to fifty relaxation passes push overlapping word boxes apart, with an
    early exit after a pass that moved nothing.
  - Words are clamped into the padded canvas. A per-frame animation step
    moves and turns them.
- **Stacked category bar chart** (`CategoryBars`, `category_chart.dfy`).
  - The plot area is what the padding leaves.
  - A touch state machine over the highlighted category and the tooltip,
    and the tooltip text.
  - The stacked bar geometry that `drawBars` paints.
  - The grow-in animation progress and the `roundRect` radius clamp.

`Geometry` (`geometry.dfy`) holds the shared vocabulary: points, the entries of
an emotion object, the host's `Math.sqrt`/`cos`/`sin`/`atan2`, and the
`Math.random()` stream. The host functions have only the laws the proofs need
(`Lawful`: the square root of a non-negative number is a non-negative root,
`cos² + sin² = 1`, and `atan2` gives back the direction of its vector).
`Math.random()` is a stream `rand: nat -> real` of values in `[0, 1)`.

Numbers are mathematical reals. The spiral search of the static packer is
stated over its validity test and its candidate formula passed as function
values: `FindAvailablePosition` instantiates them with `isPositionValid` and
the jittered ring positions, and proves that the point it returns is the first
candidate of the whole spiral that the test accepts. Each stateful operation is
an imperative method whose postconditions pin its whole result and new state.
Each loop is proved to compute a specification function exactly, and the
properties are proved as lemmas about that function.

## Model

| member | source | states |
|---|---|---|
| Geometry.OrDefault | utils/BubbleChart.js:12-19 | JavaScript's `x \|\| d` on a number with a non-zero default: never 0, and a non-zero `x` is kept |
| Geometry.PolarDistance | utils/BubbleChart.js:37-39 | the point at angle `a` and radius `rho` from a centre lies at distance exactly `rho` from it |
| BubbleLayout.Configure | utils/BubbleChart.js:10-21 | each option keeps a non-zero given value and otherwise takes its default: width 300, height 400, sizes 60 and 200, padding 10, collision padding 6, 36 wobble points, wobble factor 0.08; so every option is non-zero and `wobblePoints` positive |
| BubbleLayout.DiameterHasArea | utils/BubbleChart.js:50-51 | a circle of the computed diameter has exactly the target area `value * scaleFactor` |
| BubbleLayout.CalculateBubbleSize | utils/BubbleChart.js:48-54 | the size is at least `minBubbleSize`, at most `maxBubbleSize` when min ≤ max, and equals the area-preserving diameter whenever that lies in range |
| BubbleLayout.TotalAreaScalesTotal | utils/BubbleChart.js:70-72 | the sum of `value * scaleFactor` over the entries is the total value times `scaleFactor` |
| BubbleLayout.ScaleFactorMeetsTarget | utils/BubbleChart.js:66-72 | with the chosen `scaleFactor` the unclamped areas sum to 80% of the full `width * height` |
| BubbleLayout.TotalOfNonNegative | utils/BubbleChart.js:70 | non-negative values have a non-negative total, which is 0 only when every value is 0 |
| BubbleLayout.InsertDesc | utils/BubbleChart.js:75 | inserting adds exactly one element |
| BubbleLayout.SortDesc | utils/BubbleChart.js:75 | the sort keeps the number of entries |
| BubbleLayout.InsertDescSorted | utils/BubbleChart.js:75 | inserting into a non-increasing list keeps it non-increasing, adds exactly the new entry, and puts the larger of the two fronts first |
| BubbleLayout.SortDescSorted | utils/BubbleChart.js:75 | the sorted entries are non-increasing in value and a permutation of the input |
| BubbleLayout.InsertDescStable | utils/BubbleChart.js:75 | an inserted entry goes before the entries of equal value already in the list |
| BubbleLayout.SortDescStable | utils/BubbleChart.js:75 | entries of equal value keep their input order, as the stable `Array.prototype.sort` keeps them |
| BubbleLayout.ClearOfAll | utils/BubbleChart.js:147-155 | true exactly when the candidate's centre is at least `(size + existing.size) / 2 + collisionPadding` from every existing bubble |
| BubbleLayout.IsPositionValid | utils/BubbleChart.js:136-157 | true exactly when the candidate lies in `[padding, width − padding] × [padding, height − padding]` and clears every existing bubble |
| BubbleLayout.FindAvailablePosition | utils/BubbleChart.js:98-130 | the result is the first candidate of the spiral that `isPositionValid` accepts against the current bubbles. The spiral is rings `r = 0, step, 2·step, …` below half the diagonal, each with `max(8, ⌊2πr/step⌋)` jittered angles. `null` comes back exactly when no candidate of the whole spiral is accepted. The cursor advances by two draws per candidate tried |
| BubbleLayout.RingCandidates | utils/BubbleChart.js:113-122 | the candidates of one ring from angle `i` on: exactly `steps − i` of them, two draws each |
| BubbleLayout.FirstFitSpec | utils/BubbleChart.js:113-125 | no candidate before the first fit is accepted, and the first fit is accepted when there is one |
| BubbleLayout.FirstFitUnique | utils/BubbleChart.js:113-125 | an index with every earlier candidate rejected and itself accepted (or the end of the list) is the first fit |
| BubbleLayout.FirstFitAppend | utils/BubbleChart.js:110-127 | the first fit of two lists tried in turn is the first fit of the first list, or, when it has none, its length plus the first fit of the second |
| BubbleLayout.OutcomeCons | utils/BubbleChart.js:113-125 | trying one candidate before the rest returns it when it is accepted, and otherwise what the rest return two draws later |
| BubbleLayout.OutcomeAppend | utils/BubbleChart.js:110-127 | trying one ring before the following rings returns what the ring returns if it finds a fit, and otherwise what the following rings return after two draws per candidate of the ring |
| BubbleLayout.OutcomeMeaning | utils/BubbleChart.js:113-125 | trying a list of candidates in order returns the first accepted one, with the cursor two draws past each candidate up to it; it returns none exactly when no candidate is accepted, with the cursor two draws per candidate later |
| BubbleLayout.TryRing | utils/BubbleChart.js:112-126 | the inner loop returns the first accepted candidate of the ring and the cursor after it, or no point once every candidate was tried |
| BubbleLayout.SpiralSearch | utils/BubbleChart.js:110-129 | the outer loop computes the ring-by-ring search: each ring is tried in turn, and the search stops at the first ring with an accepted candidate |
| BubbleLayout.SearchFromSpiral | utils/BubbleChart.js:110-129 | searching ring by ring with early exit returns the same point and cursor as trying the spiral of all candidates in order and taking the first one accepted |
| BubbleLayout.GenerateBubblePath | utils/BubbleChart.js:27-43 | the loop builds exactly `BubblePath`: `wobblePoints` vertices, vertex `i` at angle `i · 2π/wobblePoints` around (50, 50) and at radius `50 (1 + (u − 0.5) w)` with `u` the draw `c + i`; it uses `wobblePoints` draws; for `0 ≤ w ≤ 2` each vertex lies at distance in `[50(1 − w/2), 50(1 + w/2)]` from (50, 50), and exactly 50 when `w = 0` |
| BubbleLayout.BubblePathBand | utils/BubbleChart.js:34-39 | every vertex of `BubblePath` lies in the wobble band `[50(1 − w/2), 50(1 + w/2)]` around (50, 50) when `0 ≤ w ≤ 2`, and on the circle of radius 50 when `w = 0` |
| BubbleLayout.PathVertexBand | utils/BubbleChart.js:35-39 | one vertex lies in the wobble band, and at distance 50 without wobble |
| BubbleLayout.VertexDistance | utils/BubbleChart.js:37-39 | a vertex lies exactly at its jittered radius from (50, 50) |
| BubbleLayout.PathRadiusBand | utils/BubbleChart.js:36-37 | the jittered radius `50 (1 + (u − 0.5) w)` lies in `[50(1 − w/2), 50(1 + w/2)]` for `u` in `[0, 1)` and `w` in `[0, 2]`, and is 50 when `w = 0` |
| BubbleLayout.GenerateBubbles | utils/BubbleChart.js:61-92 | `[]` for null or empty data and for all-zero values. Otherwise at most one bubble per entry: a strictly increasing selection of the sorted entries, so values never increase and dropped entries do not reorder the rest. Each bubble lies in the padded box, has its clamped area-proportional size and a path of `wobblePoints` vertices, and every pair keeps the collision distance. Round `k` places sorted entry `k` or drops it, among the bubbles kept by the earlier rounds and drawing from the cursor the earlier rounds left. It is kept exactly when a candidate of its spiral is valid, at the first valid candidate, and its path is `BubblePath` drawn right after the search |
| BubbleLayout.PlaceBubble | utils/BubbleChart.js:77-89 | one round of the entry loop. The round ends kept exactly when a candidate of the entry's spiral clears the bubbles kept before it, and the bubble then sits on the first such candidate, with the path `BubblePath` from the cursor the search left (`Placement`). A kept bubble carries the entry's label and value, lies in the padded box, has the size `calculateBubbleSize` gives it and a full path, and keeps the collision distance from every earlier bubble. The cursor advances by two draws per candidate tried, plus `wobblePoints` for a kept bubble |
| BubbleLayout.PlacementMeaning | utils/BubbleChart.js:77-89 | a round's record means: a kept bubble is centred on the first spiral candidate `k` valid against the bubbles kept before it, its path is `BubblePath` from draw `c + 2(k + 1)`, and a dropped entry had no valid candidate anywhere in its spiral |
| BubbleLayout.NextRound | utils/BubbleChart.js:77-89 | the loop body extends the record of the rounds (`Rounds`) by one round on the next sorted entry: selection, placement, pairwise distance and cursors all stay recorded |
| BubbleLayout.PlaceAll | utils/BubbleChart.js:76-90 | after the loop every sorted entry has had its round in order, each among the bubbles kept by the rounds before it, and the result is exactly the bubbles kept |
| DynamicBubbles.Configure | utils/DynamicBubbleChart.js:2-16 | lengths are multiplied by `scaleFactor \|\| 1`: a length given non-zero is scaled, a length left at 0 becomes its default (300, 300, 40, 150, 10) scaled. `maxSpeed` and `repulsion` are not scaled: kept when given, otherwise 1.5 and 0.8 |
| DynamicBubbles.MinOf | utils/DynamicBubbleChart.js:41 | `Math.min(...baseRadii)` is one of the radii and below all of them |
| DynamicBubbles.MaxOf | utils/DynamicBubbleChart.js:42 | `Math.max(...baseRadii)` is one of the radii and above all of them |
| DynamicBubbles.MinArea | utils/DynamicBubbleChart.js:32 | `MIN_AREA` is non-negative |
| DynamicBubbles.Area | utils/DynamicBubbleChart.js:33 | each area is at least `MIN_AREA` |
| DynamicBubbles.BaseRadii | utils/DynamicBubbleChart.js:36 | one base radius per entry |
| DynamicBubbles.AreaPerUnitPositive | utils/DynamicBubbleChart.js:23-29 | with a positive total and a padded area of positive size, each unit of value gets a positive area |
| DynamicBubbles.RescaleRange | utils/DynamicBubbleChart.js:45-49 | the linear map sends `[minRaw, maxRaw]` into `[minRadius, maxRadius]`, the smallest radius to `minRadius` and, when the radii differ, the largest to `maxRadius` |
| DynamicBubbles.RescaleMonotone | utils/DynamicBubbleChart.js:45-49 | the linear map never reverses order |
| DynamicBubbles.RawSizes | utils/DynamicBubbleChart.js:47-50 | one unclamped diameter per entry |
| DynamicBubbles.RawSizesFrom | utils/DynamicBubbleChart.js:47-50 | the diameters from entry `i` on, one per entry |
| DynamicBubbles.RawSizesFromAt | utils/DynamicBubbleChart.js:47-50 | element `k − i` of the diameters from `i` on is entry `k`'s diameter |
| DynamicBubbles.RawSizeRange | utils/DynamicBubbleChart.js:39-50 | because `minRadius`/`maxRadius` equal the diameters, the unclamped diameter lies in `[2 minSize, 2 maxSize]`, with the ends reached by the smallest and the largest radius |
| DynamicBubbles.RadiusOfSize | utils/DynamicBubbleChart.js:39-40 | the "radius" computed from a size is the size itself |
| DynamicBubbles.RadiiMonotone | utils/DynamicBubbleChart.js:33-36 | a larger value never gets a smaller base radius |
| DynamicBubbles.AreaMonotone | utils/DynamicBubbleChart.js:33 | a larger value never gets a smaller area |
| DynamicBubbles.SizeMonotone | utils/DynamicBubbleChart.js:33-58 | a larger value never gets a smaller bubble |
| DynamicBubbles.SizesStartAtTwiceMinimum | utils/DynamicBubbleChart.js:39-58 | the smallest value gets size `min(maxSize, 2 minSize)` and no bubble is smaller, so `minSize` itself is never used |
| DynamicBubbles.Speed | utils/DynamicBubbleChart.js:61-62 | a velocity component lies in `[−maxSpeed/2, maxSpeed/2)` |
| DynamicBubbles.Spawn | utils/DynamicBubbleChart.js:47-63 | a spawned bubble keeps its emotion, has no outline yet, its size lies in `[minSize, maxSize]`, and both velocity components lie in `[−maxSpeed/2, maxSpeed/2)` |
| DynamicBubbles.CalculateSizes | utils/DynamicBubbleChart.js:19-65 | exactly one bubble per entry |
| DynamicBubbles.SpawnFrom | utils/DynamicBubbleChart.js:47-64 | the `map` from entry `i` on yields one bubble per remaining entry |
| DynamicBubbles.SpawnFromAt | utils/DynamicBubbleChart.js:47-64 | bubble `k − i` of the `map` from `i` on is entry `k`'s spawn, drawing from `c + 4k` |
| DynamicBubbles.SpawnedAt | utils/DynamicBubbleChart.js:47-64 | bubble `k` is spawned from entry `k` with that entry's unclamped diameter, drawing numbers `c + 4k` to `c + 4k + 3` |
| DynamicBubbles.CalculateSizesBounds | utils/DynamicBubbleChart.js:58-62 | every size lies in `[minSize, maxSize]` and every initial velocity component in `[−maxSpeed/2, maxSpeed/2)` |
| DynamicBubbles.CalculateSizesEntries | utils/DynamicBubbleChart.js:47-64 | bubble `k` carries entry `k`'s emotion, in entry order, with no outline |
| DynamicBubbles.SpawnInsideWalls | utils/DynamicBubbleChart.js:53-58 | a bubble whose unclamped diameter fits between the walls starts inside them |
| DynamicBubbles.PlacedInside | utils/DynamicBubbleChart.js:53-54 | a centre drawn as `u * room + padding + raw / 2` keeps a body no wider than `raw` within the walls |
| DynamicBubbles.CalculateSizesInsideWalls | utils/DynamicBubbleChart.js:47-64 | when twice the maximum size fits between the walls, the whole spawned layout starts inside them |
| DynamicBubbles.Walls | utils/DynamicBubbleChart.js:74-89 | the wall checks change only position and velocity, and a bubble inside is left alone. Along each axis: a bubble crossing the low wall is put against it with velocity `−repulsion · v`; a bubble wider than the gap is then also put against the high wall with velocity `repulsion² · v`; a bubble crossing only the high wall is put against it with `−repulsion · v`. A bubble that fits ends inside |
| DynamicBubbles.WallsPlacement | utils/DynamicBubbleChart.js:74-89 | where the wall checks put a bubble depends only on its position and size, not its velocity |
| DynamicBubbles.Push | utils/DynamicBubbleChart.js:92-106 | a pair push changes only velocities, keeps `a.vx + b.vx` and `a.vy + b.vy`, and leaves a pair that does not overlap unchanged |
| DynamicBubbles.PushImpulse | utils/DynamicBubbleChart.js:98-105 | for an overlapping pair the velocity change has length `force = (minDistance − distance) · 0.5 > 0`, and it points from the second bubble to the first |
| DynamicBubbles.PushDelta | utils/DynamicBubbleChart.js:98-103 | for an overlapping pair the first bubble's velocity changes by `−(cos θ, sin θ) · force`, with `θ = atan2(dy, dx)` |
| DynamicBubbles.UnitDirection | utils/DynamicBubbleChart.js:95-99 | with lawful host functions, `(cos θ, sin θ)` for `θ = atan2(dy, dx)` is a unit vector, and scaled by the distance between the centres it is `(dx, dy)` |
| DynamicBubbles.PushAlongDirection | utils/DynamicBubbleChart.js:98-105 | given that unit direction, the push on an overlapping pair has positive length `force` and points from the second bubble to the first |
| DynamicBubbles.MomentumUpdate | utils/DynamicBubbleChart.js:102-105 | replacing one bubble changes the total velocity by the difference of the two velocities |
| DynamicBubbles.PairsFrom | utils/DynamicBubbleChart.js:92-107 | the pushes of bubble `i` against its later partners keep the number of bubbles |
| DynamicBubbles.PairsFromKeeps | utils/DynamicBubbleChart.js:92-107 | the pushes leave every centre, size, label and outline as they were, and keep the total velocity |
| DynamicBubbles.CollideFrom | utils/DynamicBubbleChart.js:73-108 | the outer loop from bubble `i` on keeps the number of bubbles |
| DynamicBubbles.AfterCollisions | utils/DynamicBubbleChart.js:68-109 | `checkCollisions` keeps the number of bubbles |
| DynamicBubbles.CollideFromPlaces | utils/DynamicBubbleChart.js:73-108 | from bubble `i` on, a bubble sits where its own wall checks put it; earlier bubbles keep their centres; labels, sizes and outlines never change |
| DynamicBubbles.AfterCollisionsPlaces | utils/DynamicBubbleChart.js:68-109 | after `checkCollisions` every bubble keeps its label, size and outline and sits where its own wall checks put it; a bubble that fits lies within the padded walls, since pair handling moves nothing |
| DynamicBubbles.CollideFromMomentum | utils/DynamicBubbleChart.js:73-108 | from bubble `i` on, with those bubbles inside the walls, the total velocity is kept |
| DynamicBubbles.AfterCollisionsMomentum | utils/DynamicBubbleChart.js:68-109 | while no bubble touches a wall, `checkCollisions` only trades velocity between pairs: the total is kept |
| DynamicBubbles.GenerateBubbleShape | utils/DynamicBubbleChart.js:112-127 | the outline is `BubbleShape`: 24 vertices, vertex `i` at angle `2πi/24` with its jitter drawn from draw `c + i`; each lies at distance in `[0.95, 1.05]·size/2` from `(size/2, size/2)`, strictly below `1.05·size/2` for a positive size |
| DynamicBubbles.JitteredRadius | utils/DynamicBubbleChart.js:120 | for a non-negative half size `base` and a draw `u` in `[0, 1)`, the vertex radius lies in `[0.95 base, 1.05 base]`, strictly below the top for a positive base |
| DynamicBubbles.OutlineVertexInRing | utils/DynamicBubbleChart.js:117-123 | every outline vertex, whatever its draw in `[0, 1)`, lies by the host's distance inside the jitter ring around the box centre |
| DynamicBubbles.RingAt | utils/DynamicBubbleChart.js:117-123 | a vertex placed at angle `θ` and at a radius inside the jitter ring lies, by the host's distance, inside that ring around the box centre |
| DynamicBubbles.Drift | utils/DynamicBubbleChart.js:141-144 | a bubble moves by exactly its velocity and nothing else changes |
| DynamicBubbles.Drifted | utils/DynamicBubbleChart.js:141-144 | every bubble drifts, and the count is kept |
| DynamicBubbles.Step | utils/DynamicBubbleChart.js:139-146 | an animation step keeps the number of bubbles |
| DynamicBubbles.StepPlaces | utils/DynamicBubbleChart.js:139-146 | a step keeps every label, size and outline, puts each bubble where its drift and its own wall checks take it, and leaves every bubble that fits inside the walls |
| DynamicBubbles.StepMomentum | utils/DynamicBubbleChart.js:139-146 | while the drifted bubbles stay clear of the walls, a step keeps the total velocity |
| DynamicBubbles.DriftedMomentum | utils/DynamicBubbleChart.js:141-144 | drifting keeps the total velocity |
| DynamicBubbles.GiveShapes | utils/DynamicBubbleChart.js:130-136 | the result is exactly `Shaped`: each bubble is otherwise unchanged and is given the outline `BubbleShape` drawn from `c + 24k` for bubble `k`, within the jitter ring; the cursor ends 24 draws per bubble later |
| DynamicBubbles.ShapedByBubble | utils/DynamicBubbleChart.js:130-136 | bubbles that agree with `Shaped` in every field and outline are `Shaped` |
| DynamicBubbles.PushLater | utils/DynamicBubbleChart.js:92-107 | the inner `forEach` for bubble `i` computes exactly the pushes of `PairsFrom` |
| DynamicBubbles.ResolveCollisions | utils/DynamicBubbleChart.js:68-109 | the nested `forEach` loops compute exactly `AfterCollisions` |
| DynamicBubbles.DynamicBubbleChart.constructor | utils/DynamicBubbleChart.js:2-16 | the options are the configured ones and there are no bubbles yet |
| DynamicBubbles.DynamicBubbleChart.GenerateBubbles | utils/DynamicBubbleChart.js:130-136 | `bubbles` is replaced by one bubble per entry: they are exactly `Shaped` of `calculateSizes`' bubbles: bubble `k` is `calculateSizes`' bubble `k` with the outline `BubbleShape` of its size drawn from `old(drawn) + 4·|data| + 24k`; the cursor ends `28·|data|` draws later; it returns the new `bubbles` |
| DynamicBubbles.DynamicBubbleChart.CheckCollisions | utils/DynamicBubbleChart.js:68-109 | `bubbles` becomes `AfterCollisions` of the old bubbles |
| DynamicBubbles.DynamicBubbleChart.UpdatePositions | utils/DynamicBubbleChart.js:139-146 | `bubbles` becomes `Step` of the old bubbles: every bubble drifts, then `checkCollisions` runs |
| WordCloud.MaxValue | utils/WordCloudChart.js:41-47 | `maxValue`, starting from 0, is at least 0 and every value; it is 0 or one of the values |
| WordCloud.MinValue | utils/WordCloudChart.js:42-47 | `minValue` of non-empty data is one of the values and at most every value |
| WordCloud.Range | utils/WordCloudChart.js:50 | `maxValue − minValue \|\| 1` is never 0 |
| WordCloud.ValueRange | utils/WordCloudChart.js:41-47 | the `forEach` scan computes those maximum and minimum values |
| WordCloud.FontSizeBounds | utils/WordCloudChart.js:41-58 | every font size lies in `[16, 48]`; the smallest value gets 16, and a value equal to `maxValue` (the running maximum from 0) gets 48 when it exceeds `minValue` |
| WordCloud.NegativeValuesBelowTop | utils/WordCloudChart.js:41-58 | when every value is negative `maxValue` stays 0, the range is `−minValue`, and no word reaches 48 |
| WordCloud.Interpolate | utils/WordCloudChart.js:58 | the linear interpolation maps `[lo, hi]` into `[16, 48]`, `lo` to 16 and `hi` to 48 when `lo < hi` |
| WordCloud.EqualValuesSixteen | utils/WordCloudChart.js:50-58 | when all values are equal every font size is 16, whatever the range (1 when `maxValue − minValue` is 0, `−v` for equal negative values `v`) |
| WordCloud.GetWordBox | utils/WordCloudChart.js:135-147 | the box is centred on the word's position, as wide as the measured text and as tall as the font size |
| WordCloud.WordBoxWellFormed | utils/WordCloudChart.js:135-147 | a word with a non-negative font size has a box with left ≤ right and top ≤ bottom |
| WordCloud.CollisionSharesPoint | utils/WordCloudChart.js:150-157 | two well-formed boxes collide exactly when they share a point, so touching boxes collide |
| WordCloud.CollisionSymmetric | utils/WordCloudChart.js:150-157 | `checkCollision(a, b) == checkCollision(b, a)` |
| WordCloud.KeepInBounds | utils/WordCloudChart.js:160-181 | only the position changes; a word inside the margins is left alone; a word whose box fits ends within `[10, W − 10] × [10, H − 10]` |
| WordCloud.KeepInBoundsIdempotent | utils/WordCloudChart.js:160-181 | for a word whose box fits, clamping twice is clamping once |
| WordCloud.KeepInBoundsOscillates | utils/WordCloudChart.js:169-173 | a word wider than the padded canvas is not idempotent: each clamp moves it to the other side |
| WordCloud.PaletteColor | utils/WordCloudChart.js:67 | word `i` gets `colorPalette[i % length]`, and `undefined` exactly for an empty palette |
| WordCloud.SeedWord | utils/WordCloudChart.js:61-81 | a seeded word carries its item's name, value, the given font size and colour |
| WordCloud.SeedWordPlacement | utils/WordCloudChart.js:61-80 | a seeded word starts within `min(W, H)/3` of the centre, both velocity components and the rotation speed lie in `[−0.25, 0.25)`, and the angle lies in `[0, 360)` |
| WordCloud.WithinRadius | utils/WordCloudChart.js:62-64 | a point at angle `θ` and radius `ρ ≤ bound` from the centre, computed as the seeding does, is within `bound` of it |
| WordCloud.Seeded | utils/WordCloudChart.js:56-82 | the seeded words of the first `n` items, one per item |
| WordCloud.SeededAt | utils/WordCloudChart.js:56-82 | seeded word `k` is item `k`'s word with colour `k`, drawing from `cur + 6k` |
| WordCloud.SeededFontSize | utils/WordCloudChart.js:56-82 | every seeded word carries its item's name and value and a font size in `[16, 48]` |
| WordCloud.SeedLoop | utils/WordCloudChart.js:56-82 | the second `forEach` computes exactly the seeded words and draws six numbers per item |
| WordCloud.SeedWords | utils/WordCloudChart.js:41-82 | the value scan and the seeding loop compute exactly the seeded words for the data's own range |
| WordCloud.Separate | utils/WordCloudChart.js:107-118 | a colliding pair moves by opposite vectors, so only positions change and the pair's midpoint is kept |
| WordCloud.SeparateDistance | utils/WordCloudChart.js:107-118 | before clamping, a pair at different points ends up exactly 4 further apart |
| WordCloud.SeparateCoincident | utils/WordCloudChart.js:107-118 | two words at the same point are not moved at all (the distance falls back to 1 and the move is 0) |
| WordCloud.PairStep | utils/WordCloudChart.js:97-125 | the flag is the collision test of the pair's boxes, and a pair that does not collide leaves the words unchanged |
| WordCloud.PassFrom | utils/WordCloudChart.js:95-127 | the rest of a pass keeps the number of words |
| WordCloud.Pass | utils/WordCloudChart.js:93-127 | a pass keeps the number of words |
| WordCloud.PassFromQuiet | utils/WordCloudChart.js:93-127 | a raised `moved` flag stays raised; a pass whose flag stays down has changed nothing, and then none of the pairs it visited collides |
| WordCloud.QuietPass | utils/WordCloudChart.js:93-130 | a pass moves nothing exactly when no two boxes collide, and then it leaves the layout as it was |
| WordCloud.UntangledPassFrom | utils/WordCloudChart.js:93-127 | a layout with no colliding pair passes unchanged with the flag down |
| WordCloud.Resolve | utils/WordCloudChart.js:89-132 | resolving keeps the number of words |
| WordCloud.ResolveOutcome | utils/WordCloudChart.js:90-131 | at most 50 passes run; when fewer run, the last found no collision and the result is untangled; an untangled layout is left as it is after one pass |
| WordCloud.ResolveKeepsWords | utils/WordCloudChart.js:89-132 | resolving changes nothing but the positions of the words |
| WordCloud.PassFromKeepsWords | utils/WordCloudChart.js:95-127 | a pass changes nothing but positions |
| WordCloud.TryPair | utils/WordCloudChart.js:97-125 | the inner loop body computes exactly `PairStep` |
| WordCloud.SweepPairs | utils/WordCloudChart.js:96-126 | the inner loop over `b` computes exactly the pass's pairs `(a, b)` |
| WordCloud.RunPass | utils/WordCloudChart.js:93-127 | the nested loops compute exactly one `Pass` with its `moved` flag |
| WordCloud.ResolveCollisions | utils/WordCloudChart.js:89-132 | the result is exactly `Resolve` and `PassCount`, and the last `moved` flag is `LastMoved`; at most 50 passes run; when the last pass moved nothing, which is always the case when it breaks early and may be the case on the 50th pass, no two boxes collide; a raised last flag means all 50 passes ran |
| WordCloud.RunPasses | utils/WordCloudChart.js:89-132 | the `for` loop with its `break` computes exactly `Resolve`, `PassCount` and `LastMoved`: the layout, the number of passes and the last `moved` flag |
| WordCloud.RestMeaning | utils/WordCloudChart.js:90-131 | `Rest`, the passes from pass `i` on run as one recursion, gives the layout `Resolve` gives, its running pass count plus `PassCount`, and the flag `LastMoved` |
| WordCloud.LastMovedOutcome | utils/WordCloudChart.js:90-131 | when the last pass that runs moves nothing the result is untangled, and when it moves something every remaining pass ran |
| WordCloud.Layout | utils/WordCloudChart.js:37-86 | empty data returns early and keeps the old words; otherwise one word per item |
| WordCloud.LayoutWords | utils/WordCloudChart.js:53-85 | after `processData`, word `k` has item `k`'s name and value, a font size in `[16, 48]` (16 for the smallest value) and colour `colorPalette[k % length]` |
| WordCloud.ProcessItems | utils/WordCloudChart.js:37-86 | `processData` computes exactly `Layout` and draws six numbers per item |
| WordCloud.AnimateWord | utils/WordCloudChart.js:239-246 | a frame turns the word by its rotation speed and changes only its position; a word that fits ends inside the margins; a move that stays inside is exactly the velocity |
| WordCloud.AnimateWords | utils/WordCloudChart.js:239-246 | the `forEach` applies exactly one frame to every word, and every word that fits ends inside the margins |
| WordCloud.WordCloudChart.constructor | utils/WordCloudChart.js:5-34 | width and height fall back to 300 and 200 and the palette to the ten defaults; the words are the layout of the data; nothing animates |
| WordCloud.WordCloudChart.ProcessData | utils/WordCloudChart.js:37-86 | `words` becomes the layout of the current data, and empty data keeps the old words |
| WordCloud.WordCloudChart.UpdateData | utils/WordCloudChart.js:211-215 | the data is replaced and laid out; empty data keeps the old words |
| WordCloud.WordCloudChart.Animate | utils/WordCloudChart.js:235-253 | when animating, one frame for every word and the next frame's id; otherwise nothing changes |
| WordCloud.WordCloudChart.StartAnimation | utils/WordCloudChart.js:218-223 | nothing when already animating; otherwise it starts and runs the first frame |
| WordCloud.WordCloudChart.StopAnimation | utils/WordCloudChart.js:226-232 | animation stops; a truthy frame id is forgotten and an id of 0 is kept |
| WordCloud.WordCloudChart.Destroy | utils/WordCloudChart.js:256-261 | animation stops and the words and the data are emptied |
| CategoryBars.ChartAreaOf | utils/CategoryChart.js:21-26 | the area starts at `(left, top)` and leaves exactly the right and bottom padding free |
| CategoryBars.ChartAreaDetermined | utils/CategoryChart.js:358-363 | any area with those margins is the chart area, so `resize` recomputes it identically |
| CategoryBars.JoinAgrees | utils/CategoryChart.js:333-336 | the text built with a separator before every entry but the first equals the join folded from the front |
| CategoryBars.Entries | utils/CategoryChart.js:335 | one entry per series, entry `k` being `name + " " + value + "%"` of series `k` |
| CategoryBars.TooltipText | utils/CategoryChart.js:332-338 | the text exists exactly when every series has data, and is `category + ": "` followed by the entries joined by `", "` |
| CategoryBars.JoinSnoc | utils/CategoryChart.js:334-335 | appending an entry appends the separator, when there was an entry before, and the entry |
| CategoryBars.EntriesSnoc | utils/CategoryChart.js:333-336 | the entries of one more series are the entries before plus its own |
| CategoryBars.BuildTooltipText | utils/CategoryChart.js:332-338 | the `forEach` builds exactly `TooltipText`, failing where a series has no data |
| CategoryBars.Cleared | utils/CategoryChart.js:313-314 | no category is highlighted and the tooltip is hidden, its position and text kept |
| CategoryBars.TouchAt | utils/CategoryChart.js:302-342 | a touch outside the chart area clears the highlight and hides the tooltip |
| CategoryBars.Highlight | utils/CategoryChart.js:323-338 | the category becomes the active one, with the tooltip shown at the top of the area |
| CategoryBars.ColumnContains | utils/CategoryChart.js:320-321 | left of the right edge of a non-empty area, the computed index is a category in `[0, n)` and its column contains `x` |
| CategoryBars.ColumnInRange | utils/CategoryChart.js:320-323 | left of the right edge of a non-empty area, the computed index is in `[0, n)` |
| CategoryBars.TouchPicksColumn | utils/CategoryChart.js:320-338 | a touch inside, left of the right edge, highlights `floor((x − chartArea.x) / barWidth)`, an index in `[0, n)` |
| CategoryBars.HighlightShows | utils/CategoryChart.js:328-338 | the tooltip is at the centre of the column, `chartArea.x + barWidth (i + 0.5)`, with the category's text; where a series lacks data the old text stays |
| CategoryBars.ColumnWidthPositive | utils/CategoryChart.js:320 | a positive area has positive columns that add up to its width |
| CategoryBars.ColumnOfOffset | utils/CategoryChart.js:321 | an offset into `n` columns lies in the column its quotient rounds down to, which is in `[0, n)` |
| CategoryBars.ColumnUpper | utils/CategoryChart.js:321 | an offset lies below the end of the column its quotient rounds down to |
| CategoryBars.TouchRightEdge | utils/CategoryChart.js:320-323 | a touch on the right edge computes index `n`, which is not a category, and leaves the state unchanged |
| CategoryBars.TouchWithoutCategories | utils/CategoryChart.js:320-323 | with no categories a touch inside changes nothing |
| CategoryBars.TouchConsistent | utils/CategoryChart.js:307-349 | touching and clearing keep "the tooltip is visible exactly when a category is highlighted" |
| CategoryBars.ClearedIdempotent | utils/CategoryChart.js:345-349 | clearing twice is clearing once, and after any touch a clear leaves no category highlighted |
| CategoryBars.HandleTouchOf | utils/CategoryChart.js:302-342 | the steps of `handleTouch` compute exactly `TouchAt` |
| CategoryBars.BarInColumn | utils/CategoryChart.js:178-183 | a bar, a fifth of the column in from each side, lies inside its own column and has non-negative width |
| CategoryBars.ColumnStep | utils/CategoryChart.js:186-223 | a series without a value for the category adds nothing; one with a value adds one segment standing on the stack so far, and raises the stack by its height |
| CategoryBars.ColumnSegments | utils/CategoryChart.js:186-223 | every segment of a column belongs to the category and to a series with a value there; its height is `value / 100 · height · progress`, its position and width are the bar's, its opacity is 1 for the active category and 0.8 otherwise, and it is labelled exactly when taller than 20 |
| CategoryBars.ColumnCategory | utils/CategoryChart.js:186-200 | every segment of a column belongs to it and has the highlight's opacity |
| CategoryBars.ColumnStacks | utils/CategoryChart.js:202-222 | the first segment stands on the base and each later one on the top of the one before, so each bar's offset is the sum of the earlier heights |
| CategoryBars.ColumnOrdered | utils/CategoryChart.js:186-223 | the segments come in series order, at most one per series |
| CategoryBars.ColumnSkips | utils/CategoryChart.js:187 | a series is drawn in a column exactly when it has data for that category |
| CategoryBars.HighlightedConcat | utils/CategoryChart.js:182-226 | a column followed by the later columns keeps the categories in range and the highlight's opacity |
| CategoryBars.BarsCategories | utils/CategoryChart.js:182-226 | every drawn segment belongs to a category, and exactly the active category is drawn opaque |
| CategoryBars.DrawColumn | utils/CategoryChart.js:183-223 | the inner `forEach` with its running `stackHeight` draws exactly the column's segments |
| CategoryBars.DrawBars | utils/CategoryChart.js:171-227 | `drawBars` draws exactly all columns left to right, and nothing without categories or series |
| CategoryBars.Progress | utils/CategoryChart.js:289-290 | progress never exceeds 1; for a positive duration it is 1 exactly once `elapsed ≥ duration`, below that it is `elapsed / duration`, and it is non-negative from the start on |
| CategoryBars.QuotientAgainstOne | utils/CategoryChart.js:290 | for a positive duration `elapsed / duration < 1` exactly when `elapsed < duration`, and is non-negative for non-negative `elapsed` |
| CategoryBars.ProgressMonotone | utils/CategoryChart.js:288-290 | progress never falls as time goes on |
| CategoryBars.RoundRectRadius | utils/CategoryChart.js:376-378 | the radius drawn with is `min(r, width / 2, height / 2)` |
| CategoryBars.CategoryChart.constructor | utils/CategoryChart.js:5-45 | size 300 by 200, empty data, the padding `{40, 20, 60, 60}` and duration 1000 are the defaults; the area comes from the padding; nothing is highlighted or animating |
| CategoryBars.CategoryChart.CurrentBars | utils/CategoryChart.js:52-76 | the segments that `draw(progress)` paints for the current state |
| CategoryBars.CategoryChart.Resize | utils/CategoryChart.js:352-366 | the new size is kept and the area recomputed from it; the data, touch state, progress, start time, animation flag and frame id stay |
| CategoryBars.CategoryChart.HandleTouch | utils/CategoryChart.js:302-342 | the touch state becomes `TouchAt` of the old one and stays consistent; the size, area, data, progress, start time, animation flag and frame id stay |
| CategoryBars.CategoryChart.ClearTouch | utils/CategoryChart.js:345-349 | no category is highlighted and the tooltip is hidden; the size, area, data, progress, start time, animation flag and frame id stay |
| CategoryBars.CategoryChart.StopAnimation | utils/CategoryChart.js:276-282 | animation stops; a truthy frame id is forgotten and an id of 0 is kept; the size, area, data, touch state, progress and start time stay |
| CategoryBars.CategoryChart.Animate | utils/CategoryChart.js:285-299 | when animating, progress becomes `min(elapsed / duration, 1)`; below 1 the next frame is requested, and at 1 animation stops with the frame id kept; when not animating nothing changes; the size, area, data, touch state and start time stay |
| CategoryBars.CategoryChart.StartAnimation | utils/CategoryChart.js:265-273 | the animation restarts from the given clock and runs its first frame: below progress 1 the new frame is requested, at 1 the frame id is what `stopAnimation` left; the size, area, data and touch state stay |
| CategoryBars.CategoryChart.UpdateData | utils/CategoryChart.js:259-262 | the data is replaced and the grow-in animation restarts, with the frame id as in `StartAnimation`; the size, area and touch state stay |
| CategoryBars.CategoryChart.Destroy | utils/CategoryChart.js:369-372 | animation stops, a truthy frame id is forgotten; the size, area, data, touch state, progress and start time stay |

## Left out

- Canvas painting is not modelled: `draw`, `drawNoData`, `drawAxes`, `drawLegend` and `drawTooltip`, `fillRect`, `fillText`, `arcTo`, `translate`/`rotate`, and the canvas size assignments. The bars are modelled as the rectangles `drawBars` is given (`Segment`), and `roundRect` only by its radius clamp.
- Clip polygons are point lists, not the `polygon(...)` strings. `toFixed(2)` and the `rpx`/`%` formatting are not modelled.
- IEEE floating point is not modelled: numbers are mathematical reals. Three cases where IEEE gives NaN or Infinity are modelled by their visible effect:
  - all-zero values in `generateBubbles` give no bubbles;
  - a touch inside a chart with no categories or a zero-wide area leaves the state unchanged;
  - the word cloud's `minValue` starts from the first value instead of `Infinity`.
- The host's `Math.sqrt`, `cos`, `sin` and `atan2` are parameters with only the laws in `Geometry.Lawful`. `measureText(...).width` is a parameter of the canvas, non-negative where a proof needs it. JavaScript's number-to-string conversion in the tooltip is a parameter `show`.
- `Math.random()` is an injected stream with a cursor that the layouts advance. `Date.now()` and `requestAnimationFrame` are parameters (`now`, `start`, `frame`). `cancelAnimationFrame` is modelled by forgetting the frame id.
- BubbleLayout.GenerateBubbles: requires a positive `minBubbleSize`, because a size of 0 makes the search step 0 and the source's ring loop never ends. It also requires non-negative values, because the square root of a negative area has no real counterpart.
- DynamicBubbles.CalculateSizes: requires a non-zero total for non-empty data, because with a zero total the source's sizes divide by zero (`targetArea / totalValue`), which reals cannot express.
- CategoryBars.CategoryChart.Animate: requires a non-zero duration, which the constructor guarantees (`animationDuration || 1000`). StartAnimation and UpdateData require it for the same reason.
- A `padding` option given as a partial object is not modelled: the padding is either given whole or defaulted.
- The word cloud's `options.data || []` is modelled by passing the data itself; a missing array is the empty sequence.
- WordCloud.ResolveCollisions: convergence of the relaxation is not proved. The model states that at most fifty passes run, and that a last pass that moved nothing means no two boxes collide. The dynamic bubbles' motion over many ticks is likewise not claimed to settle.
- The unused `start = Date.now()` of `updatePositions` and the unused `padding` of `findAvailablePosition` are not modelled.
- The following quirks are modelled as written:
  - the static packer targets 80% of the full canvas, not the padded area;
  - the dynamic widget's `minRadius`/`maxRadius` equal the diameters, so unclamped sizes are doubled;
  - its pair force is a fixed 0.5, not `repulsion`;
  - `processData` on empty data keeps the old words;
  - coincident words are never separated;
  - `keepInBounds` oscillates for a word that does not fit;
  - an animation frame id of 0 is never cancelled;
  - a touch exactly on the right edge of the plot changes nothing.
- DynamicBubbles.DynamicBubbleChart.GenerateBubbles: returns the bubbles as a value. The source returns the live `this.bubbles` array, so a caller also sees the later in-place updates of `checkCollisions` and `updatePositions`; that aliasing is not modelled.
- CategoryBars.TouchAt: when a series has no `data` array, the source's tooltip loop throws a TypeError out of `handleTouch` (utils/CategoryChart.js:333-336), after the highlight and tooltip position are set and before `draw()`. The model keeps that state and the old text; the exception reaching the caller is not modelled, and neither is the painting it skips. CategoryBars.CategoryChart.HandleTouch inherits this.
- BubbleLayout.GenerateBubblePath: the `w = 0` case of its contract cannot arise from `Configure`, which turns a wobble factor of 0 into 0.08; it is stated for the function on its own.
- An emotion object is a sequence of entries in the order `Object.entries` lists them. That order (integer-like keys first, ascending) is taken as given, and the sequence may hold repeated names, which an object cannot.
- The HTTP, API and socket modules of the repository are not part of this model.
