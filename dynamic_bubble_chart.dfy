/** The animated bubble widget: bubbles sized by a linear map of their
    radii, released at random points with random velocities, bounced off the
    padded walls and pushed apart pairwise on every animation step. */
module DynamicBubbles {
  import opened Geometry

  datatype Options = Options(
    width: real,
    height: real,
    minSize: real,
    maxSize: real,
    padding: real,
    maxSpeed: real,
    repulsion: real)

  /** A bubble in flight; `shape` is the jittered outline (empty until the
      outline is generated). */
  datatype Bubble = Bubble(
    emotion: string,
    size: real,
    x: real,
    y: real,
    vx: real,
    vy: real,
    shape: seq<Point>)

  /** `(x || d) * s`: a length option, defaulted, then scaled. */
  function ScaledOption(x: real, d: real, s: real): (r: real)
    requires d != 0.0
    ensures x != 0.0 ==> r == x * s
    ensures x == 0.0 ==> r == d * s
  {
    OrDefault(x, d) * s
  }

  /** The constructor: lengths are multiplied by `scaleFactor || 1`, speed and
      repulsion are not; an option left out (or 0) takes its default. */
  function Configure(requested: Options, scaleFactor: real): (o: Options)
    ensures requested.width != 0.0 ==> o.width == requested.width * OrDefault(scaleFactor, 1.0)
    ensures requested.height != 0.0 ==> o.height == requested.height * OrDefault(scaleFactor, 1.0)
    ensures requested.minSize != 0.0 ==> o.minSize == requested.minSize * OrDefault(scaleFactor, 1.0)
    ensures requested.maxSize != 0.0 ==> o.maxSize == requested.maxSize * OrDefault(scaleFactor, 1.0)
    ensures requested.padding != 0.0 ==> o.padding == requested.padding * OrDefault(scaleFactor, 1.0)
    ensures requested.width == 0.0 ==> o.width == 300.0 * OrDefault(scaleFactor, 1.0)
    ensures requested.height == 0.0 ==> o.height == 300.0 * OrDefault(scaleFactor, 1.0)
    ensures requested.minSize == 0.0 ==> o.minSize == 40.0 * OrDefault(scaleFactor, 1.0)
    ensures requested.maxSize == 0.0 ==> o.maxSize == 150.0 * OrDefault(scaleFactor, 1.0)
    ensures requested.padding == 0.0 ==> o.padding == 10.0 * OrDefault(scaleFactor, 1.0)
    ensures o.maxSpeed != 0.0 && (requested.maxSpeed != 0.0 ==> o.maxSpeed == requested.maxSpeed)
    ensures requested.maxSpeed == 0.0 ==> o.maxSpeed == 1.5
    ensures o.repulsion != 0.0 && (requested.repulsion != 0.0 ==> o.repulsion == requested.repulsion)
    ensures requested.repulsion == 0.0 ==> o.repulsion == 0.8
  {
    var s := OrDefault(scaleFactor, 1.0);
    Options(
      ScaledOption(requested.width, 300.0, s),
      ScaledOption(requested.height, 300.0, s),
      ScaledOption(requested.minSize, 40.0, s),
      ScaledOption(requested.maxSize, 150.0, s),
      ScaledOption(requested.padding, 10.0, s),
      OrDefault(requested.maxSpeed, 1.5),
      OrDefault(requested.repulsion, 0.8))
  }

  // ---------------------------------------------------------------------
  // calculateSizes

  function MinOf(s: seq<real>): (r: real)
    requires |s| > 0
    ensures r in s
    ensures forall k :: 0 <= k < |s| ==> r <= s[k]
  {
    if |s| == 1 then s[0] else Min(s[0], MinOf(s[1..]))
  }

  function MaxOf(s: seq<real>): (r: real)
    requires |s| > 0
    ensures r in s
    ensures forall k :: 0 <= k < |s| ==> s[k] <= r
  {
    if |s| == 1 then s[0] else Max(s[0], MaxOf(s[1..]))
  }

  /** `targetArea / totalValue`: 80% of the padded area shared out per unit of value. */
  function AreaPerUnit(o: Options, total: real): real
    requires total != 0.0
  {
    (o.width - 2.0 * o.padding) * (o.height - 2.0 * o.padding) * 0.8 / total
  }

  /** `MIN_AREA`: the area of a circle of diameter `minSize`. */
  function MinArea(o: Options): (a: real)
    ensures 0.0 <= a
  {
    var s2 := o.minSize * o.minSize;
    assert 0.0 <= s2 by {
      if o.minSize < 0.0 {
        SquareMonotone(0.0, -o.minSize);
      } else {
        SquareMonotone(0.0, o.minSize);
      }
    }
    s2 * PI / 4.0
  }

  /** `baseRadii`: the radius of each entry's area, the area floored at `MIN_AREA`. */
  function BaseRadii(m: RealMath, o: Options, data: seq<Entry>, total: real): (r: seq<real>)
    requires total != 0.0
    ensures |r| == |data|
  {
    seq(|data|, k requires 0 <= k < |data| => BaseRadius(m, o, data, total, k))
  }

  function BaseRadius(m: RealMath, o: Options, data: seq<Entry>, total: real, k: nat): real
    requires total != 0.0
    requires k < |data|
  {
    Sqrt(m, Area(o, data, total, k) / PI)
  }

  /** `areas[k]`: the entry's share of the target area, floored at `MIN_AREA`. */
  function Area(o: Options, data: seq<Entry>, total: real, k: nat): (a: real)
    requires total != 0.0
    requires k < |data|
    ensures MinArea(o) <= a
  {
    Max(data[k].value * AreaPerUnit(o, total), MinArea(o))
  }

  /** `lo`..`hi` mapped linearly onto `a`..`b`, with a zero-width source range
      (`hi - lo || 1`) mapping everything to `a`. */
  function Rescale(v: real, lo: real, hi: real, a: real, b: real): real {
    a + (v - lo) * ((b - a) / OrDefault(hi - lo, 1.0))
  }

  lemma RescaleRange(v: real, lo: real, hi: real, a: real, b: real)
    requires lo <= v <= hi
    requires a <= b
    ensures a <= Rescale(v, lo, hi, a, b) <= b
    ensures v == lo ==> Rescale(v, lo, hi, a, b) == a
    ensures v == hi && lo < hi ==> Rescale(v, lo, hi, a, b) == b
  {
    var span := OrDefault(hi - lo, 1.0);
    var scale := (b - a) / span;
    var t := v - lo;
    MulMonotone(0.0, t, scale);
    if lo < hi {
      assert span == hi - lo;
      assert scale * span == b - a;
      MulMonotone(t, span, scale);
    }
  }

  lemma RescaleMonotone(v: real, w: real, lo: real, hi: real, a: real, b: real)
    requires lo <= hi
    requires v <= w
    requires a <= b
    ensures Rescale(v, lo, hi, a, b) <= Rescale(w, lo, hi, a, b)
  {
    var scale := (b - a) / OrDefault(hi - lo, 1.0);
    MulMonotone(v - lo, w - lo, scale);
  }

  /** The diameter `radius * 2` before clamping, where `radius` maps
      `[minRaw, maxRaw]` linearly onto `[minRadius, maxRadius]`. */
  function RawSize(m: RealMath, o: Options, radii: seq<real>, k: nat): real
    requires k < |radii|
  {
    Rescale(radii[k], MinOf(radii), MaxOf(radii), RadiusOf(m, o.minSize), RadiusOf(m, o.maxSize)) * 2.0
  }

  /** `minRadius` and `maxRadius`: `Math.sqrt((size ** 2 * Math.PI) / Math.PI)`. */
  function RadiusOf(m: RealMath, size: real): real {
    Sqrt(m, (size * size * PI) / PI)
  }

  /** The unclamped diameter of every entry. */
  function RawSizes(m: RealMath, o: Options, data: seq<Entry>, total: real): (r: seq<real>)
    requires total != 0.0
    ensures |r| == |data|
  {
    RawSizesFrom(m, o, BaseRadii(m, o, data, total), 0)
  }

  function RawSizesFrom(m: RealMath, o: Options, radii: seq<real>, i: nat): (r: seq<real>)
    requires i <= |radii|
    ensures |r| == |radii| - i
    decreases |radii| - i
  {
    if i == |radii| then [] else [RawSize(m, o, radii, i)] + RawSizesFrom(m, o, radii, i + 1)
  }

  lemma {:induction false} RawSizesFromAt(m: RealMath, o: Options, radii: seq<real>, i: nat, k: nat)
    requires i <= k < |radii|
    ensures RawSizesFrom(m, o, radii, i)[k - i] == RawSize(m, o, radii, k)
    decreases k - i
  {
    if i < k {
      RawSizesFromAt(m, o, radii, i + 1, k);
    }
  }

  /** `(Math.random() - 0.5) * maxSpeed` for the draw `u`. */
  function Speed(u: real, maxSpeed: real): (v: real)
    ensures 0.0 <= u < 1.0 && 0.0 < maxSpeed ==> -maxSpeed / 2.0 <= v < maxSpeed / 2.0
  {
    if 0.0 <= u < 1.0 && 0.0 < maxSpeed then
      var us := u * maxSpeed;
      MulMonotone(0.0, u, maxSpeed);
      assert us < maxSpeed;
      (u - 0.5) * maxSpeed
    else
      (u - 0.5) * maxSpeed
  }

  /** One element of the `map`: a random start inside the padded area for
      the unclamped diameter, the clamped size and a random velocity.
      Draws four numbers from `rand`, starting at `c`. */
  function Spawn(o: Options, emotion: string, raw: real, rand: Random, c: nat): (b: Bubble)
    ensures b.emotion == emotion && b.shape == []
    ensures o.minSize <= o.maxSize ==> o.minSize <= b.size <= o.maxSize
    ensures 0.0 <= rand(c + 2) < 1.0 && 0.0 < o.maxSpeed ==> -o.maxSpeed / 2.0 <= b.vx < o.maxSpeed / 2.0
    ensures 0.0 <= rand(c + 3) < 1.0 && 0.0 < o.maxSpeed ==> -o.maxSpeed / 2.0 <= b.vy < o.maxSpeed / 2.0
  {
    var effectiveWidth := o.width - 2.0 * o.padding;
    var effectiveHeight := o.height - 2.0 * o.padding;
    Bubble(
      emotion,
      Min(o.maxSize, Max(o.minSize, raw)),
      rand(c) * (effectiveWidth - raw) + o.padding + raw / 2.0,
      rand(c + 1) * (effectiveHeight - raw) + o.padding + raw / 2.0,
      Speed(rand(c + 2), o.maxSpeed),
      Speed(rand(c + 3), o.maxSpeed),
      [])
  }

  /** `calculateSizes(data)`, entry `k` drawing numbers `c + 4k` to `c + 4k + 3`.
      A non-empty object whose values sum to 0 makes the source's sizes
      divide by zero and is excluded. */
  function CalculateSizes(m: RealMath, o: Options, data: seq<Entry>, rand: Random, c: nat): (r: seq<Bubble>)
    requires |data| > 0 ==> TotalValue(data) != 0.0
    ensures |r| == |data|
  {
    if data == [] then [] else SpawnFrom(o, data, RawSizes(m, o, data, TotalValue(data)), rand, c, 0)
  }

  /** The `map` from entry `i` on. */
  function SpawnFrom(o: Options, data: seq<Entry>, sizes: seq<real>, rand: Random, c: nat, i: nat): (r: seq<Bubble>)
    requires |sizes| == |data| && i <= |data|
    ensures |r| == |data| - i
    decreases |data| - i
  {
    if i == |data| then []
    else [Spawn(o, data[i].emotion, sizes[i], rand, c + 4 * i)] + SpawnFrom(o, data, sizes, rand, c, i + 1)
  }

  lemma {:induction false} SpawnFromAt(o: Options, data: seq<Entry>, sizes: seq<real>, rand: Random, c: nat, i: nat, k: nat)
    requires |sizes| == |data| && i <= k < |data|
    ensures SpawnFrom(o, data, sizes, rand, c, i)[k - i] == Spawn(o, data[k].emotion, sizes[k], rand, c + 4 * k)
    decreases k - i
  {
    if i < k {
      SpawnFromAt(o, data, sizes, rand, c, i + 1, k);
    }
  }

  /** Entry `k` of the result is spawned from entry `k` of the data, with
      its unclamped diameter, drawing from `c + 4k`. */
  lemma {:induction false} SpawnedAt(m: RealMath, o: Options, data: seq<Entry>, rand: Random, c: nat, k: nat)
    requires k < |data|
    requires TotalValue(data) != 0.0
    ensures CalculateSizes(m, o, data, rand, c)[k]
         == Spawn(o, data[k].emotion, RawSize(m, o, BaseRadii(m, o, data, TotalValue(data)), k), rand, c + 4 * k)
  {
    SpawnFromAt(o, data, RawSizes(m, o, data, TotalValue(data)), rand, c, 0, k);
    RawSizesFromAt(m, o, BaseRadii(m, o, data, TotalValue(data)), 0, k);
  }

  /** Every size lies in `[minSize, maxSize]` and every velocity component in
      `[-maxSpeed/2, maxSpeed/2)`. */
  lemma {:induction false} CalculateSizesBounds(m: RealMath, o: Options, data: seq<Entry>, rand: Random, c: nat)
    requires |data| > 0 ==> TotalValue(data) != 0.0
    requires UnitStream(rand)
    ensures var r := CalculateSizes(m, o, data, rand, c);
      && (o.minSize <= o.maxSize ==> forall k :: 0 <= k < |r| ==> o.minSize <= r[k].size <= o.maxSize)
      && (0.0 < o.maxSpeed ==> forall k :: 0 <= k < |r| ==>
           -o.maxSpeed / 2.0 <= r[k].vx < o.maxSpeed / 2.0 && -o.maxSpeed / 2.0 <= r[k].vy < o.maxSpeed / 2.0)
  {
    var r := CalculateSizes(m, o, data, rand, c);
    forall k | 0 <= k < |r|
      ensures o.minSize <= o.maxSize ==> o.minSize <= r[k].size <= o.maxSize
      ensures 0.0 < o.maxSpeed ==> -o.maxSpeed / 2.0 <= r[k].vx < o.maxSpeed / 2.0
      ensures 0.0 < o.maxSpeed ==> -o.maxSpeed / 2.0 <= r[k].vy < o.maxSpeed / 2.0
    {
      SpawnedAt(m, o, data, rand, c, k);
      assert 0.0 <= rand(c + 4 * k + 2) < 1.0 && 0.0 <= rand(c + 4 * k + 3) < 1.0;
    }
  }

  /** One bubble per entry, in the order of the entries, with no outline yet. */
  lemma {:induction false} CalculateSizesEntries(m: RealMath, o: Options, data: seq<Entry>, rand: Random, c: nat)
    requires |data| > 0 ==> TotalValue(data) != 0.0
    ensures var r := CalculateSizes(m, o, data, rand, c);
      forall k :: 0 <= k < |r| ==> r[k].emotion == data[k].emotion && r[k].shape == []
  {
    var r := CalculateSizes(m, o, data, rand, c);
    forall k | 0 <= k < |r|
      ensures r[k].emotion == data[k].emotion && r[k].shape == []
    {
      SpawnedAt(m, o, data, rand, c, k);
    }
  }

  /** Because `minRadius` and `maxRadius` are computed from the diameters
      `minSize` and `maxSize`, and the result is doubled, every unclamped
      diameter lies between twice the minimum and twice the maximum size;
      the entry with the smallest radius gets exactly twice `minSize`. */
  lemma {:induction false} RawSizeRange(m: RealMath, o: Options, radii: seq<real>, k: nat)
    requires Lawful(m)
    requires 0.0 <= o.minSize <= o.maxSize
    requires k < |radii|
    ensures 2.0 * o.minSize <= RawSize(m, o, radii, k) <= 2.0 * o.maxSize
    ensures radii[k] == MinOf(radii) ==> RawSize(m, o, radii, k) == 2.0 * o.minSize
    ensures radii[k] == MaxOf(radii) && MinOf(radii) < MaxOf(radii) ==> RawSize(m, o, radii, k) == 2.0 * o.maxSize
  {
    RadiusOfSize(m, o.minSize);
    RadiusOfSize(m, o.maxSize);
    RescaleRange(radii[k], MinOf(radii), MaxOf(radii), RadiusOf(m, o.minSize), RadiusOf(m, o.maxSize));
  }

  /** The "radius" computed from a size is the size itself. */
  lemma RadiusOfSize(m: RealMath, size: real)
    requires Lawful(m)
    requires 0.0 <= size
    ensures RadiusOf(m, size) == size
  {
    var x := (size * size * PI) / PI;
    assert x == size * size;
    SqrtOfSquare(m, size);
  }

  /** With a positive total and a padded area of positive width and height,
      every unit of value is worth a positive area. */
  lemma AreaPerUnitPositive(o: Options, total: real)
    requires 0.0 < total
    requires 0.0 < o.width - 2.0 * o.padding && 0.0 < o.height - 2.0 * o.padding
    ensures 0.0 < AreaPerUnit(o, total)
  {
    var a, b := o.width - 2.0 * o.padding, o.height - 2.0 * o.padding;
    var ab := a * b;
    MulMonotone(0.0, a, b);
    assert 0.0 < ab;
    assert AreaPerUnit(o, total) == (ab * 0.8) / total;
  }

  /** A larger value never gets a smaller base radius. */
  lemma {:induction false} RadiiMonotone(m: RealMath, o: Options, data: seq<Entry>, total: real, i: nat, j: nat)
    requires Lawful(m)
    requires 0.0 < total
    requires 0.0 < o.width - 2.0 * o.padding && 0.0 < o.height - 2.0 * o.padding
    requires i < |data| && j < |data|
    requires data[i].value <= data[j].value
    ensures BaseRadii(m, o, data, total)[i] <= BaseRadii(m, o, data, total)[j]
  {
    AreaMonotone(o, data, total, i, j);
    assert 0.0 <= Area(o, data, total, i) / PI <= Area(o, data, total, j) / PI;
    SqrtMonotone(m, Area(o, data, total, i) / PI, Area(o, data, total, j) / PI);
  }

  lemma {:induction false} AreaMonotone(o: Options, data: seq<Entry>, total: real, i: nat, j: nat)
    requires 0.0 < total
    requires 0.0 < o.width - 2.0 * o.padding && 0.0 < o.height - 2.0 * o.padding
    requires i < |data| && j < |data|
    requires data[i].value <= data[j].value
    ensures Area(o, data, total, i) <= Area(o, data, total, j)
  {
    AreaPerUnitPositive(o, total);
    MulMonotone(data[i].value, data[j].value, AreaPerUnit(o, total));
  }

  /** A larger value never gets a smaller bubble. */
  lemma {:induction false} SizeMonotone(m: RealMath, o: Options, data: seq<Entry>, rand: Random, c: nat, i: nat, j: nat)
    requires Lawful(m)
    requires 0.0 < TotalValue(data)
    requires 0.0 < o.width - 2.0 * o.padding && 0.0 < o.height - 2.0 * o.padding
    requires 0.0 <= o.minSize <= o.maxSize
    requires i < |data| && j < |data|
    requires data[i].value <= data[j].value
    ensures CalculateSizes(m, o, data, rand, c)[i].size <= CalculateSizes(m, o, data, rand, c)[j].size
  {
    var radii := BaseRadii(m, o, data, TotalValue(data));
    RadiiMonotone(m, o, data, TotalValue(data), i, j);
    RadiusOfSize(m, o.minSize);
    RadiusOfSize(m, o.maxSize);
    RescaleMonotone(radii[i], radii[j], MinOf(radii), MaxOf(radii), RadiusOf(m, o.minSize), RadiusOf(m, o.maxSize));
    assert RawSize(m, o, radii, i) <= RawSize(m, o, radii, j);
    SpawnedAt(m, o, data, rand, c, i);
    SpawnedAt(m, o, data, rand, c, j);
  }

  /** The smallest value's bubble is drawn `min(maxSize, 2 * minSize)` wide,
      and no bubble is narrower: `minSize` is never reached when
      `2 * minSize <= maxSize`. */
  lemma {:induction false} SizesStartAtTwiceMinimum(m: RealMath, o: Options, data: seq<Entry>, rand: Random, c: nat, k: nat)
    requires Lawful(m)
    requires 0.0 < TotalValue(data)
    requires 0.0 < o.width - 2.0 * o.padding && 0.0 < o.height - 2.0 * o.padding
    requires 0.0 <= o.minSize <= o.maxSize
    requires k < |data|
    requires forall q :: 0 <= q < |data| ==> data[k].value <= data[q].value
    ensures CalculateSizes(m, o, data, rand, c)[k].size == Min(o.maxSize, 2.0 * o.minSize)
    ensures forall q :: 0 <= q < |data| ==> Min(o.maxSize, 2.0 * o.minSize) <= CalculateSizes(m, o, data, rand, c)[q].size
  {
    var radii := BaseRadii(m, o, data, TotalValue(data));
    forall q | 0 <= q < |data|
      ensures radii[k] <= radii[q]
    {
      RadiiMonotone(m, o, data, TotalValue(data), k, q);
    }
    var p :| 0 <= p < |radii| && radii[p] == MinOf(radii);
    assert radii[k] == MinOf(radii);
    RawSizeRange(m, o, radii, k);
    SpawnedAt(m, o, data, rand, c, k);
    forall q | 0 <= q < |data|
      ensures Min(o.maxSize, 2.0 * o.minSize) <= CalculateSizes(m, o, data, rand, c)[q].size
    {
      RawSizeRange(m, o, radii, q);
      SpawnedAt(m, o, data, rand, c, q);
    }
  }

  // ---------------------------------------------------------------------
  // checkCollisions

  /** The bubble lies within `[padding, width - padding]` by
      `[padding, height - padding]`. */
  predicate InsideWalls(o: Options, b: Bubble) {
    && o.padding <= b.x - b.size / 2.0
    && b.x + b.size / 2.0 <= o.width - o.padding
    && o.padding <= b.y - b.size / 2.0
    && b.y + b.size / 2.0 <= o.height - o.padding
  }

  /** A bubble of this size fits between the walls. */
  predicate Fits(o: Options, size: real) {
    0.0 <= size && size <= o.width - 2.0 * o.padding && size <= o.height - 2.0 * o.padding
  }

  /** A fresh bubble whose unclamped diameter fits is released inside the walls. */
  lemma SpawnInsideWalls(o: Options, emotion: string, raw: real, rand: Random, c: nat)
    requires 0.0 <= rand(c) < 1.0 && 0.0 <= rand(c + 1) < 1.0
    requires 0.0 <= o.minSize <= raw
    requires o.minSize <= o.maxSize
    requires Fits(o, raw)
    ensures InsideWalls(o, Spawn(o, emotion, raw, rand, c))
  {
    var b := Spawn(o, emotion, raw, rand, c);
    assert 0.0 <= b.size <= raw;
    PlacedInside(rand(c), o.width - 2.0 * o.padding - raw, o.padding, raw, b.size);
    PlacedInside(rand(c + 1), o.height - 2.0 * o.padding - raw, o.padding, raw, b.size);
  }

  /** A centre drawn as `u * room + padding + raw / 2` keeps a body no wider
      than `raw` within `[padding, padding + room + raw]`. */
  lemma PlacedInside(u: real, room: real, padding: real, raw: real, size: real)
    requires 0.0 <= u < 1.0
    requires 0.0 <= room
    requires 0.0 <= size <= raw
    ensures padding <= u * room + padding + raw / 2.0 - size / 2.0
    ensures u * room + padding + raw / 2.0 + size / 2.0 <= padding + room + raw
  {
    MulMonotone(0.0, u, room);
    MulMonotone(u, 1.0, room);
  }

  /** Under the right options the whole spawned layout starts inside the walls. */
  lemma {:induction false} CalculateSizesInsideWalls(m: RealMath, o: Options, data: seq<Entry>, rand: Random, c: nat)
    requires Lawful(m)
    requires UnitStream(rand)
    requires |data| > 0 ==> TotalValue(data) != 0.0
    requires 0.0 <= o.minSize <= o.maxSize
    requires Fits(o, 2.0 * o.maxSize)
    ensures forall k :: 0 <= k < |data| ==> InsideWalls(o, CalculateSizes(m, o, data, rand, c)[k])
  {
    forall k | 0 <= k < |data|
      ensures InsideWalls(o, CalculateSizes(m, o, data, rand, c)[k])
    {
      var radii := BaseRadii(m, o, data, TotalValue(data));
      RawSizeRange(m, o, radii, k);
      SpawnedAt(m, o, data, rand, c, k);
      assert 0.0 <= rand(c + 4 * k) < 1.0 && 0.0 <= rand(c + 4 * k + 1) < 1.0;
      SpawnInsideWalls(o, data[k].emotion, RawSize(m, o, radii, k), rand, c + 4 * k);
    }
  }

  /** The four wall checks of one bubble, in the source's order: a bubble
      crossing a wall is put back against it and its velocity along that
      axis is reversed and damped by `repulsion`. */
  function Walls(o: Options, b: Bubble): (w: Bubble)
    ensures w.emotion == b.emotion && w.size == b.size && w.shape == b.shape
    ensures InsideWalls(o, b) ==> w == b
    ensures Fits(o, b.size) ==> InsideWalls(o, w)
    ensures Fits(o, b.size) && b.x - b.size / 2.0 < o.padding ==>
      w.x == o.padding + b.size / 2.0 && w.vx == b.vx * -o.repulsion
    ensures Fits(o, b.size) && b.x + b.size / 2.0 > o.width - o.padding ==>
      w.x == o.width - o.padding - b.size / 2.0 && w.vx == b.vx * -o.repulsion
    ensures Fits(o, b.size) && b.y - b.size / 2.0 < o.padding ==>
      w.y == o.padding + b.size / 2.0 && w.vy == b.vy * -o.repulsion
    ensures Fits(o, b.size) && b.y + b.size / 2.0 > o.height - o.padding ==>
      w.y == o.height - o.padding - b.size / 2.0 && w.vy == b.vy * -o.repulsion
    // Every case along x, a bubble wider than the gap between the walls included:
    // put back against the left wall, it then crosses the right one as well.
    ensures b.x - b.size / 2.0 < o.padding ==>
      if o.padding + b.size > o.width - o.padding
      then w.x == o.width - o.padding - b.size / 2.0 && w.vx == b.vx * -o.repulsion * -o.repulsion
      else w.x == o.padding + b.size / 2.0 && w.vx == b.vx * -o.repulsion
    ensures o.padding <= b.x - b.size / 2.0 && b.x + b.size / 2.0 > o.width - o.padding ==>
      w.x == o.width - o.padding - b.size / 2.0 && w.vx == b.vx * -o.repulsion
    ensures o.padding <= b.x - b.size / 2.0 && b.x + b.size / 2.0 <= o.width - o.padding ==>
      w.x == b.x && w.vx == b.vx
    // The same along y.
    ensures b.y - b.size / 2.0 < o.padding ==>
      if o.padding + b.size > o.height - o.padding
      then w.y == o.height - o.padding - b.size / 2.0 && w.vy == b.vy * -o.repulsion * -o.repulsion
      else w.y == o.padding + b.size / 2.0 && w.vy == b.vy * -o.repulsion
    ensures o.padding <= b.y - b.size / 2.0 && b.y + b.size / 2.0 > o.height - o.padding ==>
      w.y == o.height - o.padding - b.size / 2.0 && w.vy == b.vy * -o.repulsion
    ensures o.padding <= b.y - b.size / 2.0 && b.y + b.size / 2.0 <= o.height - o.padding ==>
      w.y == b.y && w.vy == b.vy
  {
    var minX, maxX := o.padding, o.width - o.padding;
    var minY, maxY := o.padding, o.height - o.padding;
    var b1 := if b.x - b.size / 2.0 < minX then b.(x := minX + b.size / 2.0, vx := b.vx * -o.repulsion) else b;
    var b2 := if b1.x + b1.size / 2.0 > maxX then b1.(x := maxX - b1.size / 2.0, vx := b1.vx * -o.repulsion) else b1;
    var b3 := if b2.y - b2.size / 2.0 < minY then b2.(y := minY + b2.size / 2.0, vy := b2.vy * -o.repulsion) else b2;
    if b3.y + b3.size / 2.0 > maxY then b3.(y := maxY - b3.size / 2.0, vy := b3.vy * -o.repulsion) else b3
  }

  /** Where the wall checks leave a bubble depends only on its position and size. */
  lemma WallsPlacement(o: Options, a: Bubble, b: Bubble)
    requires a.x == b.x && a.y == b.y && a.size == b.size
    ensures Walls(o, a).x == Walls(o, b).x && Walls(o, a).y == Walls(o, b).y
  {
  }

  function Center(b: Bubble): Point {
    Point(b.x, b.y)
  }

  /** The centres are closer than the sum of the radii. */
  predicate Overlapping(m: RealMath, a: Bubble, b: Bubble) {
    Dist(m, Center(b), Center(a)) < (a.size + b.size) / 2.0
  }

  /** Half the overlap of two bubbles: the length of the push between them. */
  function PushForce(m: RealMath, a: Bubble, b: Bubble): real {
    ((a.size + b.size) / 2.0 - Dist(m, Center(b), Center(a))) * 0.5
  }

  /** One pair of the inner loop: overlapping bubbles get opposite velocity
      changes along the line between their centres, half the overlap long. */
  function Push(m: RealMath, a: Bubble, b: Bubble): (r: (Bubble, Bubble))
    ensures r.0 == a.(vx := r.0.vx, vy := r.0.vy) && r.1 == b.(vx := r.1.vx, vy := r.1.vy)
    ensures r.0.vx + r.1.vx == a.vx + b.vx && r.0.vy + r.1.vy == a.vy + b.vy
    ensures !Overlapping(m, a, b) ==> r == (a, b)
  {
    var dx, dy := b.x - a.x, b.y - a.y;
    var distance := Dist(m, Center(b), Center(a));
    var minDistance := (a.size + b.size) / 2.0;
    if distance < minDistance then
      var angle := Atan2(m, dy, dx);
      var force := (minDistance - distance) * 0.5;
      (a.(vx := a.vx - Cos(m, angle) * force, vy := a.vy - Sin(m, angle) * force),
       b.(vx := b.vx + Cos(m, angle) * force, vy := b.vy + Sin(m, angle) * force))
    else
      (a, b)
  }

  /** The velocity change of an overlapping pair has length half the overlap,
      and it pushes the first bubble straight away from the second. */
  lemma PushImpulse(m: RealMath, a: Bubble, b: Bubble)
    requires Lawful(m)
    requires Overlapping(m, a, b)
    ensures 0.0 < PushForce(m, a, b)
    ensures Square(Push(m, a, b).0.vx - a.vx) + Square(Push(m, a, b).0.vy - a.vy) == Square(PushForce(m, a, b))
    ensures (Push(m, a, b).0.vx - a.vx) * (b.x - a.x) + (Push(m, a, b).0.vy - a.vy) * (b.y - a.y)
            == -PushForce(m, a, b) * Dist(m, Center(b), Center(a))
  {
    UnitDirection(m, a, b);
    PushAlongDirection(m, a, b);
  }

  /** The direction `atan2` gives from the centre of `a` to that of `b`
      is a unit vector, and scaled by their distance it is the vector
      between them. */
  ghost predicate UnitDirectionHolds(m: RealMath, a: Bubble, b: Bubble) {
    var co, si := Cos(m, Atan2(m, b.y - a.y, b.x - a.x)), Sin(m, Atan2(m, b.y - a.y, b.x - a.x));
    && co * co + si * si == 1.0
    && co * Dist(m, Center(b), Center(a)) == b.x - a.x
    && si * Dist(m, Center(b), Center(a)) == b.y - a.y
  }

  /** The push of an overlapping pair, along a unit direction. */
  lemma PushAlongDirection(m: RealMath, a: Bubble, b: Bubble)
    requires Overlapping(m, a, b)
    requires UnitDirectionHolds(m, a, b)
    ensures 0.0 < PushForce(m, a, b)
    ensures Square(Push(m, a, b).0.vx - a.vx) + Square(Push(m, a, b).0.vy - a.vy) == Square(PushForce(m, a, b))
    ensures (Push(m, a, b).0.vx - a.vx) * (b.x - a.x) + (Push(m, a, b).0.vy - a.vy) * (b.y - a.y)
            == -PushForce(m, a, b) * Dist(m, Center(b), Center(a))
  {
    var dx, dy := b.x - a.x, b.y - a.y;
    var co, si := Cos(m, Atan2(m, dy, dx)), Sin(m, Atan2(m, dy, dx));
    PushDelta(m, a, b);
    var r := Push(m, a, b);
    ImpulseAlgebra(co, si, Dist(m, Center(b), Center(a)), PushForce(m, a, b), dx, dy, r.0.vx - a.vx, r.0.vy - a.vy);
  }

  /** For an overlapping pair the first bubble's velocity changes by the
      force along the negated direction from it to the second. */
  lemma PushDelta(m: RealMath, a: Bubble, b: Bubble)
    requires Overlapping(m, a, b)
    ensures Push(m, a, b).0.vx - a.vx == -Cos(m, Atan2(m, b.y - a.y, b.x - a.x)) * PushForce(m, a, b)
    ensures Push(m, a, b).0.vy - a.vy == -Sin(m, Atan2(m, b.y - a.y, b.x - a.x)) * PushForce(m, a, b)
  {
  }

  /** The direction `atan2` gives from one centre to another is a unit
      vector, and scaled by their distance it is the vector between them. */
  lemma UnitDirection(m: RealMath, a: Bubble, b: Bubble)
    requires Lawful(m)
    ensures UnitDirectionHolds(m, a, b)
  {
    var dx, dy := b.x - a.x, b.y - a.y;
    assert Square(b.x - a.x) + Square(b.y - a.y) == dx * dx + dy * dy;
    assert UnitCircleLaw(m, Atan2(m, dy, dx)) && PolarLaw(m, dy, dx);
  }

  /** A change `(dvx, dvy)` of `force` along the unit direction `(co, si)`
      of a vector of length `d` has length `force`, and against that
      vector it projects to `-force * d`. */
  lemma ImpulseAlgebra(co: real, si: real, d: real, force: real, dx: real, dy: real, dvx: real, dvy: real)
    requires co * co + si * si == 1.0
    requires co * d == dx && si * d == dy
    requires dvx == -co * force && dvy == -si * force
    ensures Square(dvx) + Square(dvy) == Square(force)
    ensures dvx * dx + dvy * dy == -force * d
  {
    calc {
      dvx * dvx + dvy * dvy;
      (co * co + si * si) * (force * force);
      force * force;
    }
    calc {
      dvx * dx + dvy * dy;
      (-co * force) * (co * d) + (-si * force) * (si * d);
      -force * d * (co * co + si * si);
      -force * d;
    }
  }

  /** The total velocity of the bubbles, the momentum of equal masses. */
  function Momentum(bs: seq<Bubble>): Point {
    if bs == [] then Point(0.0, 0.0)
    else Point(bs[0].vx + Momentum(bs[1..]).x, bs[0].vy + Momentum(bs[1..]).y)
  }

  lemma {:induction false} MomentumUpdate(bs: seq<Bubble>, k: nat, b: Bubble)
    requires k < |bs|
    ensures Momentum(bs[k := b]).x == Momentum(bs).x - bs[k].vx + b.vx
    ensures Momentum(bs[k := b]).y == Momentum(bs).y - bs[k].vy + b.vy
  {
    if k == 0 {
      assert bs[k := b][1..] == bs[1..];
    } else {
      assert bs[k := b][1..] == bs[1..][k - 1 := b];
      MomentumUpdate(bs[1..], k - 1, b);
    }
  }

  /** Both bubbles keep their centre, size, label and outline. */
  predicate SameBody(a: Bubble, b: Bubble) {
    a.emotion == b.emotion && a.size == b.size && a.x == b.x && a.y == b.y && a.shape == b.shape
  }

  /** The inner loop for bubble `i`, from partner `j` on. */
  function PairsFrom(m: RealMath, bs: seq<Bubble>, i: nat, j: nat): (r: seq<Bubble>)
    requires i < j <= |bs|
    ensures |r| == |bs|
    decreases |bs| - j
  {
    if j == |bs| then bs
    else
      var p := Push(m, bs[i], bs[j]);
      PairsFrom(m, bs[i := p.0][j := p.1], i, j + 1)
  }

  /** Pushing only changes velocities, and keeps the total velocity. */
  lemma {:induction false} PairsFromKeeps(m: RealMath, bs: seq<Bubble>, i: nat, j: nat)
    requires i < j <= |bs|
    ensures var r := PairsFrom(m, bs, i, j);
      && (forall k :: 0 <= k < |bs| ==> SameBody(r[k], bs[k]))
      && Momentum(r) == Momentum(bs)
    decreases |bs| - j
  {
    if j < |bs| {
      var p := Push(m, bs[i], bs[j]);
      var next := bs[i := p.0][j := p.1];
      MomentumUpdate(bs, i, p.0);
      MomentumUpdate(bs[i := p.0], j, p.1);
      PairsFromKeeps(m, next, i, j + 1);
    }
  }

  /** The outer loop of `checkCollisions` from bubble `i` on: the walls for
      bubble `i`, then its pairs with every later bubble. */
  function CollideFrom(m: RealMath, o: Options, bs: seq<Bubble>, i: nat): (r: seq<Bubble>)
    requires i <= |bs|
    ensures |r| == |bs|
    decreases |bs| - i
  {
    if i == |bs| then bs
    else CollideFrom(m, o, PairsFrom(m, bs[i := Walls(o, bs[i])], i, i + 1), i + 1)
  }

  /** `checkCollisions()` on the bubbles `bs`. */
  function AfterCollisions(m: RealMath, o: Options, bs: seq<Bubble>): (r: seq<Bubble>)
    ensures |r| == |bs|
  {
    CollideFrom(m, o, bs, 0)
  }

  lemma {:induction false} CollideFromPlaces(m: RealMath, o: Options, bs: seq<Bubble>, i: nat)
    requires i <= |bs|
    ensures var r := CollideFrom(m, o, bs, i);
      forall k :: 0 <= k < |bs| ==>
        && r[k].emotion == bs[k].emotion && r[k].size == bs[k].size && r[k].shape == bs[k].shape
        && (k < i ==> r[k].x == bs[k].x && r[k].y == bs[k].y)
        && (i <= k ==> r[k].x == Walls(o, bs[k]).x && r[k].y == Walls(o, bs[k]).y)
    decreases |bs| - i
  {
    if i < |bs| {
      var walled := bs[i := Walls(o, bs[i])];
      var next := PairsFrom(m, walled, i, i + 1);
      PairsFromKeeps(m, walled, i, i + 1);
      CollideFromPlaces(m, o, next, i + 1);
      forall k | i + 1 <= k < |bs|
        ensures Walls(o, next[k]).x == Walls(o, bs[k]).x && Walls(o, next[k]).y == Walls(o, bs[k]).y
      {
        WallsPlacement(o, next[k], bs[k]);
      }
    }
  }

  /** After `checkCollisions()` every bubble keeps its label, size and
      outline and sits where its own wall checks put it; a bubble that fits
      ends inside the walls. */
  lemma {:induction false} AfterCollisionsPlaces(m: RealMath, o: Options, bs: seq<Bubble>)
    ensures var r := AfterCollisions(m, o, bs);
      forall k :: 0 <= k < |bs| ==>
        && r[k].emotion == bs[k].emotion && r[k].size == bs[k].size && r[k].shape == bs[k].shape
        && r[k].x == Walls(o, bs[k]).x && r[k].y == Walls(o, bs[k]).y
        && (Fits(o, bs[k].size) ==> InsideWalls(o, r[k]))
  {
    CollideFromPlaces(m, o, bs, 0);
  }

  lemma {:induction false} CollideFromMomentum(m: RealMath, o: Options, bs: seq<Bubble>, i: nat)
    requires i <= |bs|
    requires forall k :: i <= k < |bs| ==> InsideWalls(o, bs[k])
    ensures Momentum(CollideFrom(m, o, bs, i)) == Momentum(bs)
    decreases |bs| - i
  {
    if i < |bs| {
      assert bs[i := Walls(o, bs[i])] == bs;
      var next := PairsFrom(m, bs, i, i + 1);
      PairsFromKeeps(m, bs, i, i + 1);
      assert forall k :: i + 1 <= k < |bs| ==> SameBody(next[k], bs[k]);
      CollideFromMomentum(m, o, next, i + 1);
    }
  }

  /** While no bubble touches a wall, `checkCollisions()` only trades
      velocity between bubbles: the total velocity is kept. */
  lemma {:induction false} AfterCollisionsMomentum(m: RealMath, o: Options, bs: seq<Bubble>)
    requires forall k :: 0 <= k < |bs| ==> InsideWalls(o, bs[k])
    ensures Momentum(AfterCollisions(m, o, bs)) == Momentum(bs)
  {
    CollideFromMomentum(m, o, bs, 0);
  }

  // ---------------------------------------------------------------------
  // generateBubbleShape

  /** Number of vertices of a bubble outline. */
  const OutlinePoints: nat := 24

  /** Vertex `i` of an outline of size `size` whose radius jitter is drawn
      as `u`: at angle `2*PI*i/OutlinePoints`, at the jittered half-size
      radius from the box centre. */
  function OutlineVertex(m: RealMath, size: real, u: real, i: nat): Point
    requires 0.0 <= u < 1.0
  {
    var angle := ((i as real) * 2.0 * PI) / (OutlinePoints as real);
    var radius := JitteredRadius(size / 2.0, u);
    Point(radius * Cos(m, angle) + size / 2.0, radius * Sin(m, angle) + size / 2.0)
  }

  /** The outline drawn for a bubble of size `size` from draw `c` on: vertex
      `i` uses draw `c + i`. */
  function BubbleShape(m: RealMath, size: real, rand: Random, c: nat): (shape: seq<Point>)
    requires UnitStream(rand)
    ensures |shape| == OutlinePoints
  {
    seq(OutlinePoints, i requires 0 <= i < OutlinePoints => OutlineVertex(m, size, rand(c + i), i))
  }

  /** `generateBubbleShape(size)`, as the list of polygon vertices in the
      bubble's own box: `OutlinePoints` points at evenly spaced angles
      around the box centre `(size/2, size/2)`, each at the half-size
      radius jittered by a factor in `[0.95, 1.05)`. Draws `OutlinePoints`
      numbers from `rand`, starting at `c`. */
  method GenerateBubbleShape(m: RealMath, size: real, rand: Random, c: nat) returns (shape: seq<Point>, next: nat)
    requires Lawful(m) && UnitStream(rand)
    ensures |shape| == OutlinePoints && next == c + OutlinePoints
    ensures shape == BubbleShape(m, size, rand, c)
    ensures 0.0 <= size ==>
              forall k :: 0 <= k < |shape| ==>
                0.95 * (size / 2.0) <= Dist(m, Point(size / 2.0, size / 2.0), shape[k]) <= 1.05 * (size / 2.0)
    ensures 0.0 < size ==>
              forall k :: 0 <= k < |shape| ==> Dist(m, Point(size / 2.0, size / 2.0), shape[k]) < 1.05 * (size / 2.0)
  {
    var points := [];
    var numPoints := OutlinePoints;
    var baseRadius := size / 2.0;
    var i := 0;
    while i < numPoints
      invariant 0 <= i <= numPoints
      invariant |points| == i
      invariant forall k :: 0 <= k < i ==> RingVertex(m, size, points[k])
      invariant forall k :: 0 <= k < i ==> points[k] == OutlineVertex(m, size, rand(c + k), k)
    {
      var angle := ((i as real) * 2.0 * PI) / (numPoints as real);
      var radius := JitteredRadius(baseRadius, rand(c + i));
      var x := radius * Cos(m, angle) + baseRadius;
      var y := radius * Sin(m, angle) + baseRadius;
      assert Point(x, y) == OutlineVertex(m, size, rand(c + i), i);
      OutlineVertexInRing(m, size, rand(c + i), i);
      points := points + [Point(x, y)];
      i := i + 1;
    }
    shape, next := points, c + numPoints;
    assert shape == BubbleShape(m, size, rand, c);
  }

  /** `p` lies in the jitter ring of an outline of size `size`, strictly
      inside its outer edge when the size is positive. */
  ghost predicate RingVertex(m: RealMath, size: real, p: Point) {
    && (0.0 <= size ==>
          0.95 * (size / 2.0) <= Dist(m, Point(size / 2.0, size / 2.0), p) <= 1.05 * (size / 2.0))
    && (0.0 < size ==> Dist(m, Point(size / 2.0, size / 2.0), p) < 1.05 * (size / 2.0))
  }

  /** Every outline vertex lies in the jitter ring. */
  lemma OutlineVertexInRing(m: RealMath, size: real, u: real, i: nat)
    requires Lawful(m) && 0.0 <= u < 1.0
    ensures RingVertex(m, size, OutlineVertex(m, size, u, i))
  {
    var angle := ((i as real) * 2.0 * PI) / (OutlinePoints as real);
    var radius := JitteredRadius(size / 2.0, u);
    assert OutlineVertex(m, size, u, i) == Point(radius * Cos(m, angle) + size / 2.0, radius * Sin(m, angle) + size / 2.0);
    RingAt(m, size, radius, angle);
  }

  /** A point at a radius inside the jitter ring from the box centre lies
      in that ring. */
  lemma RingAt(m: RealMath, size: real, radius: real, angle: real)
    requires Lawful(m)
    requires 0.0 <= size ==> 0.95 * (size / 2.0) <= radius <= 1.05 * (size / 2.0)
    requires 0.0 < size ==> radius < 1.05 * (size / 2.0)
    ensures RingVertex(m, size, Point(radius * Cos(m, angle) + size / 2.0, radius * Sin(m, angle) + size / 2.0))
  {
    if 0.0 <= size {
      var centre := Point(size / 2.0, size / 2.0);
      PolarDistance(m, centre, radius, angle);
      assert Point(radius * Cos(m, angle) + size / 2.0, radius * Sin(m, angle) + size / 2.0)
          == Point(centre.x + radius * Cos(m, angle), centre.y + radius * Sin(m, angle));
    }
  }

  /** The radius of one outline vertex: the half size `base` jittered by
      a factor in `[0.95, 1.05)` drawn from `u`. */
  function JitteredRadius(base: real, u: real): (r: real)
    requires 0.0 <= u < 1.0
    ensures 0.0 <= base ==> 0.95 * base <= r <= 1.05 * base
    ensures 0.0 < base ==> r < 1.05 * base
  {
    var f := 0.95 + u * 0.1;
    assert 0.95 <= f < 1.05;
    if base < 0.0 then base * f
    else
      MulMonotone(0.95, f, base);
      MulMonotone(f, 1.05, base);
      if base == 0.0 then base * f
      else
        MulStrict(f, 1.05, base);
        base * f
  }

  // ---------------------------------------------------------------------
  // updatePositions

  /** One animation step's move: every bubble advances by its velocity. */
  function Drift(b: Bubble): (d: Bubble)
    ensures d.(x := b.x, y := b.y) == b
    ensures d.x - b.x == b.vx && d.y - b.y == b.vy
  {
    b.(x := b.x + b.vx, y := b.y + b.vy)
  }

  function Drifted(bs: seq<Bubble>): (r: seq<Bubble>)
    ensures |r| == |bs|
    ensures forall k :: 0 <= k < |bs| ==> r[k] == Drift(bs[k])
  {
    seq(|bs|, k requires 0 <= k < |bs| => Drift(bs[k]))
  }

  /** `updatePositions()` on the bubbles `bs`: drift, then `checkCollisions()`. */
  function Step(m: RealMath, o: Options, bs: seq<Bubble>): (r: seq<Bubble>)
    ensures |r| == |bs|
  {
    AfterCollisions(m, o, Drifted(bs))
  }

  /** An animation step keeps every bubble's label, size and outline, moves
      it to where its drift and its own wall checks take it, and leaves every
      bubble that fits between the walls inside them. */
  lemma {:induction false} StepPlaces(m: RealMath, o: Options, bs: seq<Bubble>)
    ensures var r := Step(m, o, bs);
      forall k :: 0 <= k < |bs| ==>
        && r[k].emotion == bs[k].emotion && r[k].size == bs[k].size && r[k].shape == bs[k].shape
        && r[k].x == Walls(o, Drift(bs[k])).x && r[k].y == Walls(o, Drift(bs[k])).y
        && (Fits(o, bs[k].size) ==> InsideWalls(o, r[k]))
  {
    AfterCollisionsPlaces(m, o, Drifted(bs));
  }

  /** While the drifted bubbles stay clear of the walls, a step keeps the
      total velocity. */
  lemma {:induction false} StepMomentum(m: RealMath, o: Options, bs: seq<Bubble>)
    requires forall k :: 0 <= k < |bs| ==> InsideWalls(o, Drift(bs[k]))
    ensures Momentum(Step(m, o, bs)) == Momentum(bs)
  {
    AfterCollisionsMomentum(m, o, Drifted(bs));
    DriftedMomentum(bs);
  }

  /** Drifting changes positions only, so it keeps the total velocity. */
  lemma {:induction false} DriftedMomentum(bs: seq<Bubble>)
    ensures Momentum(Drifted(bs)) == Momentum(bs)
  {
    if bs != [] {
      assert Drifted(bs)[1..] == Drifted(bs[1..]);
      DriftedMomentum(bs[1..]);
    }
  }

  /** The bubble carries a full outline, every vertex within the jitter
      ring around the centre of its box. */
  ghost predicate Outlined(m: RealMath, b: Bubble) {
    && |b.shape| == OutlinePoints
    && (0.0 <= b.size ==>
          forall q :: 0 <= q < |b.shape| ==>
            0.95 * (b.size / 2.0) <= Dist(m, Point(b.size / 2.0, b.size / 2.0), b.shape[q]) <= 1.05 * (b.size / 2.0))
  }

  /** The bubbles `sized`, bubble `k` given the outline drawn from
      `c + OutlinePoints * k`. */
  function Shaped(m: RealMath, sized: seq<Bubble>, rand: Random, c: nat): (shaped: seq<Bubble>)
    requires UnitStream(rand)
    ensures |shaped| == |sized|
  {
    seq(|sized|, k requires 0 <= k < |sized| => sized[k].(shape := BubbleShape(m, sized[k].size, rand, c + OutlinePoints * k)))
  }

  /** The `map` of `generateBubbles`: each bubble is given an outline, bubble
      `k` drawing from `c + OutlinePoints * k`. */
  method GiveShapes(m: RealMath, sized: seq<Bubble>, rand: Random, c: nat) returns (shaped: seq<Bubble>, next: nat)
    requires Lawful(m) && UnitStream(rand)
    ensures |shaped| == |sized|
    ensures next == c + OutlinePoints * |sized|
    ensures forall k :: 0 <= k < |sized| ==> shaped[k] == sized[k].(shape := shaped[k].shape) && Outlined(m, shaped[k])
    ensures forall k :: 0 <= k < |sized| ==> shaped[k].shape == BubbleShape(m, sized[k].size, rand, c + OutlinePoints * k)
    ensures shaped == Shaped(m, sized, rand, c)
  {
    shaped, next := [], c;
    var k := 0;
    while k < |sized|
      invariant 0 <= k <= |sized|
      invariant next == c + OutlinePoints * k
      invariant |shaped| == k
      invariant forall q :: 0 <= q < k ==> shaped[q] == sized[q].(shape := shaped[q].shape) && Outlined(m, shaped[q])
      invariant forall q :: 0 <= q < k ==> shaped[q].shape == BubbleShape(m, sized[q].size, rand, c + OutlinePoints * q)
    {
      var shape;
      shape, next := GenerateBubbleShape(m, sized[k].size, rand, next);
      var b := sized[k].(shape := shape);
      assert Outlined(m, b);
      ghost var before := shaped;
      shaped := shaped + [b];
      assert forall q :: 0 <= q < k ==> shaped[q] == before[q];
      k := k + 1;
    }
    ShapedByBubble(m, sized, rand, c, shaped);
  }

  /** A layout that agrees with `Shaped` bubble by bubble is `Shaped`. */
  lemma ShapedByBubble(m: RealMath, sized: seq<Bubble>, rand: Random, c: nat, shaped: seq<Bubble>)
    requires UnitStream(rand) && |shaped| == |sized|
    requires forall k :: 0 <= k < |sized| ==> shaped[k] == sized[k].(shape := shaped[k].shape)
    requires forall k :: 0 <= k < |sized| ==> shaped[k].shape == BubbleShape(m, sized[k].size, rand, c + OutlinePoints * k)
    ensures shaped == Shaped(m, sized, rand, c)
  {
    var s := Shaped(m, sized, rand, c);
    forall k | 0 <= k < |sized|
      ensures shaped[k] == s[k]
    {
      assert s[k] == sized[k].(shape := BubbleShape(m, sized[k].size, rand, c + OutlinePoints * k));
    }
  }

  /** The inner loop of `checkCollisions()` for bubble `i`: a push against
      every later bubble. */
  method PushLater(m: RealMath, bs: seq<Bubble>, i: nat) returns (r: seq<Bubble>)
    requires i < |bs|
    ensures r == PairsFrom(m, bs, i, i + 1)
  {
    r := bs;
    var j := i + 1;
    while j < |r|
      invariant i < j <= |r| == |bs|
      invariant PairsFrom(m, r, i, j) == PairsFrom(m, bs, i, i + 1)
    {
      var p := Push(m, r[i], r[j]);
      r := r[i := p.0][j := p.1];
      j := j + 1;
    }
  }

  /** `checkCollisions()` on the bubbles `bs`: for each bubble in turn, the
      four wall checks, then the pushes against the later bubbles. */
  method ResolveCollisions(m: RealMath, o: Options, bs: seq<Bubble>) returns (r: seq<Bubble>)
    ensures r == AfterCollisions(m, o, bs)
  {
    r := bs;
    var i := 0;
    while i < |r|
      invariant 0 <= i <= |r| == |bs|
      invariant CollideFrom(m, o, r, i) == AfterCollisions(m, o, bs)
    {
      var a := Walls(o, r[i]);
      r := PushLater(m, r[i := a], i);
      i := i + 1;
    }
  }

  // ---------------------------------------------------------------------
  // The widget

  /** The widget object: its options, the bubbles of the current layout and
      the host functions it calls; `drawn` counts the `Math.random()` draws
      made so far. */
  class DynamicBubbleChart {
    const options: Options
    const math: RealMath
    const rand: Random
    var drawn: nat
    var bubbles: seq<Bubble>

    constructor(requested: Options, scaleFactor: real, math: RealMath, rand: Random)
      ensures options == Configure(requested, scaleFactor)
      ensures this.math == math && this.rand == rand
      ensures bubbles == [] && drawn == 0
    {
      this.options := Configure(requested, scaleFactor);
      this.math := math;
      this.rand := rand;
      this.drawn := 0;
      this.bubbles := [];
    }

    /** `generateBubbles(data)`: the sized and placed bubbles of
        `calculateSizes`, each given its outline; the `map` of
        `calculateSizes` draws all its numbers before the first outline. */
    method GenerateBubbles(data: seq<Entry>) returns (r: seq<Bubble>)
      requires Lawful(math) && UnitStream(rand)
      requires |data| > 0 ==> TotalValue(data) != 0.0
      modifies this
      ensures r == bubbles
      ensures drawn == old(drawn) + 4 * |data| + OutlinePoints * |data|
      ensures |bubbles| == |data|
      ensures forall k :: 0 <= k < |data| ==>
                && bubbles[k] == CalculateSizes(math, options, data, rand, old(drawn))[k].(shape := bubbles[k].shape)
                && Outlined(math, bubbles[k])
      ensures bubbles == Shaped(math, CalculateSizes(math, options, data, rand, old(drawn)), rand, old(drawn) + 4 * |data|)
    {
      var sized := CalculateSizes(math, options, data, rand, drawn);
      var shaped, next := GiveShapes(math, sized, rand, drawn + 4 * |data|);
      bubbles, drawn := shaped, next;
      r := bubbles;
    }

    /** `checkCollisions()` on the current layout. */
    method CheckCollisions()
      modifies this
      ensures bubbles == AfterCollisions(math, options, old(bubbles))
      ensures drawn == old(drawn)
    {
      bubbles := ResolveCollisions(math, options, bubbles);
    }

    /** `updatePositions()`: every bubble drifts by its velocity, then the
        collisions are resolved. */
    method UpdatePositions()
      modifies this
      ensures bubbles == Step(math, options, old(bubbles))
      ensures drawn == old(drawn)
    {
      var moved := bubbles;
      var k := 0;
      while k < |moved|
        invariant 0 <= k <= |moved| == |bubbles|
        invariant forall q :: 0 <= q < k ==> moved[q] == Drift(bubbles[q])
        invariant forall q :: k <= q < |moved| ==> moved[q] == bubbles[q]
      {
        moved := moved[k := Drift(moved[k])];
        k := k + 1;
      }
      assert moved == Drifted(bubbles);
      bubbles := ResolveCollisions(math, options, moved);
    }
  }
}
