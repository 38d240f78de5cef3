/** The word cloud widget: font sizes interpolated from the values, words
    seeded at random around the centre, overlapping word boxes pushed apart
    in up to fifty relaxation passes, and words clamped into the padded
    canvas. */
module WordCloud {
  import opened Geometry

  /** One `{name, value}` item of the data. */
  datatype Item = Item(name: string, value: real)

  /** A laid-out word. `color` is `None` where the palette index is
      `undefined` (an empty palette). */
  datatype Word = Word(
    text: string,
    value: real,
    fontSize: real,
    x: real,
    y: real,
    color: Option<string>,
    vx: real,
    vy: real,
    angle: real,
    rotationSpeed: real)

  /** An axis-aligned bounding box in canvas coordinates (y grows downwards). */
  datatype Box = Box(left: real, right: real, top: real, bottom: real)

  /** The canvas the words are laid out on, and the host's
      `measureText(text).width` for a given font size. */
  datatype Canvas = Canvas(width: real, height: real, measure: (string, real) -> real)

  // The host's text measurement, applied.
  function TextWidth(c: Canvas, text: string, fontSize: real): real {
    c.measure(text, fontSize)
  }

  /** Measured widths are never negative. */
  ghost predicate Measuring(c: Canvas) {
    forall t, f :: 0.0 <= TextWidth(c, t, f)
  }

  /** The default palette of the constructor. */
  const DefaultPalette: seq<string> :=
    ["#67C23A", "#409EFF", "#F56C6C", "#E6A23C", "#909399",
     "#7C4DFF", "#FF9800", "#00BCD4", "#8BC34A", "#FF5722"]

  /** The number of relaxation passes `resolveCollisions` runs at most. */
  const Iterations: nat := 50

  /** The margin `keepInBounds` keeps from every edge. */
  const Margin: real := 10.0

  // ---------------------------------------------------------------------
  // Font sizes

  /** `maxValue`: the largest value, and never below its starting value 0. */
  function MaxValue(data: seq<Item>): (r: real)
    ensures 0.0 <= r
    ensures forall k :: 0 <= k < |data| ==> data[k].value <= r
    ensures r == 0.0 || exists k :: 0 <= k < |data| && data[k].value == r
  {
    if data == [] then 0.0
    else
      var before := MaxValue(data[..|data| - 1]);
      assert forall k :: 0 <= k < |data| - 1 ==> data[..|data| - 1][k] == data[k];
      Max(before, data[|data| - 1].value)
  }

  /** `minValue`: the smallest value (its starting value `Infinity` never survives a non-empty list). */
  function MinValue(data: seq<Item>): (r: real)
    requires |data| > 0
    ensures forall k :: 0 <= k < |data| ==> r <= data[k].value
    ensures exists k :: 0 <= k < |data| && data[k].value == r
  {
    if |data| == 1 then data[0].value
    else
      var before := MinValue(data[..|data| - 1]);
      assert forall k :: 0 <= k < |data| - 1 ==> data[..|data| - 1][k] == data[k];
      Min(before, data[|data| - 1].value)
  }

  /** `maxValue - minValue || 1`. */
  function Range(data: seq<Item>): (r: real)
    requires |data| > 0
    ensures r != 0.0
  {
    OrDefault(MaxValue(data) - MinValue(data), 1.0)
  }

  /** `16 + (value - minValue) / range * 32`. */
  function FontSize(value: real, minValue: real, range: real): real
    requires range != 0.0
  {
    16.0 + (value - minValue) / range * 32.0
  }

  /** The scan of `processData` for the largest and smallest value. */
  method ValueRange(data: seq<Item>) returns (maxValue: real, minValue: real)
    requires |data| > 0
    ensures maxValue == MaxValue(data) && minValue == MinValue(data)
  {
    maxValue, minValue := 0.0, data[0].value;
    var k := 0;
    while k < |data|
      invariant 0 <= k <= |data|
      invariant maxValue == MaxValue(data[..k])
      invariant minValue == MinValue(data[..if k == 0 then 1 else k])
    {
      maxValue := Max(maxValue, data[k].value);
      minValue := Min(minValue, data[k].value);
      assert data[..k + 1][..k] == data[..k];
      k := k + 1;
    }
    assert data[..|data|] == data;
  }

  /** Every font size lies in `[16, 48]`: the smallest value gets 16, and the
      largest gets 48 when the values are not all equal to it. */
  lemma {:induction false} FontSizeBounds(data: seq<Item>, k: nat)
    requires k < |data|
    ensures var f := FontSize(data[k].value, MinValue(data), Range(data));
      && 16.0 <= f <= 48.0
      && (data[k].value == MinValue(data) ==> f == 16.0)
      && (data[k].value == MaxValue(data) && MinValue(data) < MaxValue(data) ==> f == 48.0)
  {
    Interpolate(data[k].value, MinValue(data), MaxValue(data));
  }

  lemma Interpolate(v: real, lo: real, hi: real)
    requires lo <= v <= hi
    ensures var f := FontSize(v, lo, OrDefault(hi - lo, 1.0));
      && 16.0 <= f <= 48.0
      && (v == lo ==> f == 16.0)
      && (v == hi && lo < hi ==> f == 48.0)
  {
    var range := OrDefault(hi - lo, 1.0);
    if lo < hi {
      var t := (v - lo) / range;
      assert t * range == v - lo;
      if t < 0.0 {
        MulMonotone(t, 0.0, range);
      } else if t > 1.0 {
        MulMonotone(1.0, t, range);
      }
      assert 0.0 <= t <= 1.0;
    }
  }

  /** When every value is the same, every word gets font size 16. */
  lemma {:induction false} EqualValuesSixteen(data: seq<Item>, k: nat)
    requires k < |data|
    requires forall i :: 0 <= i < |data| ==> data[i].value == data[0].value
    ensures FontSize(data[k].value, MinValue(data), Range(data)) == 16.0
  {
    FontSizeBounds(data, k);
  }

  /** `maxValue` starts from 0, so when every value is negative it stays 0, the
      range is `-minValue`, and no word reaches font size 48. */
  lemma {:induction false} NegativeValuesBelowTop(data: seq<Item>, k: nat)
    requires k < |data|
    requires forall i :: 0 <= i < |data| ==> data[i].value < 0.0
    ensures MaxValue(data) == 0.0 && Range(data) == -MinValue(data)
    ensures FontSize(data[k].value, MinValue(data), Range(data)) < 48.0
  {
    var lo := MinValue(data);
    assert lo <= data[k].value < 0.0;
    DivBelowOne(data[k].value - lo, -lo);
  }

  // ---------------------------------------------------------------------
  // Boxes

  /** `getWordBox(word)`: the box of the measured text width and the font
      size, centred on the word's position. */
  function GetWordBox(c: Canvas, w: Word): (b: Box)
    ensures (b.left + b.right) / 2.0 == w.x && (b.top + b.bottom) / 2.0 == w.y
    ensures b.right - b.left == TextWidth(c, w.text, w.fontSize)
    ensures b.bottom - b.top == w.fontSize
  {
    var width := TextWidth(c, w.text, w.fontSize);
    var height := w.fontSize;
    Box(w.x - width / 2.0, w.x + width / 2.0, w.y - height / 2.0, w.y + height / 2.0)
  }

  predicate WellFormed(b: Box) {
    b.left <= b.right && b.top <= b.bottom
  }

  /** A word whose font size is not negative has a well-formed box. */
  lemma WordBoxWellFormed(c: Canvas, w: Word)
    requires Measuring(c)
    requires 0.0 <= w.fontSize
    ensures WellFormed(GetWordBox(c, w))
  {
    assert 0.0 <= TextWidth(c, w.text, w.fontSize);
  }

  /** The point lies in the closed box. */
  predicate InBox(p: Point, b: Box) {
    b.left <= p.x <= b.right && b.top <= p.y <= b.bottom
  }

  /** `checkCollision(boxA, boxB)`: neither box lies strictly to one side of the other. */
  function CheckCollision(a: Box, b: Box): bool {
    !(a.right < b.left || a.left > b.right || a.bottom < b.top || a.top > b.bottom)
  }

  /** Two well-formed boxes collide exactly when they share a point, so boxes
      that only touch collide. */
  lemma CollisionSharesPoint(a: Box, b: Box)
    requires WellFormed(a) && WellFormed(b)
    ensures CheckCollision(a, b) <==> exists p :: InBox(p, a) && InBox(p, b)
  {
    if CheckCollision(a, b) {
      var p := Point(Max(a.left, b.left), Max(a.top, b.top));
      assert InBox(p, a) && InBox(p, b);
    }
  }

  /** The collision test does not depend on the order of the boxes. */
  lemma CollisionSymmetric(a: Box, b: Box)
    ensures CheckCollision(a, b) == CheckCollision(b, a)
  {
  }

  // ---------------------------------------------------------------------
  // keepInBounds

  /** The word's box keeps `Margin` from every edge of the canvas. */
  predicate InCanvas(c: Canvas, w: Word) {
    var width := TextWidth(c, w.text, w.fontSize);
    && Margin <= w.x - width / 2.0 && w.x + width / 2.0 <= c.width - Margin
    && Margin <= w.y - w.fontSize / 2.0 && w.y + w.fontSize / 2.0 <= c.height - Margin
  }

  /** The word's box is small enough to keep `Margin` from every edge. */
  predicate FitsCanvas(c: Canvas, w: Word) {
    TextWidth(c, w.text, w.fontSize) + 2.0 * Margin <= c.width && w.fontSize + 2.0 * Margin <= c.height
  }

  /** `keepInBounds(word)`: a box past the left (top) margin is put against
      it; otherwise a box past the right (bottom) margin is put against that. */
  function KeepInBounds(c: Canvas, w: Word): (r: Word)
    ensures r == w.(x := r.x, y := r.y)
    ensures InCanvas(c, w) ==> r == w
    ensures FitsCanvas(c, w) ==> InCanvas(c, r)
  {
    var width := TextWidth(c, w.text, w.fontSize);
    var height := w.fontSize;
    var x :=
      if w.x - width / 2.0 < Margin then width / 2.0 + Margin
      else if w.x + width / 2.0 > c.width - Margin then c.width - width / 2.0 - Margin
      else w.x;
    var y :=
      if w.y - height / 2.0 < Margin then height / 2.0 + Margin
      else if w.y + height / 2.0 > c.height - Margin then c.height - height / 2.0 - Margin
      else w.y;
    w.(x := x, y := y)
  }

  /** Clamping a word that fits twice is clamping it once. */
  lemma KeepInBoundsIdempotent(c: Canvas, w: Word)
    requires FitsCanvas(c, w)
    ensures KeepInBounds(c, KeepInBounds(c, w)) == KeepInBounds(c, w)
  {
  }

  /** A word wider than the padded canvas is not kept still: each clamp
      moves it to the other side. */
  lemma KeepInBoundsOscillates(c: Canvas, w: Word)
    requires c.width == 20.0
    requires TextWidth(c, w.text, w.fontSize) == 10.0
    requires w.x == 0.0
    ensures KeepInBounds(c, w).x == 15.0
    ensures KeepInBounds(c, KeepInBounds(c, w)).x == 5.0
    ensures KeepInBounds(c, KeepInBounds(c, KeepInBounds(c, w))).x == 15.0
  {
  }

  // ---------------------------------------------------------------------
  // Seeding

  /** `colorPalette[index % colorPalette.length]`; `undefined` for an empty palette. */
  function PaletteColor(palette: seq<string>, index: nat): (r: Option<string>)
    ensures |palette| == 0 <==> r.None?
    ensures |palette| > 0 ==> r == Some(palette[index % |palette|])
  {
    if |palette| == 0 then None else Some(palette[index % |palette|])
  }

  /** Word `index` of `processData`, drawing six numbers from `c`: the angle
      and radius of its start around the centre, then its velocity, angle
      and rotation speed in the order of the object literal. */
  function SeedWord(m: RealMath, c: Canvas, item: Item, fontSize: real, color: Option<string>, rand: Random, cur: nat): (w: Word)
    ensures w.text == item.name && w.value == item.value && w.fontSize == fontSize && w.color == color
  {
    var angle := rand(cur) * PI * 2.0;
    var radius := rand(cur + 1) * Min(c.width, c.height) / 3.0;
    Word(
      item.name,
      item.value,
      fontSize,
      c.width / 2.0 + Cos(m, angle) * radius,
      c.height / 2.0 + Sin(m, angle) * radius,
      color,
      (rand(cur + 2) - 0.5) * 0.5,
      (rand(cur + 3) - 0.5) * 0.5,
      rand(cur + 4) * 360.0,
      (rand(cur + 5) - 0.5) * 0.5)
  }

  /** A seeded word starts within a third of the smaller canvas side from
      the centre, with both velocity components and its rotation speed in
      `[-0.25, 0.25)` and its angle in `[0, 360)`. */
  lemma SeedWordPlacement(m: RealMath, c: Canvas, item: Item, fontSize: real, color: Option<string>, rand: Random, cur: nat)
    requires Lawful(m) && UnitStream(rand)
    requires 0.0 <= c.width && 0.0 <= c.height
    ensures var w := SeedWord(m, c, item, fontSize, color, rand, cur);
      && Dist(m, Point(c.width / 2.0, c.height / 2.0), Point(w.x, w.y)) <= Min(c.width, c.height) / 3.0
      && -0.25 <= w.vx < 0.25 && -0.25 <= w.vy < 0.25 && -0.25 <= w.rotationSpeed < 0.25
      && 0.0 <= w.angle < 360.0
  {
    var w := SeedWord(m, c, item, fontSize, color, rand, cur);
    var side := Min(c.width, c.height);
    var radius := rand(cur + 1) * side / 3.0;
    MulMonotone(rand(cur + 1), 1.0, side);
    MulMonotone(0.0, rand(cur + 1), side);
    assert 0.0 <= radius <= side / 3.0;
    var centre := Point(c.width / 2.0, c.height / 2.0);
    var a := rand(cur) * PI * 2.0;
    assert Point(w.x, w.y) == Point(centre.x + Cos(m, a) * radius, centre.y + Sin(m, a) * radius);
    WithinRadius(m, centre, radius, side / 3.0, a);
  }

  /** A point placed at angle `a` and radius `rho` from `centre`, with the
      factors in the order of `processData`, lies within `bound` of it. */
  lemma WithinRadius(m: RealMath, centre: Point, rho: real, bound: real, a: real)
    requires Lawful(m)
    requires 0.0 <= rho <= bound
    ensures Dist(m, centre, Point(centre.x + Cos(m, a) * rho, centre.y + Sin(m, a) * rho)) <= bound
  {
    PolarDistance(m, centre, rho, a);
    assert Point(centre.x + Cos(m, a) * rho, centre.y + Sin(m, a) * rho)
        == Point(centre.x + rho * Cos(m, a), centre.y + rho * Sin(m, a));
  }

  /** Word `k` of `processData` for the items `data` scaled between
      `minValue` and `minValue + range`: item `k`'s font size, colour `k`
      and the six draws from `cur + 6k`. */
  function SeedAt(m: RealMath, c: Canvas, data: seq<Item>, minValue: real, range: real,
                  palette: seq<string>, rand: Random, cur: nat, k: nat): Word
    requires range != 0.0
    requires k < |data|
  {
    SeedWord(m, c, data[k], FontSize(data[k].value, minValue, range), PaletteColor(palette, k), rand, cur + 6 * k)
  }

  /** The words `processData` creates for the first `n` items of `data`. */
  function Seeded(m: RealMath, c: Canvas, data: seq<Item>, minValue: real, range: real,
                  palette: seq<string>, rand: Random, cur: nat, n: nat): (ws: seq<Word>)
    requires range != 0.0
    requires n <= |data|
    ensures |ws| == n
  {
    if n == 0 then []
    else Seeded(m, c, data, minValue, range, palette, rand, cur, n - 1) + [SeedAt(m, c, data, minValue, range, palette, rand, cur, n - 1)]
  }

  /** Word `k` of `Seeded` is item `k`'s word. */
  lemma {:induction false} SeededAt(m: RealMath, c: Canvas, data: seq<Item>, minValue: real, range: real,
                                    palette: seq<string>, rand: Random, cur: nat, n: nat, k: nat)
    requires range != 0.0
    requires k < n <= |data|
    ensures Seeded(m, c, data, minValue, range, palette, rand, cur, n)[k] == SeedAt(m, c, data, minValue, range, palette, rand, cur, k)
  {
    var prefix := Seeded(m, c, data, minValue, range, palette, rand, cur, n - 1);
    var last := SeedAt(m, c, data, minValue, range, palette, rand, cur, n - 1);
    assert Seeded(m, c, data, minValue, range, palette, rand, cur, n) == prefix + [last];
    if k < n - 1 {
      SeededAt(m, c, data, minValue, range, palette, rand, cur, n - 1, k);
      assert (prefix + [last])[k] == prefix[k];
    } else {
      assert (prefix + [last])[k] == last;
    }
  }

  /** Every seeded word carries its item's name and value and a font size
      in `[16, 48]`. */
  lemma {:induction false} SeededFontSize(m: RealMath, c: Canvas, data: seq<Item>, palette: seq<string>,
                                          rand: Random, cur: nat, k: nat)
    requires k < |data|
    ensures var w := Seeded(m, c, data, MinValue(data), Range(data), palette, rand, cur, |data|)[k];
      w.text == data[k].name && w.value == data[k].value && 16.0 <= w.fontSize <= 48.0
  {
    SeededAt(m, c, data, MinValue(data), Range(data), palette, rand, cur, |data|, k);
    FontSizeBounds(data, k);
  }

  /** The second loop of `processData`: word `k`, scaled between
      `minValue` and `minValue + range`, draws from `cur + 6k`. */
  method SeedLoop(m: RealMath, c: Canvas, data: seq<Item>, minValue: real, range: real,
                  palette: seq<string>, rand: Random, cur: nat)
    returns (words: seq<Word>, next: nat)
    requires range != 0.0
    ensures words == Seeded(m, c, data, minValue, range, palette, rand, cur, |data|)
    ensures next == cur + 6 * |data|
  {
    words, next := [], cur;
    var index := 0;
    while index < |data|
      invariant 0 <= index <= |data|
      invariant words == Seeded(m, c, data, minValue, range, palette, rand, cur, index)
      invariant next == cur + 6 * index
    {
      words := words + [SeedAt(m, c, data, minValue, range, palette, rand, cur, index)];
      next := next + 6;
      index := index + 1;
    }
  }

  /** The body of `processData` on non-empty data: the scan for the value
      range, then the words. */
  method SeedWords(m: RealMath, c: Canvas, data: seq<Item>, palette: seq<string>, rand: Random, cur: nat)
    returns (words: seq<Word>, next: nat)
    requires |data| > 0
    ensures words == Seeded(m, c, data, MinValue(data), Range(data), palette, rand, cur, |data|)
    ensures next == cur + 6 * |data|
  {
    var maxValue, minValue := ValueRange(data);
    var range := OrDefault(maxValue - minValue, 1.0);
    assert range == Range(data);
    words, next := SeedLoop(m, c, data, minValue, range, palette, rand, cur);
  }

  // ---------------------------------------------------------------------
  // resolveCollisions

  /** The move of a colliding pair before clamping: both words shift by 2
      along the line between their centres, in opposite directions (a
      distance of 0 counts as 1). */
  function Separate(m: RealMath, a: Word, b: Word): (r: (Word, Word))
    ensures r.0 == a.(x := r.0.x, y := r.0.y) && r.1 == b.(x := r.1.x, y := r.1.y)
    ensures r.0.x + r.1.x == a.x + b.x && r.0.y + r.1.y == a.y + b.y
  {
    var dx, dy := b.x - a.x, b.y - a.y;
    var distance := OrDefault(Sqrt(m, Square(dx) + Square(dy)), 1.0);
    var moveX, moveY := dx / distance * 2.0, dy / distance * 2.0;
    (a.(x := a.x - moveX, y := a.y - moveY), b.(x := b.x + moveX, y := b.y + moveY))
  }

  /** Before clamping, the centres of a pair at different points end up 4
      further apart, on the same line. */
  lemma SeparateDistance(m: RealMath, a: Word, b: Word)
    requires Lawful(m)
    requires a.x != b.x || a.y != b.y
    ensures var r := Separate(m, a, b);
      Dist(m, Center(r.0), Center(r.1)) == Dist(m, Center(a), Center(b)) + 4.0
  {
    var dx, dy := b.x - a.x, b.y - a.y;
    var d := Sqrt(m, Square(dx) + Square(dy));
    SpreadNorm(m, dx, dy);
    var ex, ey := dx + 2.0 * (dx / d * 2.0), dy + 2.0 * (dy / d * 2.0);
    var r := Separate(m, a, b);
    assert OrDefault(d, 1.0) == d;
    assert r.0.x - r.1.x == -ex && r.0.y - r.1.y == -ey;
    SquareNegated(ex);
    SquareNegated(ey);
    SquareNegated(dx);
    SquareNegated(dy);
    assert a.x - b.x == -dx && a.y - b.y == -dy;
  }

  lemma SquareNegated(v: real)
    ensures Square(-v) == Square(v)
  {
  }

  /** Spreading a non-zero vector `(dx, dy)` of length `d` by `2 / d` of each
      component at both ends makes it 4 longer. */
  lemma SpreadNorm(m: RealMath, dx: real, dy: real)
    requires Lawful(m)
    requires dx != 0.0 || dy != 0.0
    ensures var d := Sqrt(m, Square(dx) + Square(dy));
      && 0.0 < d
      && var ex, ey := dx + 2.0 * (dx / d * 2.0), dy + 2.0 * (dy / d * 2.0);
         Sqrt(m, Square(ex) + Square(ey)) == d + 4.0
  {
    var d := Sqrt(m, Square(dx) + Square(dy));
    PositiveNorm(m, dx, dy);
    var k := (d + 4.0) / d;
    SpreadRatio(d);
    var ex, ey := dx + 2.0 * (dx / d * 2.0), dy + 2.0 * (dy / d * 2.0);
    SpreadStep(dx, d);
    SpreadStep(dy, d);
    assert ex == dx * k && ey == dy * k;
    assert Square(ex) + Square(ey) == Square(dx * k) + Square(dy * k);
    ScaledNorm(m, dx, dy, k);
    assert k * d == d + 4.0;
  }

  /** The ratio of the spread: `k = (d + 4) / d` is positive and `k * d = d + 4`. */
  lemma SpreadRatio(d: real)
    requires 0.0 < d
    ensures 0.0 <= (d + 4.0) / d && (d + 4.0) / d * d == d + 4.0
  {
    var k := (d + 4.0) / d;
    assert k * d == d + 4.0;
    if k < 0.0 {
      MulMonotone(k, 0.0, d);
    }
  }

  /** Moving both ends of a component `v` of a vector of length `d` by
      `v / d * 2` scales it by `(d + 4) / d`. */
  lemma SpreadStep(v: real, d: real)
    requires 0.0 < d
    ensures v + 2.0 * (v / d * 2.0) == v * ((d + 4.0) / d)
  {
    var q := v / d;
    assert q * d == v;
    var k := (d + 4.0) / d;
    assert k * d == d + 4.0;
    assert (v + 4.0 * q) * d == v * d + 4.0 * v;
    assert (v * k) * d == v * (k * d);
  }

  /** The length of a non-zero vector is positive. */
  lemma PositiveNorm(m: RealMath, dx: real, dy: real)
    requires Lawful(m)
    requires dx != 0.0 || dy != 0.0
    ensures 0.0 < Sqrt(m, Square(dx) + Square(dy))
  {
    SquarePositive(dx);
    SquarePositive(dy);
    SqrtPositive(m, Square(dx) + Square(dy));
  }

  lemma SqrtPositive(m: RealMath, v: real)
    requires Lawful(m)
    requires 0.0 < v
    ensures 0.0 < Sqrt(m, v)
  {
    var d := Sqrt(m, v);
    assert SqrtLaw(m, v);
  }

  lemma SquarePositive(v: real)
    ensures 0.0 <= Square(v)
    ensures v != 0.0 ==> 0.0 < Square(v)
  {
    if v > 0.0 {
      SquareStrictlyMonotone(0.0, v);
    } else if v < 0.0 {
      SquareStrictlyMonotone(0.0, -v);
      assert (-v) * (-v) == v * v;
    }
  }

  lemma SquareScaled(v: real, k: real)
    ensures Square(v * k) == (k * k) * Square(v)
  {
  }

  /** Scaling a vector by `k >= 0` scales its length by `k`. */
  lemma ScaledNorm(m: RealMath, dx: real, dy: real, k: real)
    requires Lawful(m)
    requires 0.0 <= k
    ensures Sqrt(m, Square(dx * k) + Square(dy * k)) == k * Sqrt(m, Square(dx) + Square(dy))
  {
    SquarePositive(dx);
    SquarePositive(dy);
    var d := Sqrt(m, Square(dx) + Square(dy));
    assert SqrtLaw(m, Square(dx) + Square(dy));
    SquareScaled(dx, k);
    SquareScaled(dy, k);
    SquareScaled(d, k);
    Distribute(k * k, Square(dx), Square(dy));
    assert Square(d) == Square(dx) + Square(dy);
    assert Square(dx * k) + Square(dy * k) == Square(d * k);
    assert Sqrt(m, Square(dx * k) + Square(dy * k)) == Sqrt(m, Square(d * k));
    MulMonotone(0.0, k, d);
    RootOfSquare(m, d * k);
  }

  lemma RootOfSquare(m: RealMath, r: real)
    requires Lawful(m)
    requires 0.0 <= r
    ensures Sqrt(m, Square(r)) == r
  {
    SqrtOfSquare(m, r);
  }

  lemma Distribute(f: real, a: real, b: real)
    ensures f * a + f * b == f * (a + b)
  {
  }

  /** Two words at the same point are not moved apart at all. */
  lemma SeparateCoincident(m: RealMath, a: Word, b: Word)
    requires Lawful(m)
    requires a.x == b.x && a.y == b.y
    ensures Separate(m, a, b) == (a, b)
  {
    assert SqrtLaw(m, 0.0);
  }

  function Center(w: Word): Point {
    Point(w.x, w.y)
  }

  /** One pair `(a, b)` of a pass: if their boxes collide, both are moved
      apart and clamped; the flag says whether they collided. */
  function PairStep(m: RealMath, c: Canvas, ws: seq<Word>, a: nat, b: nat): (r: (seq<Word>, bool))
    requires a < b < |ws|
    ensures |r.0| == |ws|
    ensures r.1 == CheckCollision(GetWordBox(c, ws[a]), GetWordBox(c, ws[b]))
    ensures !r.1 ==> r.0 == ws
  {
    if CheckCollision(GetWordBox(c, ws[a]), GetWordBox(c, ws[b])) then
      var p := Separate(m, ws[a], ws[b]);
      (ws[a := KeepInBounds(c, p.0)][b := KeepInBounds(c, p.1)], true)
    else
      (ws, false)
  }

  /** The pass from pair `(a, b)` on, in the order of the nested loops,
      with the `moved` flag so far. */
  function PassFrom(m: RealMath, c: Canvas, ws: seq<Word>, a: nat, b: nat, moved: bool): (r: (seq<Word>, bool))
    requires a <= |ws| && (a < |ws| ==> a < b <= |ws|)
    ensures |r.0| == |ws|
    decreases |ws| - a, |ws| - b
  {
    if a == |ws| then (ws, moved)
    else if b == |ws| then PassFrom(m, c, ws, a + 1, a + 2, moved)
    else
      var p := PairStep(m, c, ws, a, b);
      PassFrom(m, c, p.0, a, b + 1, moved || p.1)
  }

  /** One pass of the outer `for` loop over all pairs. */
  function Pass(m: RealMath, c: Canvas, ws: seq<Word>): (r: (seq<Word>, bool))
    ensures |r.0| == |ws|
  {
    PassFrom(m, c, ws, 0, 1, false)
  }

  /** No two words' boxes collide. */
  predicate Untangled(c: Canvas, ws: seq<Word>) {
    forall a, b :: 0 <= a < b < |ws| ==> !CheckCollision(GetWordBox(c, ws[a]), GetWordBox(c, ws[b]))
  }

  /** The pairs from `(a, b)` on, in loop order. */
  predicate PairsQuietFrom(c: Canvas, ws: seq<Word>, a: nat, b: nat) {
    forall p, q :: 0 <= p < q < |ws| && (p > a || (p == a && q >= b)) ==>
      !CheckCollision(GetWordBox(c, ws[p]), GetWordBox(c, ws[q]))
  }

  /** A pass whose flag stays down has changed nothing, and then no pair
      from `(a, b)` on collides; a raised flag stays raised. */
  lemma {:induction false} PassFromQuiet(m: RealMath, c: Canvas, ws: seq<Word>, a: nat, b: nat, moved: bool)
    requires a <= |ws| && (a < |ws| ==> a < b <= |ws|)
    ensures moved ==> PassFrom(m, c, ws, a, b, moved).1
    ensures !PassFrom(m, c, ws, a, b, moved).1 ==>
              PassFrom(m, c, ws, a, b, moved).0 == ws && PairsQuietFrom(c, ws, a, b)
    decreases |ws| - a, |ws| - b
  {
    if a == |ws| {
    } else if b == |ws| {
      PassFromQuiet(m, c, ws, a + 1, a + 2, moved);
    } else {
      var p := PairStep(m, c, ws, a, b);
      PassFromQuiet(m, c, p.0, a, b + 1, moved || p.1);
    }
  }

  /** A pass with no collision leaves the layout as it was, and the layout
      is then untangled; an untangled layout gives such a pass. */
  lemma {:induction false} QuietPass(m: RealMath, c: Canvas, ws: seq<Word>)
    ensures !Pass(m, c, ws).1 <==> Untangled(c, ws)
    ensures !Pass(m, c, ws).1 ==> Pass(m, c, ws).0 == ws
  {
    PassFromQuiet(m, c, ws, 0, 1, false);
    if Untangled(c, ws) {
      UntangledPassFrom(m, c, ws, 0, 1);
    }
  }

  lemma {:induction false} UntangledPassFrom(m: RealMath, c: Canvas, ws: seq<Word>, a: nat, b: nat)
    requires a <= |ws| && (a < |ws| ==> a < b <= |ws|)
    requires Untangled(c, ws)
    ensures PassFrom(m, c, ws, a, b, false) == (ws, false)
    decreases |ws| - a, |ws| - b
  {
    if a == |ws| {
    } else if b == |ws| {
      UntangledPassFrom(m, c, ws, a + 1, a + 2);
    } else {
      UntangledPassFrom(m, c, ws, a, b + 1);
    }
  }

  /** `resolveCollisions()` from pass `i` on: passes run until one moves
      nothing or `Iterations` have run. */
  function Resolve(m: RealMath, c: Canvas, ws: seq<Word>, i: nat): (r: seq<Word>)
    ensures |r| == |ws|
    decreases Iterations - i
  {
    if i >= Iterations then ws
    else
      var p := Pass(m, c, ws);
      if !p.1 then p.0 else Resolve(m, c, p.0, i + 1)
  }

  /** The number of passes `Resolve` runs from pass `i` on. */
  function PassCount(m: RealMath, c: Canvas, ws: seq<Word>, i: nat): (n: nat)
    decreases Iterations - i
  {
    if i >= Iterations then 0
    else
      var p := Pass(m, c, ws);
      if !p.1 then 1 else 1 + PassCount(m, c, p.0, i + 1)
  }

  /** The `moved` flag of the last pass `Resolve` runs from pass `i` on; it
      stays raised when no pass is left to run. */
  function LastMoved(m: RealMath, c: Canvas, ws: seq<Word>, i: nat): bool
    decreases Iterations - i
  {
    if i >= Iterations then true
    else
      var p := Pass(m, c, ws);
      if !p.1 then false else LastMoved(m, c, p.0, i + 1)
  }

  /** When the last pass moved nothing the result is untangled, and when it
      moved something all the remaining passes ran. */
  lemma {:induction false} LastMovedOutcome(m: RealMath, c: Canvas, ws: seq<Word>, i: nat)
    requires i <= Iterations
    ensures !LastMoved(m, c, ws, i) ==> Untangled(c, Resolve(m, c, ws, i))
    ensures LastMoved(m, c, ws, i) ==> PassCount(m, c, ws, i) == Iterations - i
    decreases Iterations - i
  {
    if i < Iterations {
      var p := Pass(m, c, ws);
      QuietPass(m, c, ws);
      if p.1 {
        LastMovedOutcome(m, c, p.0, i + 1);
      }
    }
  }

  /** At most `Iterations` passes run, and when fewer run the last one found
      no collision: the result is untangled. An untangled layout is left as
      it is after a single pass. */
  lemma {:induction false} ResolveOutcome(m: RealMath, c: Canvas, ws: seq<Word>, i: nat)
    requires i <= Iterations
    ensures PassCount(m, c, ws, i) <= Iterations - i
    ensures PassCount(m, c, ws, i) < Iterations - i ==> Untangled(c, Resolve(m, c, ws, i))
    ensures i < Iterations && Untangled(c, ws) ==> Resolve(m, c, ws, i) == ws && PassCount(m, c, ws, i) == 1
    decreases Iterations - i
  {
    if i < Iterations {
      var p := Pass(m, c, ws);
      QuietPass(m, c, ws);
      if p.1 {
        ResolveOutcome(m, c, p.0, i + 1);
      }
    }
  }

  /** Resolving changes nothing but the positions of the words. */
  lemma {:induction false} ResolveKeepsWords(m: RealMath, c: Canvas, ws: seq<Word>, i: nat)
    ensures var r := Resolve(m, c, ws, i);
      forall k :: 0 <= k < |ws| ==> r[k] == ws[k].(x := r[k].x, y := r[k].y)
    decreases Iterations - i
  {
    if i < Iterations {
      var p := Pass(m, c, ws);
      PassFromKeepsWords(m, c, ws, 0, 1, false);
      if p.1 {
        ResolveKeepsWords(m, c, p.0, i + 1);
      }
    }
  }

  lemma {:induction false} PassFromKeepsWords(m: RealMath, c: Canvas, ws: seq<Word>, a: nat, b: nat, moved: bool)
    requires a <= |ws| && (a < |ws| ==> a < b <= |ws|)
    ensures var r := PassFrom(m, c, ws, a, b, moved).0;
      forall k :: 0 <= k < |ws| ==> r[k] == ws[k].(x := r[k].x, y := r[k].y)
    decreases |ws| - a, |ws| - b
  {
    if a == |ws| {
    } else if b == |ws| {
      PassFromKeepsWords(m, c, ws, a + 1, a + 2, moved);
    } else {
      var p := PairStep(m, c, ws, a, b);
      PassFromKeepsWords(m, c, p.0, a, b + 1, moved || p.1);
    }
  }

  /** The body of the inner loop of `resolveCollisions()` for the pair
      `(a, b)`: on a collision both words move apart and are clamped. */
  method TryPair(m: RealMath, c: Canvas, ws: seq<Word>, a: nat, b: nat) returns (r: seq<Word>, hit: bool)
    requires a < b < |ws|
    ensures (r, hit) == PairStep(m, c, ws, a, b)
  {
    r, hit := ws, false;
    var boxA := GetWordBox(c, ws[a]);
    var boxB := GetWordBox(c, ws[b]);
    if CheckCollision(boxA, boxB) {
      var wordA, wordB := ws[a], ws[b];
      var dx, dy := wordB.x - wordA.x, wordB.y - wordA.y;
      var distance := OrDefault(Sqrt(m, Square(dx) + Square(dy)), 1.0);
      var moveX, moveY := dx / distance * 2.0, dy / distance * 2.0;
      wordA := wordA.(x := wordA.x - moveX, y := wordA.y - moveY);
      wordB := wordB.(x := wordB.x + moveX, y := wordB.y + moveY);
      assert wordA == Separate(m, ws[a], ws[b]).0;
      assert wordB == Separate(m, ws[a], ws[b]).1;
      r := ws[a := KeepInBounds(c, wordA)][b := KeepInBounds(c, wordB)];
      hit := true;
    }
  }

  /** The inner loop of `resolveCollisions()` for word `a`: the pairs
      `(a, b)` for every later `b`. */
  method SweepPairs(m: RealMath, c: Canvas, ws: seq<Word>, a: nat, moved: bool) returns (r: seq<Word>, moved': bool)
    requires a < |ws|
    ensures |r| == |ws|
    ensures PassFrom(m, c, r, a + 1, a + 2, moved') == PassFrom(m, c, ws, a, a + 1, moved)
  {
    r, moved' := ws, moved;
    var b := a + 1;
    while b < |r|
      invariant a < b <= |r| == |ws|
      invariant PassFrom(m, c, r, a, b, moved') == PassFrom(m, c, ws, a, a + 1, moved)
    {
      var hit;
      r, hit := TryPair(m, c, r, a, b);
      moved' := moved' || hit;
      b := b + 1;
    }
  }

  /** One pass of `resolveCollisions()`: the nested loops over all pairs,
      with the `moved` flag. */
  method RunPass(m: RealMath, c: Canvas, ws: seq<Word>) returns (r: seq<Word>, moved: bool)
    ensures (r, moved) == Pass(m, c, ws)
  {
    r, moved := ws, false;
    var a := 0;
    while a < |r|
      invariant 0 <= a <= |r| == |ws|
      invariant PassFrom(m, c, r, a, a + 1, moved) == Pass(m, c, ws)
    {
      r, moved := SweepPairs(m, c, r, a, moved);
      a := a + 1;
    }
  }

  /** `resolveCollisions()`: passes over all pairs, stopping after a pass
      that moved nothing or after `Iterations` passes; `passes` counts them
      and `moved` is the flag of the last one. */
  method ResolveCollisions(m: RealMath, c: Canvas, ws: seq<Word>) returns (r: seq<Word>, passes: nat, moved: bool)
    ensures r == Resolve(m, c, ws, 0) && passes == PassCount(m, c, ws, 0)
    ensures passes <= Iterations
    ensures moved == LastMoved(m, c, ws, 0)
    ensures !moved ==> Untangled(c, r)
    ensures moved ==> passes == Iterations
  {
    r, passes, moved := RunPasses(m, c, ws);
    ResolveOutcome(m, c, ws, 0);
    LastMovedOutcome(m, c, ws, 0);
  }

  /** The loop of `resolveCollisions()` with its `break`. */
  method RunPasses(m: RealMath, c: Canvas, ws: seq<Word>) returns (r: seq<Word>, passes: nat, moved: bool)
    ensures r == Resolve(m, c, ws, 0) && passes == PassCount(m, c, ws, 0) && moved == LastMoved(m, c, ws, 0)
  {
    r, passes, moved := ws, 0, true;
    var i := 0;
    while i < Iterations
      invariant 0 <= i <= Iterations && passes == i && moved
      invariant Rest(m, c, r, i, passes) == Rest(m, c, ws, 0, 0)
      decreases Iterations - i
    {
      ghost var before := r;
      r, moved := RunPass(m, c, r);
      passes := passes + 1;
      RestStep(m, c, before, i, passes - 1, r, moved);
      if !moved {
        break;
      }
      i := i + 1;
    }
    RestMeaning(m, c, ws, 0, 0);
  }

  /** What the passes from pass `i` on leave: the layout, the running count
      of passes that started at `n`, and the last `moved` flag. */
  function Rest(m: RealMath, c: Canvas, ws: seq<Word>, i: nat, n: nat): (seq<Word>, nat, bool)
    decreases Iterations - i
  {
    if i >= Iterations then (ws, n, true)
    else
      var p := Pass(m, c, ws);
      if !p.1 then (p.0, n + 1, false) else Rest(m, c, p.0, i + 1, n + 1)
  }

  /** One pass of `Rest`, unfolded on the result of that pass. */
  lemma {:induction false} RestStep(m: RealMath, c: Canvas, ws: seq<Word>, i: nat, n: nat, r: seq<Word>, moved: bool)
    requires i < Iterations && (r, moved) == Pass(m, c, ws)
    ensures Rest(m, c, ws, i, n) == if moved then Rest(m, c, r, i + 1, n + 1) else (r, n + 1, false)
  {
  }

  /** `Rest` bundles `Resolve`, `PassCount` and `LastMoved`. */
  lemma {:induction false} RestMeaning(m: RealMath, c: Canvas, ws: seq<Word>, i: nat, n: nat)
    ensures Rest(m, c, ws, i, n) == (Resolve(m, c, ws, i), n + PassCount(m, c, ws, i), LastMoved(m, c, ws, i))
    decreases Iterations - i
  {
    if i < Iterations {
      var p := Pass(m, c, ws);
      if p.1 {
        RestMeaning(m, c, p.0, i + 1, n + 1);
      }
    }
  }

  // ---------------------------------------------------------------------
  // processData

  /** The words after `processData()` on `data`, when the words before are
      `words` and the draws start at `cur`: with no data it returns early and
      the old words stay; otherwise the seeded words, resolved. */
  function Layout(m: RealMath, c: Canvas, data: seq<Item>, palette: seq<string>, rand: Random, cur: nat,
                  words: seq<Word>): (r: seq<Word>)
    ensures data == [] ==> r == words
    ensures data != [] ==> |r| == |data|
  {
    if data == [] then words
    else Resolve(m, c, Seeded(m, c, data, MinValue(data), Range(data), palette, rand, cur, |data|), 0)
  }

  /** After `processData()` on non-empty data there is one word per item, in
      order, with the item's name and value, a font size in `[16, 48]` and
      colour `k` of the palette: the relaxation only moves words. */
  lemma {:induction false} LayoutWords(m: RealMath, c: Canvas, data: seq<Item>, palette: seq<string>, rand: Random, cur: nat,
                    words: seq<Word>, k: nat)
    requires k < |data|
    ensures var w := Layout(m, c, data, palette, rand, cur, words)[k];
      && w.text == data[k].name && w.value == data[k].value
      && 16.0 <= w.fontSize <= 48.0
      && (data[k].value == MinValue(data) ==> w.fontSize == 16.0)
      && w.color == PaletteColor(palette, k)
  {
    var seeded := Seeded(m, c, data, MinValue(data), Range(data), palette, rand, cur, |data|);
    ResolveKeepsWords(m, c, seeded, 0);
    SeededAt(m, c, data, MinValue(data), Range(data), palette, rand, cur, |data|, k);
    FontSizeBounds(data, k);
  }

  /** `processData()`: the value scan, the seeded words and the relaxation. */
  method ProcessItems(m: RealMath, c: Canvas, data: seq<Item>, palette: seq<string>, rand: Random, cur: nat,
                      words: seq<Word>) returns (r: seq<Word>, next: nat)
    ensures r == Layout(m, c, data, palette, rand, cur, words)
    ensures next == cur + 6 * |data|
  {
    if |data| == 0 {
      return words, cur;
    }
    var seeded;
    seeded, next := SeedWords(m, c, data, palette, rand, cur);
    var passes, moved;
    r, passes, moved := ResolveCollisions(m, c, seeded);
  }

  // ---------------------------------------------------------------------
  // animate

  /** One frame of `animate()` for one word: it moves by its velocity, turns
      by its rotation speed and is clamped into the canvas. A word that fits
      ends up inside the margins; one whose move keeps it inside moves by
      exactly its velocity. */
  function AnimateWord(c: Canvas, w: Word): (r: Word)
    ensures r == w.(x := r.x, y := r.y, angle := w.angle + w.rotationSpeed)
    ensures FitsCanvas(c, w) ==> InCanvas(c, r)
    ensures InCanvas(c, w.(x := w.x + w.vx, y := w.y + w.vy)) ==> r.x == w.x + w.vx && r.y == w.y + w.vy
  {
    KeepInBounds(c, w.(x := w.x + w.vx, y := w.y + w.vy, angle := w.angle + w.rotationSpeed))
  }

  /** The `forEach` of `animate()` over the words. */
  method AnimateWords(c: Canvas, ws: seq<Word>) returns (r: seq<Word>)
    ensures |r| == |ws|
    ensures forall k :: 0 <= k < |ws| ==> r[k] == AnimateWord(c, ws[k])
    ensures forall k :: 0 <= k < |ws| && FitsCanvas(c, ws[k]) ==> InCanvas(c, r[k])
  {
    r := ws;
    var k := 0;
    while k < |r|
      invariant 0 <= k <= |r| == |ws|
      invariant forall q :: 0 <= q < k ==> r[q] == AnimateWord(c, ws[q])
      invariant forall q :: k <= q < |r| ==> r[q] == ws[q]
    {
      var w := r[k];
      w := w.(x := w.x + w.vx, y := w.y + w.vy, angle := w.angle + w.rotationSpeed);
      r := r[k := KeepInBounds(c, w)];
      k := k + 1;
    }
  }

  // ---------------------------------------------------------------------
  // The widget

  /** The widget object. `drawn` counts the `Math.random()` draws so far;
      `animationId` is the last id `requestAnimationFrame` returned, if any. */
  class WordCloudChart {
    const canvas: Canvas
    const palette: seq<string>
    const math: RealMath
    const rand: Random
    var data: seq<Item>
    var words: seq<Word>
    var drawn: nat
    var isAnimating: bool
    var animationId: Option<nat>

    /** The constructor, then `init()`: `width` and `height` of 0 (missing)
        fall back to 300 and 200, a missing palette to the default one; the
        words are laid out from the data. */
    constructor(width: real, height: real, data: seq<Item>, palette: Option<seq<string>>,
                measure: (string, real) -> real, math: RealMath, rand: Random)
      ensures canvas == Canvas(OrDefault(width, 300.0), OrDefault(height, 200.0), measure)
      ensures this.palette == (if palette.Some? then palette.value else DefaultPalette)
      ensures this.math == math && this.rand == rand && this.data == data
      ensures words == Layout(math, canvas, data, this.palette, rand, 0, [])
      ensures drawn == 6 * |data|
      ensures !isAnimating && animationId == None
    {
      this.canvas := Canvas(OrDefault(width, 300.0), OrDefault(height, 200.0), measure);
      this.palette := if palette.Some? then palette.value else DefaultPalette;
      this.math := math;
      this.rand := rand;
      this.data := data;
      this.words := [];
      this.drawn := 0;
      this.isAnimating := false;
      this.animationId := None;
      new;
      ProcessData();
    }

    /** `processData()` on the current data. */
    method ProcessData()
      modifies this
      ensures words == Layout(math, canvas, data, palette, rand, old(drawn), old(words))
      ensures drawn == old(drawn) + 6 * |data|
      ensures data == old(data) && isAnimating == old(isAnimating) && animationId == old(animationId)
    {
      words, drawn := ProcessItems(math, canvas, data, palette, rand, drawn, words);
    }

    /** `updateData(newData)`: the new data, laid out; empty data keeps the
        old words. */
    method UpdateData(newData: seq<Item>)
      modifies this
      ensures data == newData
      ensures words == Layout(math, canvas, newData, palette, rand, old(drawn), old(words))
      ensures newData == [] ==> words == old(words)
      ensures drawn == old(drawn) + 6 * |newData|
      ensures isAnimating == old(isAnimating) && animationId == old(animationId)
    {
      data := newData;
      ProcessData();
    }

    /** `animate()`: when animating, one frame for every word, and the id of
        the next frame; otherwise nothing. */
    method Animate(frame: nat)
      modifies this
      ensures old(isAnimating) ==> |words| == |old(words)|
      ensures old(isAnimating) ==> forall k :: 0 <= k < |words| ==> words[k] == AnimateWord(canvas, old(words)[k])
      ensures old(isAnimating) ==> animationId == Some(frame)
      ensures !old(isAnimating) ==> words == old(words) && animationId == old(animationId)
      ensures data == old(data) && drawn == old(drawn) && isAnimating == old(isAnimating)
    {
      if !isAnimating {
        return;
      }
      words := AnimateWords(canvas, words);
      animationId := Some(frame);
    }

    /** `startAnimation()`: nothing if already animating; otherwise it starts
        and runs the first frame. */
    method StartAnimation(frame: nat)
      modifies this
      ensures isAnimating
      ensures old(isAnimating) ==> words == old(words) && animationId == old(animationId)
      ensures !old(isAnimating) ==> |words| == |old(words)| && animationId == Some(frame)
      ensures !old(isAnimating) ==> forall k :: 0 <= k < |words| ==> words[k] == AnimateWord(canvas, old(words)[k])
      ensures data == old(data) && drawn == old(drawn)
    {
      if isAnimating {
        return;
      }
      isAnimating := true;
      Animate(frame);
    }

    /** `stopAnimation()`: stops, and forgets the pending frame when its id is
        truthy (an id of 0 is kept, as JavaScript's `if` reads it as false). */
    method StopAnimation()
      modifies this
      ensures !isAnimating
      ensures animationId == (if old(animationId).Some? && old(animationId).value != 0 then None else old(animationId))
      ensures words == old(words) && data == old(data) && drawn == old(drawn)
    {
      isAnimating := false;
      if animationId.Some? && animationId.value != 0 {
        animationId := None;
      }
    }

    /** `destroy()`: stops the animation and forgets the words and the data. */
    method Destroy()
      modifies this
      ensures !isAnimating && words == [] && data == []
      ensures animationId == (if old(animationId).Some? && old(animationId).value != 0 then None else old(animationId))
      ensures drawn == old(drawn)
    {
      StopAnimation();
      words := [];
      data := [];
    }
  }
}
