/** Shared numeric vocabulary of the chart widgets: points, the host's
    `Math` functions (passed in, with the laws the proofs rely on), the
    `Math.random()` stream, and a few real-valued helpers. */
module Geometry {

  /** `Math.PI`, taken as a real number. */
  const PI: real := 3.141592653589793

  datatype Option<T> = None | Some(value: T)

  datatype Point = Point(x: real, y: real)

  /** One `[emotion, value]` pair of `Object.entries(data)`, the input of
      both bubble widgets. */
  datatype Entry = Entry(emotion: string, value: real)

  /** `Object.values(data).reduce((sum, v) => sum + v, 0)`. */
  function TotalValue(es: seq<Entry>): real {
    if es == [] then 0.0 else es[0].value + TotalValue(es[1..])
  }

  /** The host's `Math.sqrt`, `Math.cos`, `Math.sin` and `Math.atan2`.
      Nothing is assumed about them beyond what `Lawful` states. */
  datatype RealMath = RealMath(
    sqrt: real -> real,
    cos: real -> real,
    sin: real -> real,
    atan2: (real, real) -> real)

  // The host functions, applied.
  function Sqrt(m: RealMath, v: real): real { m.sqrt(v) }
  function Cos(m: RealMath, a: real): real { m.cos(a) }
  function Sin(m: RealMath, a: real): real { m.sin(a) }
  function Atan2(m: RealMath, y: real, x: real): real { m.atan2(y, x) }

  /** The laws of the real square root and of sine and cosine that the
      layout properties need. */
  ghost predicate Lawful(m: RealMath) {
    && (forall v :: 0.0 <= v ==> SqrtLaw(m, v))
    && (forall a :: UnitCircleLaw(m, a))
    && (forall y, x :: PolarLaw(m, y, x))
  }

  /** `Sqrt(m, v)` is the non-negative square root of `v`. */
  ghost predicate SqrtLaw(m: RealMath, v: real) {
    0.0 <= Sqrt(m, v) && Sqrt(m, v) * Sqrt(m, v) == v
  }

  /** `(Cos(m, a), Sin(m, a))` lies on the unit circle. */
  ghost predicate UnitCircleLaw(m: RealMath, a: real) {
    Cos(m, a) * Cos(m, a) + Sin(m, a) * Sin(m, a) == 1.0
  }

  /** The angle `Atan2(m, y, x)`, at the length of `(x, y)`, gives back `(x, y)`. */
  ghost predicate PolarLaw(m: RealMath, y: real, x: real) {
    && Cos(m, Atan2(m, y, x)) * Sqrt(m, x * x + y * y) == x
    && Sin(m, Atan2(m, y, x)) * Sqrt(m, x * x + y * y) == y
  }

  /** Successive results of `Math.random()`: draw number k is `rand(k)`. */
  type Random = nat -> real

  ghost predicate UnitStream(rand: Random) {
    forall k: nat :: 0.0 <= rand(k) < 1.0
  }

  function Min(a: real, b: real): real {
    if a <= b then a else b
  }

  function Max(a: real, b: real): real {
    if a >= b then a else b
  }

  /** JavaScript's `x || d` on a number option: 0 falls back to the default. */
  function OrDefault(x: real, d: real): (r: real)
    requires d != 0.0
    ensures r != 0.0
    ensures x != 0.0 ==> r == x
    ensures x == 0.0 ==> r == d
  {
    if x == 0.0 then d else x
  }

  function Square(v: real): real {
    v * v
  }

  /** Euclidean distance as the widgets compute it, through the host's square root. */
  function Dist(m: RealMath, p: Point, q: Point): real {
    Sqrt(m, Square(p.x - q.x) + Square(p.y - q.y))
  }

  lemma SquareStrictlyMonotone(a: real, b: real)
    requires 0.0 <= a < b
    ensures a * a < b * b
  {
    var aa, ab, bb := a * a, a * b, b * b;
    assert aa <= ab;
    assert ab < bb;
  }

  lemma SquareMonotone(a: real, b: real)
    requires 0.0 <= a <= b
    ensures a * a <= b * b
  {
    var aa, ab, bb := a * a, a * b, b * b;
    assert aa <= ab;
    assert ab <= bb;
  }

  lemma MulMonotone(a: real, b: real, q: real)
    requires a <= b
    requires 0.0 <= q
    ensures a * q <= b * q
  {
    var d := (b - a) * q;
    assert 0.0 <= d;
    assert b * q == a * q + d;
  }

  lemma MulStrict(a: real, b: real, q: real)
    requires a < b
    requires 0.0 < q
    ensures a * q < b * q
  {
    var d := (b - a) * q;
    assert 0.0 < d;
    assert b * q == a * q + d;
  }

  /** A proper fraction of a positive number is below 1. */
  lemma DivBelowOne(a: real, b: real)
    requires 0.0 <= a < b
    ensures a / b < 1.0
  {
    if a / b >= 1.0 {
      MulMonotone(1.0, a / b, b);
      assert false;
    }
  }

  /** The host's square root is monotone on the non-negative reals. */
  lemma SqrtMonotone(m: RealMath, a: real, b: real)
    requires Lawful(m)
    requires 0.0 <= a <= b
    ensures Sqrt(m, a) <= Sqrt(m, b)
  {
    assert SqrtLaw(m, a) && SqrtLaw(m, b);
    if Sqrt(m, b) < Sqrt(m, a) {
      SquareStrictlyMonotone(Sqrt(m, b), Sqrt(m, a));
    }
  }

  lemma DivStep(a: real, step: real)
    requires 0.0 < step
    ensures (a - step) / step == a / step - 1.0
    ensures 0.0 <= a ==> 0.0 <= a / step
  {
    var q := a / step;
    var q2 := (a - step) / step;
    var d := q2 - q + 1.0;
    assert d * step == q2 * step - q * step + step;
    if d > 0.0 {
      assert false;
    } else if d < 0.0 {
      assert false;
    }
    if 0.0 <= a && q < 0.0 {
      MulStrict(q, 0.0, step);
    }
  }

  /** Moving `r` one `step` closer to `bound` lowers the number of whole steps left by one. */
  lemma StepCloser(bound: real, r: real, step: real)
    requires 0.0 < step && r < bound
    ensures 0 <= ((bound - r) / step).Floor
    ensures ((bound - (r + step)) / step).Floor < ((bound - r) / step).Floor
  {
    DivStep(bound - r, step);
    assert bound - (r + step) == (bound - r) - step;
  }

  /** The host's square root of a square gives back the non-negative root. */
  lemma SqrtOfSquare(m: RealMath, r: real)
    requires Lawful(m)
    requires 0.0 <= r
    ensures Sqrt(m, r * r) == r
  {
    var s := Sqrt(m, r * r);
    assert SqrtLaw(m, r * r);
    if s > r {
      SquareStrictlyMonotone(r, s);
    } else if s < r {
      SquareStrictlyMonotone(s, r);
    }
  }

  /** The point at angle `a` and radius `rho` from `c` lies at distance `rho` from `c`. */
  lemma PolarDistance(m: RealMath, c: Point, rho: real, a: real)
    requires Lawful(m)
    requires 0.0 <= rho
    ensures Dist(m, c, Point(c.x + rho * Cos(m, a), c.y + rho * Sin(m, a))) == rho
  {
    var p := Point(c.x + rho * Cos(m, a), c.y + rho * Sin(m, a));
    calc {
      Square(c.x - p.x) + Square(c.y - p.y);
      (-rho * Cos(m, a)) * (-rho * Cos(m, a)) + (-rho * Sin(m, a)) * (-rho * Sin(m, a));
      rho * rho * (Cos(m, a) * Cos(m, a) + Sin(m, a) * Sin(m, a));
      { assert UnitCircleLaw(m, a); }
      rho * rho;
    }
    assert Dist(m, c, p) == Sqrt(m, rho * rho);
    SqrtOfSquare(m, rho);
  }
}
