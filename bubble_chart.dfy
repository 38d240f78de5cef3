/** The static bubble chart: every emotion becomes a bubble whose area is
    proportional to its value, and bubbles are packed, largest first, by a
    spiral search around the centre of the container. */
module BubbleLayout {
  import opened Geometry

  /** The chart's options, after defaults were applied. */
  datatype Options = Options(
    width: real,
    height: real,
    minBubbleSize: real,
    maxBubbleSize: real,
    padding: real,
    collisionPadding: real,
    wobblePoints: nat,
    wobbleFactor: real)

  datatype Bubble = Bubble(
    emotion: string,
    value: real,
    size: real,
    centerX: real,
    centerY: real,
    path: seq<Point>)

  /** The constructor: an option left out (or given as 0) takes its default. */
  function Configure(width: real, height: real, minBubbleSize: real, maxBubbleSize: real,
                     padding: real, collisionPadding: real, wobblePoints: nat, wobbleFactor: real): (o: Options)
    ensures o.width != 0.0 && o.height != 0.0 && o.padding != 0.0 && o.collisionPadding != 0.0
    ensures o.minBubbleSize != 0.0 && o.maxBubbleSize != 0.0 && o.wobbleFactor != 0.0
    ensures 0 < o.wobblePoints
    ensures width != 0.0 ==> o.width == width
    ensures height != 0.0 ==> o.height == height
    ensures minBubbleSize != 0.0 ==> o.minBubbleSize == minBubbleSize
    ensures maxBubbleSize != 0.0 ==> o.maxBubbleSize == maxBubbleSize
    ensures padding != 0.0 ==> o.padding == padding
    ensures collisionPadding != 0.0 ==> o.collisionPadding == collisionPadding
    ensures wobblePoints != 0 ==> o.wobblePoints == wobblePoints
    ensures wobbleFactor != 0.0 ==> o.wobbleFactor == wobbleFactor
    ensures width == 0.0 ==> o.width == 300.0
    ensures height == 0.0 ==> o.height == 400.0
    ensures minBubbleSize == 0.0 ==> o.minBubbleSize == 60.0
    ensures maxBubbleSize == 0.0 ==> o.maxBubbleSize == 200.0
    ensures padding == 0.0 ==> o.padding == 10.0
    ensures collisionPadding == 0.0 ==> o.collisionPadding == 6.0
    ensures wobblePoints == 0 ==> o.wobblePoints == 36
    ensures wobbleFactor == 0.0 ==> o.wobbleFactor == 0.08
  {
    Options(OrDefault(width, 300.0), OrDefault(height, 400.0),
            OrDefault(minBubbleSize, 60.0), OrDefault(maxBubbleSize, 200.0),
            OrDefault(padding, 10.0), OrDefault(collisionPadding, 6.0),
            if wobblePoints == 0 then 36 else wobblePoints,
            OrDefault(wobbleFactor, 0.08))
  }

  // ---------------------------------------------------------------------------
  // Sizes

  /** The diameter of the circle of the given area, through the host's square root. */
  function Diameter(m: RealMath, area: real): real {
    2.0 * Sqrt(m, area / PI)
  }

  /** A circle of diameter `Diameter(area)` has exactly that area. */
  lemma DiameterHasArea(m: RealMath, area: real)
    requires Lawful(m)
    requires 0.0 <= area
    ensures PI * Square(Diameter(m, area) / 2.0) == area
  {
    var root := Sqrt(m, area / PI);
    assert SqrtLaw(m, area / PI);
    assert root * root == area / PI;
    assert Diameter(m, area) / 2.0 == root;
  }

  /** `calculateBubbleSize`: the diameter of area `value * scaleFactor`,
      clamped into the configured range. */
  function CalculateBubbleSize(m: RealMath, o: Options, value: real, scaleFactor: real): (size: real)
    ensures o.minBubbleSize <= size
    ensures o.minBubbleSize <= o.maxBubbleSize ==> size <= o.maxBubbleSize
    ensures o.minBubbleSize <= Diameter(m, value * scaleFactor) <= o.maxBubbleSize ==>
              size == Diameter(m, value * scaleFactor)
  {
    Max(o.minBubbleSize, Min(Diameter(m, value * scaleFactor), o.maxBubbleSize))
  }

  /** The sum of the bubble areas before clamping, `sum(value * scaleFactor)`. */
  function TotalArea(es: seq<Entry>, scaleFactor: real): real {
    if es == [] then 0.0 else es[0].value * scaleFactor + TotalArea(es[1..], scaleFactor)
  }

  lemma {:induction false} TotalAreaScalesTotal(es: seq<Entry>, scaleFactor: real)
    ensures TotalArea(es, scaleFactor) == TotalValue(es) * scaleFactor
  {
    if es != [] {
      TotalAreaScalesTotal(es[1..], scaleFactor);
    }
  }

  /** The scale that makes the bubbles cover 80% of the FULL container
      `width * height` (the padding is not subtracted). */
  function ScaleFactor(o: Options, es: seq<Entry>): real
    requires TotalValue(es) != 0.0
  {
    o.width * o.height * 0.8 / TotalValue(es)
  }

  lemma {:induction false} ScaleFactorMeetsTarget(o: Options, es: seq<Entry>)
    requires TotalValue(es) != 0.0
    ensures TotalArea(es, ScaleFactor(o, es)) == 0.8 * o.width * o.height
  {
    TotalAreaScalesTotal(es, ScaleFactor(o, es));
  }

  lemma {:induction false} TotalOfNonNegative(es: seq<Entry>)
    requires forall k :: 0 <= k < |es| ==> 0.0 <= es[k].value
    ensures 0.0 <= TotalValue(es)
    ensures TotalValue(es) == 0.0 ==> forall k :: 0 <= k < |es| ==> es[k].value == 0.0
  {
    if es != [] {
      TotalOfNonNegative(es[1..]);
      assert forall k :: 1 <= k < |es| ==> es[k] == es[1..][k - 1];
    }
  }

  // ---------------------------------------------------------------------------
  // Ordering: `sort((a, b) => b[1] - a[1])`, a stable sort by descending value

  function InsertDesc(e: Entry, s: seq<Entry>): (r: seq<Entry>)
    ensures |r| == |s| + 1
  {
    if s == [] || s[0].value <= e.value then [e] + s else [s[0]] + InsertDesc(e, s[1..])
  }

  function SortDesc(s: seq<Entry>): (r: seq<Entry>)
    ensures |r| == |s|
  {
    if s == [] then [] else InsertDesc(s[0], SortDesc(s[1..]))
  }

  ghost predicate NonIncreasing(s: seq<Entry>) {
    forall i, j :: 0 <= i < j < |s| ==> s[j].value <= s[i].value
  }

  /** The entries of `s` whose value is `v`, in their order in `s`. */
  function WithValue(s: seq<Entry>, v: real): seq<Entry> {
    if s == [] then [] else (if s[0].value == v then [s[0]] else []) + WithValue(s[1..], v)
  }

  lemma {:induction false} ConsNonIncreasing(x: Entry, t: seq<Entry>)
    requires NonIncreasing(t)
    requires t == [] || t[0].value <= x.value
    ensures NonIncreasing([x] + t)
  {
    var r := [x] + t;
    forall i, j | 0 <= i < j < |r| ensures r[j].value <= r[i].value {
      if i == 0 {
        assert r[j] == t[j - 1];
        assert t[j - 1].value <= t[0].value;
      } else {
        assert r[i] == t[i - 1] && r[j] == t[j - 1];
      }
    }
  }

  lemma TailNonIncreasing(s: seq<Entry>)
    requires s != [] && NonIncreasing(s)
    ensures NonIncreasing(s[1..])
  {
    forall i, j | 0 <= i < j < |s| - 1 ensures s[1..][j].value <= s[1..][i].value {
      assert s[1..][i] == s[i + 1] && s[1..][j] == s[j + 1];
    }
  }

  lemma {:induction false} InsertDescSorted(e: Entry, s: seq<Entry>)
    requires NonIncreasing(s)
    ensures NonIncreasing(InsertDesc(e, s))
    ensures multiset(InsertDesc(e, s)) == multiset(s) + multiset{e}
    ensures InsertDesc(e, s)[0].value == Max(e.value, if s == [] then e.value else s[0].value)
  {
    if s == [] || s[0].value <= e.value {
      ConsNonIncreasing(e, s);
    } else {
      var tail := s[1..];
      TailNonIncreasing(s);
      InsertDescSorted(e, tail);
      var rest := InsertDesc(e, tail);
      assert rest[0].value <= s[0].value by {
        if tail != [] {
          assert tail[0] == s[1];
        }
      }
      ConsNonIncreasing(s[0], rest);
      assert s == [s[0]] + tail;
      assert multiset(s) == multiset{s[0]} + multiset(tail);
    }
  }

  /** The result of the sort is ordered by descending value and is a permutation of its input. */
  lemma {:induction false} SortDescSorted(s: seq<Entry>)
    ensures NonIncreasing(SortDesc(s))
    ensures multiset(SortDesc(s)) == multiset(s)
  {
    if s != [] {
      var tail := s[1..];
      SortDescSorted(tail);
      var sortedTail := SortDesc(tail);
      InsertDescSorted(s[0], sortedTail);
      assert SortDesc(s) == InsertDesc(s[0], sortedTail);
      calc {
        multiset(SortDesc(s));
        multiset(sortedTail) + multiset{s[0]};
        multiset(tail) + multiset{s[0]};
        { assert s == [s[0]] + tail; }
        multiset(s);
      }
    }
  }

  lemma {:induction false} InsertDescStable(e: Entry, s: seq<Entry>, v: real)
    requires NonIncreasing(s)
    ensures WithValue(InsertDesc(e, s), v) == (if e.value == v then [e] else []) + WithValue(s, v)
  {
    var mine := if e.value == v then [e] else [];
    if s == [] || s[0].value <= e.value {
      var r := [e] + s;
      assert r[0] == e && r[1..] == s;
      assert WithValue(r, v) == mine + WithValue(s, v);
    } else {
      var rest := InsertDesc(e, s[1..]);
      var r := [s[0]] + rest;
      assert r == InsertDesc(e, s);
      assert r[0] == s[0] && r[1..] == rest;
      TailNonIncreasing(s);
      InsertDescStable(e, s[1..], v);
      var head := if s[0].value == v then [s[0]] else [];
      assert WithValue(r, v) == head + WithValue(rest, v);
      assert WithValue(rest, v) == mine + WithValue(s[1..], v);
      assert WithValue(s, v) == head + WithValue(s[1..], v);
      assert e.value == v ==> head == [];
    }
  }

  /** Stability: entries of equal value keep their insertion order. */
  lemma {:induction false} SortDescStable(s: seq<Entry>, v: real)
    ensures WithValue(SortDesc(s), v) == WithValue(s, v)
  {
    if s != [] {
      SortDescStable(s[1..], v);
      SortDescSorted(s[1..]);
      InsertDescStable(s[0], SortDesc(s[1..]), v);
    }
  }

  // ---------------------------------------------------------------------------
  // Placement test

  /** The bubble lies in `[padding, width - padding] x [padding, height - padding]`. */
  predicate InsidePaddedBox(o: Options, cx: real, cy: real, size: real) {
    && o.padding <= cx - size / 2.0
    && cx + size / 2.0 <= o.width - o.padding
    && o.padding <= cy - size / 2.0
    && cy + size / 2.0 <= o.height - o.padding
  }

  /** A candidate centre keeps the collision distance from an existing bubble. */
  predicate Separated(m: RealMath, o: Options, cx: real, cy: real, size: real, e: Bubble) {
    Dist(m, Point(cx, cy), Point(e.centerX, e.centerY)) >= (size + e.size) / 2.0 + o.collisionPadding
  }

  /** The `for (const existing of existingBubbles)` loop of `isPositionValid`. */
  function ClearOfAll(m: RealMath, o: Options, cx: real, cy: real, size: real, existing: seq<Bubble>): (ok: bool)
    ensures ok <==> forall j :: 0 <= j < |existing| ==> Separated(m, o, cx, cy, size, existing[j])
  {
    if existing == [] then true
    else if !Separated(m, o, cx, cy, size, existing[0]) then false
    else
      var rest := ClearOfAll(m, o, cx, cy, size, existing[1..]);
      assert forall j :: 1 <= j < |existing| ==> existing[j] == existing[1..][j - 1];
      rest
  }

  /** `isPositionValid`: inside the padded box and clear of every existing bubble. */
  function IsPositionValid(m: RealMath, o: Options, cx: real, cy: real, size: real, existing: seq<Bubble>): (ok: bool)
    ensures ok <==> InsidePaddedBox(o, cx, cy, size) &&
                    forall j :: 0 <= j < |existing| ==> Separated(m, o, cx, cy, size, existing[j])
  {
    var radius := size / 2.0;
    if cx - radius < o.padding || cx + radius > o.width - o.padding ||
       cy - radius < o.padding || cy + radius > o.height - o.padding
    then false
    else ClearOfAll(m, o, cx, cy, size, existing)
  }

  // ---------------------------------------------------------------------------
  // Spiral search
  //
  // The search is stated over a validity test `ok` and a candidate formula
  // `cand` passed as function values; `FindAvailablePosition` instantiates
  // them with `isPositionValid` and the jittered ring positions.

  /** The number of angles tried on one ring: never fewer than 8. */
  type Angles = n: nat | 8 <= n witness 8

  /** A candidate formula: the point for a ring radius, its number of angles,
      the angle's index and the drawing cursor. */
  type Candidates = (real, Angles, nat, nat) -> Point

  /** The candidates `i, i + 1, ..., steps - 1` of the ring of radius `r`, two
      draws each from `cur` on. */
  function RingCandidates(cand: Candidates, r: real, steps: Angles, i: nat, cur: nat): (s: seq<Point>)
    requires i <= steps
    ensures |s| == steps - i
    decreases steps - i
  {
    if i == steps then []
    else [cand(r, steps, i, cur)] + RingCandidates(cand, r, steps, i + 1, cur + 2)
  }

  /** The number of rings `r, r + step, r + 2 * step, ...` below `maxR`. */
  function Rings(maxR: real, step: real, r: real): nat
    requires 0.0 < step
    decreases ((maxR - r) / step).Floor
  {
    if r < maxR then
      StepCloser(maxR, r, step);
      1 + Rings(maxR, step, r + step)
    else 0
  }

  /** One ring below `maxR` leaves one ring fewer from the next radius on. */
  lemma RingsStep(maxR: real, step: real, r: real)
    requires 0.0 < step && r < maxR
    ensures Rings(maxR, step, r) == 1 + Rings(maxR, step, r + step)
  {
  }

  /** Every candidate tried on the `left` rings from radius `r` on, in order:
      rings `r, r + step, ...`, with `count(r)` angles each. */
  function SpiralFrom(cand: Candidates, count: real -> Angles, step: real, r: real, left: nat, cur: nat): seq<Point>
    decreases left
  {
    if 0 < left then
      RingCandidates(cand, r, count(r), 0, cur) + SpiralFrom(cand, count, step, r + step, left - 1, cur + 2 * count(r))
    else []
  }

  /** The index of the first point of `s` that `ok` accepts, or `|s|` when it
      accepts none (`FirstFitSpec`). */
  function FirstFit(ok: Point -> bool, s: seq<Point>): (k: nat)
    ensures k <= |s|
  {
    if s == [] then 0
    else if ok(s[0]) then 0
    else 1 + FirstFit(ok, s[1..])
  }

  /** Nothing before the first fit is accepted, and the first fit is, when there is one. */
  lemma {:induction false} FirstFitSpec(ok: Point -> bool, s: seq<Point>)
    ensures forall j :: 0 <= j < FirstFit(ok, s) ==> !ok(s[j])
    ensures FirstFit(ok, s) < |s| ==> ok(s[FirstFit(ok, s)])
  {
    if s != [] && !ok(s[0]) {
      FirstFitSpec(ok, s[1..]);
      assert forall j :: 1 <= j < |s| ==> s[j] == s[1..][j - 1];
    }
  }

  /** The first fit is the only index before which nothing fits and at which something does. */
  lemma {:induction false} FirstFitUnique(ok: Point -> bool, s: seq<Point>, k: nat)
    requires k <= |s|
    requires forall j :: 0 <= j < k ==> !ok(s[j])
    requires k < |s| ==> ok(s[k])
    ensures FirstFit(ok, s) == k
  {
    if 0 < k {
      assert !ok(s[0]);
      assert forall j :: 0 <= j < k - 1 ==> s[1..][j] == s[j + 1];
      FirstFitUnique(ok, s[1..], k - 1);
    }
  }

  /** The first fit of a concatenation: the first fit of the front part when
      it has one, otherwise the front's length plus the first fit of the back. */
  lemma FirstFitAppend(ok: Point -> bool, a: seq<Point>, b: seq<Point>)
    ensures FirstFit(ok, a + b) == if FirstFit(ok, a) < |a| then FirstFit(ok, a) else |a| + FirstFit(ok, b)
  {
    var k := FirstFit(ok, a);
    FirstFitSpec(ok, a);
    FirstFitSpec(ok, b);
    assert forall j :: 0 <= j < |a| ==> (a + b)[j] == a[j];
    if k < |a| {
      FirstFitUnique(ok, a + b, k);
    } else {
      assert forall j :: 0 <= j < |b| ==> (a + b)[|a| + j] == b[j];
      FirstFitUnique(ok, a + b, |a| + FirstFit(ok, b));
    }
  }

  /** The outcome of trying the points `s` in order, two draws each from `cur`
      on: the first accepted point and the cursor after it, or nothing and the
      cursor after all of them. */
  function Outcome(ok: Point -> bool, s: seq<Point>, cur: nat): (Option<Point>, nat) {
    var k := FirstFit(ok, s);
    if k < |s| then (Some(s[k]), cur + 2 * (k + 1)) else (None, cur + 2 * |s|)
  }

  /** An outcome with a point is the first accepted point, with the cursor
      after it; an outcome without one means no point is accepted. */
  lemma OutcomeMeaning(ok: Point -> bool, s: seq<Point>, cur: nat)
    ensures Outcome(ok, s, cur).0.Some? ==>
              && FirstFit(ok, s) < |s| && Outcome(ok, s, cur).0.value == s[FirstFit(ok, s)]
              && ok(s[FirstFit(ok, s)]) && Outcome(ok, s, cur).1 == cur + 2 * (FirstFit(ok, s) + 1)
    ensures Outcome(ok, s, cur).0.None? ==>
              (forall j :: 0 <= j < |s| ==> !ok(s[j])) && Outcome(ok, s, cur).1 == cur + 2 * |s|
  {
    FirstFitSpec(ok, s);
  }

  /** Trying `p` before `tail`: `p` when it is accepted, otherwise the
      outcome of `tail` two draws later. */
  lemma OutcomeCons(ok: Point -> bool, p: Point, tail: seq<Point>, cur: nat)
    ensures Outcome(ok, [p] + tail, cur) == if ok(p) then (Some(p), cur + 2) else Outcome(ok, tail, cur + 2)
  {
    FirstFitAppend(ok, [p], tail);
    assert ([p] + tail)[0] == p;
    assert forall j :: 0 <= j < |tail| ==> ([p] + tail)[1 + j] == tail[j];
  }

  /** Trying `front` then `back`: the outcome of `front` when it finds a
      point, otherwise the outcome of `back` once `front`'s draws are used. */
  lemma OutcomeAppend(ok: Point -> bool, front: seq<Point>, back: seq<Point>, cur: nat)
    ensures Outcome(ok, front + back, cur)
            == if Outcome(ok, front, cur).0.Some? then Outcome(ok, front, cur)
               else Outcome(ok, back, cur + 2 * |front|)
  {
    FirstFitAppend(ok, front, back);
    assert forall j :: 0 <= j < |front| ==> (front + back)[j] == front[j];
    assert forall j :: 0 <= j < |back| ==> (front + back)[|front| + j] == back[j];
  }

  /** The outer loop of `findAvailablePosition` on values: the rings from
      radius `r` on, stopping at the first ring with an accepted candidate. */
  function SearchFrom(ok: Point -> bool, cand: Candidates, count: real -> Angles, step: real, r: real, left: nat, cur: nat)
    : (Option<Point>, nat)
    decreases left
  {
    if 0 < left then
      var found := Outcome(ok, RingCandidates(cand, r, count(r), 0, cur), cur);
      if found.0.Some? then found else SearchFrom(ok, cand, count, step, r + step, left - 1, cur + 2 * count(r))
    else (None, cur)
  }

  /** A ring without an accepted candidate hands the search on to the next ring. */
  lemma SearchFromNext(ok: Point -> bool, cand: Candidates, count: real -> Angles, step: real, r: real, left: nat, cur: nat)
    requires 0 < left
    requires Outcome(ok, RingCandidates(cand, r, count(r), 0, cur), cur).0.None?
    ensures SearchFrom(ok, cand, count, step, r, left, cur)
            == SearchFrom(ok, cand, count, step, r + step, left - 1, Outcome(ok, RingCandidates(cand, r, count(r), 0, cur), cur).1)
  {
  }

  /** Searching ring by ring is trying the candidates of the spiral in order. */
  lemma {:induction false} SearchFromSpiral(ok: Point -> bool, cand: Candidates, count: real -> Angles, step: real, r: real, left: nat, cur: nat)
    ensures SearchFrom(ok, cand, count, step, r, left, cur) == Outcome(ok, SpiralFrom(cand, count, step, r, left, cur), cur)
    decreases left
  {
    if 0 < left {
      var ring := RingCandidates(cand, r, count(r), 0, cur);
      var rest := SpiralFrom(cand, count, step, r + step, left - 1, cur + 2 * count(r));
      var found := Outcome(ok, ring, cur);
      calc {
        SearchFrom(ok, cand, count, step, r, left, cur);
        if found.0.Some? then found else SearchFrom(ok, cand, count, step, r + step, left - 1, cur + 2 * count(r));
        { SearchFromSpiral(ok, cand, count, step, r + step, left - 1, cur + 2 * count(r)); }
        if found.0.Some? then found else Outcome(ok, rest, cur + 2 * count(r));
        { OutcomeAppend(ok, ring, rest, cur); assert |ring| == count(r); }
        Outcome(ok, ring + rest, cur);
        { assert SpiralFrom(cand, count, step, r, left, cur) == ring + rest; }
        Outcome(ok, SpiralFrom(cand, count, step, r, left, cur), cur);
      }
    }
  }

  /** Trying the candidates of a ring from angle `i` on: angle `i` when it is
      accepted, otherwise the rest of the ring two draws later. */
  lemma RingOutcomeNext(ok: Point -> bool, cand: Candidates, r: real, steps: Angles, i: nat, cur: nat)
    requires i < steps
    ensures Outcome(ok, RingCandidates(cand, r, steps, i, cur), cur)
            == if ok(cand(r, steps, i, cur)) then (Some(cand(r, steps, i, cur)), cur + 2)
               else Outcome(ok, RingCandidates(cand, r, steps, i + 1, cur + 2), cur + 2)
  {
    OutcomeCons(ok, cand(r, steps, i, cur), RingCandidates(cand, r, steps, i + 1, cur + 2), cur);
  }

  /** The inner loop of `findAvailablePosition`: the candidates of one ring
      in turn, returning the first accepted one. */
  method TryRing(ok: Point -> bool, cand: Candidates, r: real, steps: Angles, cur: nat)
    returns (position: Option<Point>, next: nat)
    ensures (position, next) == Outcome(ok, RingCandidates(cand, r, steps, 0, cur), cur)
  {
    next := cur;
    var i := 0;
    while i < steps
      invariant 0 <= i <= steps
      invariant Outcome(ok, RingCandidates(cand, r, steps, i, next), next)
                == Outcome(ok, RingCandidates(cand, r, steps, 0, cur), cur)
    {
      var candidate := cand(r, steps, i, next);
      RingOutcomeNext(ok, cand, r, steps, i, next);
      next := next + 2;
      if ok(candidate) {
        return Some(candidate), next;
      }
      i := i + 1;
    }
    return None, next;
  }

  /** The loops of `findAvailablePosition`: rings of radius 0, step, 2*step,
      ... below `maxR`, each tried with `TryRing`. */
  method SpiralSearch(ok: Point -> bool, cand: Candidates, count: real -> Angles, maxR: real, step: real, c: nat)
    returns (position: Option<Point>, next: nat)
    requires 0.0 < step
    ensures (position, next) == SearchFrom(ok, cand, count, step, 0.0, Rings(maxR, step, 0.0), c)
  {
    next := c;
    var r := 0.0;
    while r < maxR
      invariant SearchFrom(ok, cand, count, step, r, Rings(maxR, step, r), next)
                == SearchFrom(ok, cand, count, step, 0.0, Rings(maxR, step, 0.0), c)
      decreases Rings(maxR, step, r)
    {
      var stepsInCircle := count(r);
      var found;
      ghost var before := next;
      found, next := TryRing(ok, cand, r, stepsInCircle, next);
      if found.Some? {
        return found, next;
      }
      RingsStep(maxR, step, r);
      SearchFromNext(ok, cand, count, step, r, Rings(maxR, step, r), before);
      r := r + step;
    }
    position := None;
  }

  /** The ring spacing of the spiral search: half the bubble's radius. */
  function SearchStep(size: real): real {
    size / 2.0 / 2.0
  }

  /** Rings are searched while their radius is below half the container's diagonal. */
  function MaxSearchRadius(m: RealMath, o: Options): real {
    Sqrt(m, o.width * o.width + o.height * o.height) / 2.0
  }

  /** `Math.max(8, Math.floor(2 * PI * r / step))` angles on the ring of radius `r`. */
  function RingSteps(r: real, step: real): Angles
    requires 0.0 < step
  {
    var k := (2.0 * PI * r / step).Floor;
    if 8 >= k then 8 else k
  }

  /** Candidate `i` of the `steps` angles on the ring of radius `r` around the
      container's centre, moved by `(random - 0.5) * step` on each axis with
      the draws at `cur` and `cur + 1`. */
  function Candidate(m: RealMath, o: Options, size: real, rand: Random, r: real, steps: Angles, i: nat, cur: nat): Point {
    var step := SearchStep(size);
    var angle := (2.0 * PI / (steps as real)) * (i as real);
    Point(o.width / 2.0 + r * Cos(m, angle) + (rand(cur) - 0.5) * step,
          o.height / 2.0 + r * Sin(m, angle) + (rand(cur + 1) - 0.5) * step)
  }

  /** The candidate formula of a bubble of size `size`. */
  function Jitter(m: RealMath, o: Options, size: real, rand: Random): Candidates {
    (r: real, steps: Angles, i: nat, cur: nat) => Candidate(m, o, size, rand, r, steps, i, cur)
  }

  /** The angle counts of the rings spaced `step` apart. */
  function RingCount(step: real): real -> Angles
    requires 0.0 < step
  {
    (r: real) => RingSteps(r, step)
  }

  /** The validity test of a bubble of size `size` among `existing`. */
  function Fits(m: RealMath, o: Options, size: real, existing: seq<Bubble>): Point -> bool {
    (p: Point) => IsPositionValid(m, o, p.x, p.y, size, existing)
  }

  /** All the candidates of the spiral search of a bubble of size `size`, from
      radius 0, candidate `j` jittered by draws `c + 2j` and `c + 2j + 1`. */
  function Spiral(m: RealMath, o: Options, size: real, rand: Random, c: nat): seq<Point>
    requires 0.0 < size
  {
    SpiralFrom(Jitter(m, o, size, rand), RingCount(SearchStep(size)), SearchStep(size), 0.0,
               Rings(MaxSearchRadius(m, o), SearchStep(size), 0.0), c)
  }

  /** Nothing in the spiral of the bubble of size `size` fits among `existing`. */
  ghost predicate NoFit(m: RealMath, o: Options, size: real, existing: seq<Bubble>, rand: Random, c: nat)
    requires 0.0 < size
  {
    forall j :: 0 <= j < |Spiral(m, o, size, rand, c)| ==>
      !IsPositionValid(m, o, Spiral(m, o, size, rand, c)[j].x, Spiral(m, o, size, rand, c)[j].y, size, existing)
  }

  /** `findAvailablePosition`: walk rings of radius 0, step, 2*step, ... below half
      the container's diagonal; on each ring try `max(8, floor(2*PI*r/step))`
      jittered angles and return the first valid one. Each candidate draws two
      random numbers. */
  method FindAvailablePosition(m: RealMath, o: Options, size: real, existing: seq<Bubble>, rand: Random, c: nat)
    returns (position: Option<Point>, next: nat)
    requires 0.0 < size
    ensures position.Some? ==> IsPositionValid(m, o, position.value.x, position.value.y, size, existing)
    ensures position.Some? ==>
              var k := FirstFit(Fits(m, o, size, existing), Spiral(m, o, size, rand, c));
              k < |Spiral(m, o, size, rand, c)| && position.value == Spiral(m, o, size, rand, c)[k] &&
              next == c + 2 * (k + 1)
    ensures position.None? ==>
              NoFit(m, o, size, existing, rand, c) && next == c + 2 * |Spiral(m, o, size, rand, c)|
    ensures (position, next) == Outcome(Fits(m, o, size, existing), Spiral(m, o, size, rand, c), c)
  {
    var step := SearchStep(size);
    position, next := SpiralSearch(Fits(m, o, size, existing), Jitter(m, o, size, rand), RingCount(step),
                                   MaxSearchRadius(m, o), step, c);
    SearchFromSpiral(Fits(m, o, size, existing), Jitter(m, o, size, rand), RingCount(step), step, 0.0,
                     Rings(MaxSearchRadius(m, o), step, 0.0), c);
    FirstFitSpec(Fits(m, o, size, existing), Spiral(m, o, size, rand, c));
  }

  // ---------------------------------------------------------------------------
  // Outline

  /** The angle of vertex `i` of `n` evenly spaced around a full turn. */
  function PathAngle(n: nat, i: nat): real
    requires i < n
  {
    (i as real) * (2.0 * PI / (n as real))
  }

  /** The radius `50 * (1 + (u - 0.5) * wobbleFactor)` of a vertex whose jitter is drawn as `u`. */
  function PathRadius(o: Options, u: real): real {
    50.0 * (1.0 + (u - 0.5) * o.wobbleFactor)
  }

  /** Vertex `i` of an outline whose radius jitter is drawn as `u`: at angle
      `i * 2*PI/wobblePoints` around (50, 50), at radius
      `50 * (1 + (u - 0.5) * wobbleFactor)`. */
  function PathVertex(m: RealMath, o: Options, u: real, i: nat): Point
    requires i < o.wobblePoints
  {
    var angle := PathAngle(o.wobblePoints, i);
    var r := PathRadius(o, u);
    Point(50.0 + r * Cos(m, angle), 50.0 + r * Sin(m, angle))
  }

  /** The outline drawn from draw `c` on: vertex `i` uses draw `c + i`. */
  function BubblePath(m: RealMath, o: Options, rand: Random, c: nat): (path: seq<Point>)
    ensures |path| == o.wobblePoints
  {
    seq(o.wobblePoints, i requires 0 <= i < o.wobblePoints => PathVertex(m, o, rand(c + i), i))
  }

  /** Every vertex of an outline lies within the wobble band around (50, 50),
      and on the circle of radius 50 when there is no wobble. */
  lemma BubblePathBand(m: RealMath, o: Options, rand: Random, c: nat)
    requires Lawful(m) && UnitStream(rand)
    ensures 0.0 <= o.wobbleFactor <= 2.0 ==>
              forall k :: 0 <= k < o.wobblePoints ==>
                50.0 * (1.0 - o.wobbleFactor / 2.0) <= Dist(m, Point(50.0, 50.0), BubblePath(m, o, rand, c)[k])
                                                   <= 50.0 * (1.0 + o.wobbleFactor / 2.0)
    ensures o.wobbleFactor == 0.0 ==>
              forall k :: 0 <= k < o.wobblePoints ==> Dist(m, Point(50.0, 50.0), BubblePath(m, o, rand, c)[k]) == 50.0
  {
    forall k | 0 <= k < o.wobblePoints
      ensures 0.0 <= o.wobbleFactor <= 2.0 ==>
                50.0 * (1.0 - o.wobbleFactor / 2.0) <= Dist(m, Point(50.0, 50.0), BubblePath(m, o, rand, c)[k])
                                                   <= 50.0 * (1.0 + o.wobbleFactor / 2.0)
      ensures o.wobbleFactor == 0.0 ==> Dist(m, Point(50.0, 50.0), BubblePath(m, o, rand, c)[k]) == 50.0
    {
      PathVertexBand(m, o, rand(c + k), k);
    }
  }

  /** One vertex lies within the wobble band around (50, 50). */
  lemma PathVertexBand(m: RealMath, o: Options, u: real, i: nat)
    requires Lawful(m) && 0.0 <= u < 1.0 && i < o.wobblePoints
    ensures 0.0 <= o.wobbleFactor <= 2.0 ==>
              50.0 * (1.0 - o.wobbleFactor / 2.0) <= Dist(m, Point(50.0, 50.0), PathVertex(m, o, u, i))
                                                 <= 50.0 * (1.0 + o.wobbleFactor / 2.0)
    ensures o.wobbleFactor == 0.0 ==> Dist(m, Point(50.0, 50.0), PathVertex(m, o, u, i)) == 50.0
  {
    if 0.0 <= o.wobbleFactor <= 2.0 {
      PathRadiusBand(o, u);
      VertexDistance(m, o, u, i);
    }
  }

  /** The jittered radius lies in the wobble band. */
  lemma PathRadiusBand(o: Options, u: real)
    requires 0.0 <= u < 1.0 && 0.0 <= o.wobbleFactor <= 2.0
    ensures 50.0 * (1.0 - o.wobbleFactor / 2.0) <= PathRadius(o, u) <= 50.0 * (1.0 + o.wobbleFactor / 2.0)
    ensures o.wobbleFactor == 0.0 ==> PathRadius(o, u) == 50.0
  {
    var w := o.wobbleFactor;
    var d := (u - 0.5) * w;
    MulMonotone(0.0, u, w);
    MulMonotone(0.0, 1.0 - u, w);
    assert d == u * w - 0.5 * w;
    assert d == 0.5 * w - (1.0 - u) * w;
    assert PathRadius(o, u) == 50.0 * (1.0 + d);
  }

  /** A vertex lies at its jittered radius from (50, 50). */
  lemma VertexDistance(m: RealMath, o: Options, u: real, i: nat)
    requires Lawful(m) && i < o.wobblePoints
    requires 0.0 <= PathRadius(o, u)
    ensures Dist(m, Point(50.0, 50.0), PathVertex(m, o, u, i)) == PathRadius(o, u)
  {
    PolarDistance(m, Point(50.0, 50.0), PathRadius(o, u), PathAngle(o.wobblePoints, i));
  }

  /** `generateBubblePath`, as the list of polygon vertices in percent of the
      bubble's box: `wobblePoints` points around (50, 50) at evenly spaced
      angles, vertex `i` at radius `50 * (1 + (random - 0.5) * wobbleFactor)`
      with the draw at `c + i`. */
  method GenerateBubblePath(m: RealMath, o: Options, rand: Random, c: nat) returns (path: seq<Point>, next: nat)
    requires Lawful(m) && UnitStream(rand)
    ensures path == BubblePath(m, o, rand, c)
    ensures |path| == o.wobblePoints && next == c + o.wobblePoints
    ensures 0.0 <= o.wobbleFactor <= 2.0 ==>
              forall k :: 0 <= k < |path| ==>
                50.0 * (1.0 - o.wobbleFactor / 2.0) <= Dist(m, Point(50.0, 50.0), path[k]) <= 50.0 * (1.0 + o.wobbleFactor / 2.0)
    ensures o.wobbleFactor == 0.0 ==> forall k :: 0 <= k < |path| ==> Dist(m, Point(50.0, 50.0), path[k]) == 50.0
  {
    var numPoints := o.wobblePoints;
    var wobbleFactor := o.wobbleFactor;
    path := [];
    var i := 0;
    while i < numPoints
      invariant 0 <= i <= numPoints
      invariant |path| == i
      invariant forall k :: 0 <= k < i ==> path[k] == PathVertex(m, o, rand(c + k), k)
    {
      var angleStep := 2.0 * PI / (numPoints as real);
      var angle := (i as real) * angleStep;
      var randomFactor := 1.0 + (rand(c + i) - 0.5) * wobbleFactor;
      var r := 50.0 * randomFactor;
      var x := 50.0 + r * Cos(m, angle);
      var y := 50.0 + r * Sin(m, angle);
      assert angle == PathAngle(numPoints, i);
      assert Point(x, y) == PathVertex(m, o, rand(c + i), i);
      path := path + [Point(x, y)];
      i := i + 1;
    }
    next := c + numPoints;
    assert path == BubblePath(m, o, rand, c);
    BubblePathBand(m, o, rand, c);
  }

  // ---------------------------------------------------------------------------
  // The layout

  /** The bubble `j` is at least the collision distance away from the earlier bubble `i`. */
  predicate Apart(m: RealMath, o: Options, earlier: Bubble, later: Bubble) {
    Separated(m, o, later.centerX, later.centerY, later.size, earlier)
  }

  /** A kept bubble: inside the padded box, sized from its value with the
      scale factor `scale`, with a full outline. */
  ghost predicate Placed(m: RealMath, o: Options, scale: real, b: Bubble) {
    && InsidePaddedBox(o, b.centerX, b.centerY, b.size)
    && b.size == CalculateBubbleSize(m, o, b.value, scale)
    && |b.path| == o.wobblePoints
  }

  /** The bubble `b` (or its absence) and the cursor `next` are what one
      round of `generateBubbles` gives the entry `e` among the bubbles `kept`,
      drawing from `c` on: a bubble exactly when some candidate of its spiral
      fits, centred on the first that does, with its outline drawn after the
      search. */
  ghost predicate Placement(m: RealMath, o: Options, e: Entry, scale: real, kept: seq<Bubble>, rand: Random, c: nat,
                            b: Option<Bubble>, next: nat)
    requires 0.0 < o.minBubbleSize
  {
    var size := CalculateBubbleSize(m, o, e.value, scale);
    var found := Outcome(Fits(m, o, size, kept), Spiral(m, o, size, rand, c), c);
    && (b.Some? ==> found.0.Some? && Point(b.value.centerX, b.value.centerY) == found.0.value &&
                    b.value.path == BubblePath(m, o, rand, found.1) && next == found.1 + o.wobblePoints)
    && (b.None? ==> found.0.None? && next == found.1)
  }

  /** What a round's record means: a kept bubble sits on the first candidate of
      its spiral that fits among the bubbles kept before it, and a dropped entry
      had no candidate that fits. */
  lemma PlacementMeaning(m: RealMath, o: Options, e: Entry, scale: real, kept: seq<Bubble>, rand: Random, c: nat,
                         b: Option<Bubble>, next: nat)
    requires 0.0 < o.minBubbleSize
    requires Placement(m, o, e, scale, kept, rand, c, b, next)
    ensures var size := CalculateBubbleSize(m, o, e.value, scale);
            var k := FirstFit(Fits(m, o, size, kept), Spiral(m, o, size, rand, c));
            && (b.Some? ==>
                  && k < |Spiral(m, o, size, rand, c)|
                  && Point(b.value.centerX, b.value.centerY) == Spiral(m, o, size, rand, c)[k]
                  && IsPositionValid(m, o, b.value.centerX, b.value.centerY, size, kept)
                  && b.value.path == BubblePath(m, o, rand, c + 2 * (k + 1))
                  && next == c + 2 * (k + 1) + o.wobblePoints)
            && (b.None? ==> NoFit(m, o, size, kept, rand, c) && next == c + 2 * |Spiral(m, o, size, rand, c)|)
  {
    var size := CalculateBubbleSize(m, o, e.value, scale);
    OutcomeMeaning(Fits(m, o, size, kept), Spiral(m, o, size, rand, c), c);
  }

  /** One round of the loop of `generateBubbles`: the entry `e` sized with
      `scale`, and, when the spiral search finds it a place clear of the
      bubbles kept so far, its bubble with a fresh outline. */
  method PlaceBubble(m: RealMath, o: Options, e: Entry, scale: real, kept: seq<Bubble>, rand: Random, c: nat)
    returns (b: Option<Bubble>, next: nat)
    requires Lawful(m) && UnitStream(rand)
    requires 0.0 < o.minBubbleSize
    ensures c <= next
    ensures Placement(m, o, e, scale, kept, rand, c, b, next)
    ensures b.Some? ==>
              && b.value.emotion == e.emotion && b.value.value == e.value
              && Placed(m, o, scale, b.value)
              && forall i :: 0 <= i < |kept| ==> Apart(m, o, kept[i], b.value)
  {
    var size := CalculateBubbleSize(m, o, e.value, scale);
    var position;
    position, next := FindAvailablePosition(m, o, size, kept, rand, c);
    if position.Some? {
      var path;
      path, next := GenerateBubblePath(m, o, rand, next);
      return Some(Bubble(e.emotion, e.value, size, position.value.x, position.value.y, path)), next;
    }
    return None, next;
  }

  /** `generateBubbles`: size every entry, sort by descending value, and keep
      each bubble for which the spiral search finds a place. */
  method GenerateBubbles(m: RealMath, o: Options, data: Option<seq<Entry>>, rand: Random, c: nat)
    returns (bubbles: seq<Bubble>, next: nat, ghost picked: seq<nat>, ghost tried: seq<nat>, ghost placed: seq<Option<Bubble>>)
    requires Lawful(m) && UnitStream(rand)
    requires 0.0 < o.minBubbleSize
    requires data.Some? ==> forall k :: 0 <= k < |data.value| ==> 0.0 <= data.value[k].value
    ensures data.None? || data.value == [] ==> bubbles == []
    ensures data.Some? && TotalValue(data.value) == 0.0 ==> bubbles == []
    ensures data.Some? ==> |bubbles| <= |data.value|
    ensures |picked| == |bubbles|
    ensures forall i, j :: 0 <= i < j < |picked| ==> picked[i] < picked[j]
    ensures data.Some? ==>
              forall k :: 0 <= k < |picked| ==>
                picked[k] < |data.value| &&
                bubbles[k].emotion == SortDesc(data.value)[picked[k]].emotion &&
                bubbles[k].value == SortDesc(data.value)[picked[k]].value
    ensures forall i, j :: 0 <= i < j < |bubbles| ==> bubbles[j].value <= bubbles[i].value
    ensures forall k :: 0 <= k < |bubbles| ==>
              && InsidePaddedBox(o, bubbles[k].centerX, bubbles[k].centerY, bubbles[k].size)
              && o.minBubbleSize <= bubbles[k].size
              && (o.minBubbleSize <= o.maxBubbleSize ==> bubbles[k].size <= o.maxBubbleSize)
              && |bubbles[k].path| == o.wobblePoints
    ensures data.Some? && TotalValue(data.value) != 0.0 ==>
              forall k :: 0 <= k < |bubbles| ==>
                bubbles[k].size == CalculateBubbleSize(m, o, bubbles[k].value, ScaleFactor(o, data.value))
    ensures forall i, j :: 0 <= i < j < |bubbles| ==> Apart(m, o, bubbles[i], bubbles[j])
    // Round `k` places entry `k` of the sorted data, or drops it, among the
    // bubbles kept by the earlier rounds, drawing from `tried[k]` on.
    ensures data.Some? && TotalValue(data.value) != 0.0 ==>
              && |tried| == |data.value| + 1 && |placed| == |data.value|
              && tried[0] == c && tried[|data.value|] == next && bubbles == Kept(placed)
              && forall k :: 0 <= k < |data.value| ==>
                   Placement(m, o, SortDesc(data.value)[k], ScaleFactor(o, data.value), Kept(placed[..k]), rand,
                             tried[k], placed[k], tried[k + 1])
  {
    bubbles, next, picked, tried, placed := [], c, [], [], [];
    if data.None? || |data.value| == 0 {
      return;
    }
    var entries := data.value;
    var containerArea := o.width * o.height;
    var targetTotalArea := containerArea * 0.8;
    var totalValue := TotalValue(entries);
    if totalValue == 0.0 {
      // Every value is 0: `0 * Infinity` makes every size NaN and no position is found.
      return;
    }
    var scaleFactor := targetTotalArea / totalValue;
    assert targetTotalArea == o.width * o.height * 0.8;
    assert scaleFactor == ScaleFactor(o, entries);
    var sortedEntries := SortDesc(entries);
    SortDescSorted(entries);
    bubbles, next, picked, tried, placed := PlaceAll(m, o, sortedEntries, scaleFactor, rand, c);
    forall i, j | 0 <= i < j < |bubbles| ensures bubbles[j].value <= bubbles[i].value {
      assert picked[i] < picked[j];
    }
  }

  /** The record of the first `|placed|` rounds of the loop of `generateBubbles`
      over `es`: round `i` placed `es[i]` or dropped it (`placed[i]`) among the
      bubbles kept by the earlier rounds, drawing from `tried[i]` on; `bubbles`
      are the kept ones, in order, bubble `i` from entry `picked[i]`, each placed
      inside the box and clear of the others. */
  ghost predicate Rounds(m: RealMath, o: Options, es: seq<Entry>, scale: real, rand: Random, c: nat,
                         bubbles: seq<Bubble>, next: nat, picked: seq<nat>, tried: seq<nat>, placed: seq<Option<Bubble>>)
    requires 0.0 < o.minBubbleSize
  {
    && |placed| <= |es| && |picked| == |bubbles|
    && (forall i, j :: 0 <= i < j < |picked| ==> picked[i] < picked[j])
    && (forall i :: 0 <= i < |picked| ==>
          picked[i] < |placed| && bubbles[i].emotion == es[picked[i]].emotion && bubbles[i].value == es[picked[i]].value)
    && (forall i :: 0 <= i < |bubbles| ==> Placed(m, o, scale, bubbles[i]))
    && (forall i, j :: 0 <= i < j < |bubbles| ==> Apart(m, o, bubbles[i], bubbles[j]))
    && |tried| == |placed| + 1 && tried[0] == c && tried[|placed|] == next
    && bubbles == Kept(placed)
    && forall i :: 0 <= i < |placed| ==>
         Placement(m, o, es[i], scale, Kept(placed[..i]), rand, tried[i], placed[i], tried[i + 1])
  }

  /** The body of the loop of `generateBubbles`: round `|placed|`, on entry
      `es[|placed|]`, extends the record by one round. */
  method NextRound(m: RealMath, o: Options, es: seq<Entry>, scale: real, rand: Random, c: nat, k: nat,
                   bubbles: seq<Bubble>, next: nat, ghost picked: seq<nat>, ghost tried: seq<nat>,
                   ghost placed: seq<Option<Bubble>>)
    returns (bubbles': seq<Bubble>, next': nat, ghost picked': seq<nat>, ghost tried': seq<nat>,
             ghost placed': seq<Option<Bubble>>)
    requires Lawful(m) && UnitStream(rand)
    requires 0.0 < o.minBubbleSize
    requires k == |placed| < |es| && Rounds(m, o, es, scale, rand, c, bubbles, next, picked, tried, placed)
    ensures |placed'| == |placed| + 1 && Rounds(m, o, es, scale, rand, c, bubbles', next', picked', tried', placed')
  {
    var kept;
    kept, next' := PlaceBubble(m, o, es[k], scale, bubbles, rand, next);
    bubbles', picked' := bubbles, picked;
    if kept.Some? {
      LayoutSnoc(m, o, scale, bubbles, kept.value);
      PickedSnoc(es, bubbles, picked, k, kept.value);
      bubbles' := bubbles + [kept.value];
      picked' := picked + [k];
    }
    KeptSnoc(placed, kept);
    PlacementsSnoc(m, o, es, scale, rand, placed, tried, kept, next');
    placed' := placed + [kept];
    tried' := tried + [next'];
  }

  /** The loop of `generateBubbles`: one round of `PlaceBubble` per entry of
      `es`, in order, each among the bubbles kept so far. */
  method PlaceAll(m: RealMath, o: Options, es: seq<Entry>, scale: real, rand: Random, c: nat)
    returns (bubbles: seq<Bubble>, next: nat, ghost picked: seq<nat>, ghost tried: seq<nat>, ghost placed: seq<Option<Bubble>>)
    requires Lawful(m) && UnitStream(rand)
    requires 0.0 < o.minBubbleSize
    ensures |placed| == |es| && Rounds(m, o, es, scale, rand, c, bubbles, next, picked, tried, placed)
  {
    bubbles, next, picked, tried, placed := [], c, [], [c], [];
    var k := 0;
    while k < |es|
      invariant k == |placed| <= |es|
      invariant Rounds(m, o, es, scale, rand, c, bubbles, next, picked, tried, placed)
    {
      bubbles, next, picked, tried, placed := NextRound(m, o, es, scale, rand, c, k, bubbles, next, picked, tried, placed);
      k := k + 1;
    }
  }

  /** Appending a placed bubble clear of all the others keeps the layout's invariant. */
  lemma LayoutSnoc(m: RealMath, o: Options, scale: real, bubbles: seq<Bubble>, b: Bubble)
    requires forall i :: 0 <= i < |bubbles| ==> Placed(m, o, scale, bubbles[i])
    requires forall i, j :: 0 <= i < j < |bubbles| ==> Apart(m, o, bubbles[i], bubbles[j])
    requires Placed(m, o, scale, b)
    requires forall i :: 0 <= i < |bubbles| ==> Apart(m, o, bubbles[i], b)
    ensures forall i :: 0 <= i < |bubbles| + 1 ==> Placed(m, o, scale, (bubbles + [b])[i])
    ensures forall i, j :: 0 <= i < j < |bubbles| + 1 ==> Apart(m, o, (bubbles + [b])[i], (bubbles + [b])[j])
  {
    assert forall i :: 0 <= i < |bubbles| ==> (bubbles + [b])[i] == bubbles[i];
  }

  /** Keeping the bubble `b` of entry `k` keeps `picked` increasing and each
      kept bubble tied to its entry. */
  lemma PickedSnoc(es: seq<Entry>, bubbles: seq<Bubble>, picked: seq<nat>, k: nat, b: Bubble)
    requires k < |es| && |picked| == |bubbles|
    requires forall i, j :: 0 <= i < j < |picked| ==> picked[i] < picked[j]
    requires forall i :: 0 <= i < |picked| ==>
               picked[i] < k && bubbles[i].emotion == es[picked[i]].emotion && bubbles[i].value == es[picked[i]].value
    requires b.emotion == es[k].emotion && b.value == es[k].value
    ensures forall i, j :: 0 <= i < j < |picked| + 1 ==> (picked + [k])[i] < (picked + [k])[j]
    ensures forall i :: 0 <= i < |picked| + 1 ==>
              (picked + [k])[i] < k + 1 && (bubbles + [b])[i].emotion == es[(picked + [k])[i]].emotion &&
              (bubbles + [b])[i].value == es[(picked + [k])[i]].value
  {
    assert forall i :: 0 <= i < |picked| ==> (picked + [k])[i] == picked[i] && (bubbles + [b])[i] == bubbles[i];
  }

  /** Recording round `|rounds|` keeps the record of the earlier rounds. */
  lemma PlacementsSnoc(m: RealMath, o: Options, es: seq<Entry>, scale: real, rand: Random,
                       rounds: seq<Option<Bubble>>, tried: seq<nat>, r: Option<Bubble>, next: nat)
    requires 0.0 < o.minBubbleSize
    requires |rounds| < |es| && |tried| == |rounds| + 1
    requires forall i :: 0 <= i < |rounds| ==>
               Placement(m, o, es[i], scale, Kept(rounds[..i]), rand, tried[i], rounds[i], tried[i + 1])
    requires Placement(m, o, es[|rounds|], scale, Kept(rounds), rand, tried[|rounds|], r, next)
    ensures forall i :: 0 <= i < |rounds| + 1 ==>
              Placement(m, o, es[i], scale, Kept((rounds + [r])[..i]), rand, (tried + [next])[i], (rounds + [r])[i],
                        (tried + [next])[i + 1])
  {
    PrefixesOfSnoc(rounds, r);
    forall i | 0 <= i < |rounds| + 1
      ensures Placement(m, o, es[i], scale, Kept((rounds + [r])[..i]), rand, (tried + [next])[i], (rounds + [r])[i],
                        (tried + [next])[i + 1])
    {
      if i < |rounds| {
        assert (rounds + [r])[i] == rounds[i] && (tried + [next])[i] == tried[i] && (tried + [next])[i + 1] == tried[i + 1];
      }
    }
  }

  /** The bubbles of the rounds that kept one, in order. */
  function Kept(rounds: seq<Option<Bubble>>): (bs: seq<Bubble>)
    ensures |bs| <= |rounds|
  {
    if rounds == [] then []
    else
      var last := rounds[|rounds| - 1];
      Kept(rounds[..|rounds| - 1]) + (if last.Some? then [last.value] else [])
  }

  lemma KeptSnoc(rounds: seq<Option<Bubble>>, r: Option<Bubble>)
    ensures Kept(rounds + [r]) == Kept(rounds) + (if r.Some? then [r.value] else [])
  {
    assert (rounds + [r])[..|rounds|] == rounds;
  }

  lemma PrefixesOfSnoc(rounds: seq<Option<Bubble>>, r: Option<Bubble>)
    ensures forall i :: 0 <= i <= |rounds| ==> (rounds + [r])[..i] == rounds[..i]
    ensures (rounds + [r])[..|rounds|] == rounds
  {
  }
}
