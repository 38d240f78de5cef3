/** The stacked category bar chart: the plot area inside the padding, the
    stacked bar geometry, the grow-in animation, the touch hit-test with its
    tooltip, and the rounded-rectangle radius clamp. */
module CategoryBars {
  import opened Geometry

  /** The padding around the plot area. */
  datatype Padding = Padding(top: real, right: real, bottom: real, left: real)

  const DefaultPadding: Padding := Padding(40.0, 20.0, 60.0, 60.0)

  /** The plot area (`chartArea`), in canvas coordinates. */
  datatype Area = Area(x: real, y: real, width: real, height: real)

  /** One series: a name, a colour and one percentage per category;
      `data` is `None` where the series has no data array. */
  datatype Series = Series(name: string, color: string, data: Option<seq<real>>)

  datatype ChartData = ChartData(categories: seq<string>, series: seq<Series>)

  datatype Tooltip = Tooltip(visible: bool, x: real, y: real, text: string)

  // ---------------------------------------------------------------------
  // Chart area

  /** The chart area of the constructor and of `resize`: it starts after the
      left and top padding and leaves the right and bottom padding free. */
  function ChartAreaOf(width: real, height: real, p: Padding): (a: Area)
    ensures a.x == p.left && a.y == p.top
    ensures a.x + a.width + p.right == width && a.y + a.height + p.bottom == height
  {
    Area(p.left, p.top, width - p.left - p.right, height - p.top - p.bottom)
  }

  /** The area depends on nothing but the size and the padding. */
  lemma ChartAreaDetermined(width: real, height: real, p: Padding, a: Area)
    requires a.x == p.left && a.y == p.top
    requires a.x + a.width + p.right == width && a.y + a.height + p.bottom == height
    ensures a == ChartAreaOf(width, height, p)
  {
  }

  // ---------------------------------------------------------------------
  // Tooltip text

  /** The items joined with `sep`, built the way the tooltip loop builds
      them: the separator goes before every item but the first. */
  function Join(sep: string, items: seq<string>): string {
    if |items| == 0 then ""
    else if |items| == 1 then items[0]
    else Join(sep, items[..|items| - 1]) + sep + items[|items| - 1]
  }

  /** The same join, folded from the front: an independent definition. */
  function JoinFromFront(sep: string, items: seq<string>): string {
    if |items| == 0 then ""
    else if |items| == 1 then items[0]
    else items[0] + sep + JoinFromFront(sep, items[1..])
  }

  /** Building from the back and from the front give the same string. */
  lemma {:induction false} JoinAgrees(sep: string, items: seq<string>)
    ensures Join(sep, items) == JoinFromFront(sep, items)
    decreases |items|
  {
    if |items| >= 3 {
      var n := |items|;
      var init := items[..n - 1];
      JoinAgrees(sep, init);
      JoinAgrees(sep, items[1..]);
      JoinAgrees(sep, init[1..]);
      JoinAgrees(sep, items[1..][..n - 2]);
      assert init[1..] == items[1..][..n - 2];
      assert items[1..][n - 2] == items[n - 1];
      assert init[0] == items[0];
    } else if |items| == 2 {
      assert items[..1] == [items[0]];
      assert items[1..] == [items[1]];
    }
  }

  /** The text of `serie.data[i]` in the tooltip: the host's number to
      string conversion, or `undefined` past the end of the array. */
  function ValueText(values: seq<real>, i: nat, show: real -> string): string {
    if i < |values| then show(values[i]) else "undefined"
  }

  /** Every series has a data array. */
  predicate HasData(series: seq<Series>) {
    forall k :: 0 <= k < |series| ==> series[k].data.Some?
  }

  /** `serie.name + ' ' + serie.data[i] + '%'`. */
  function EntryOf(serie: Series, i: nat, show: real -> string): string
    requires serie.data.Some?
  {
    serie.name + " " + ValueText(serie.data.value, i, show) + "%"
  }

  /** The entry of each series, in order. */
  function Entries(series: seq<Series>, i: nat, show: real -> string): (es: seq<string>)
    requires HasData(series)
    ensures |es| == |series|
    ensures forall k :: 0 <= k < |series| ==> es[k] == EntryOf(series[k], i, show)
  {
    if |series| == 0 then []
    else Entries(series[..|series| - 1], i, show) + [EntryOf(series[|series| - 1], i, show)]
  }

  /** The tooltip text for category `i`: the category, `": "`, and the
      entries of the series separated by `", "`; `None` when a series has no
      data array, where the loop throws. */
  function TooltipText(category: string, series: seq<Series>, i: nat, show: real -> string): (r: Option<string>)
    ensures r.Some? <==> HasData(series)
    ensures HasData(series) ==> r.value == category + ": " + JoinFromFront(", ", Entries(series, i, show))
  {
    if HasData(series) then
      JoinAgrees(", ", Entries(series, i, show));
      Some(category + ": " + Join(", ", Entries(series, i, show)))
    else None
  }

  /** Appending an item to a join appends the separator and the item. */
  lemma {:induction false} JoinSnoc(sep: string, items: seq<string>, x: string)
    ensures Join(sep, items + [x]) == if |items| == 0 then x else Join(sep, items) + sep + x
  {
    assert (items + [x])[..|items|] == items;
  }

  /** The entries of one more series are the entries before and its own. */
  lemma {:induction false} EntriesSnoc(series: seq<Series>, index: nat, i: nat, show: real -> string)
    requires index < |series| && HasData(series[..index]) && series[index].data.Some?
    ensures HasData(series[..index + 1])
    ensures Entries(series[..index + 1], i, show) == Entries(series[..index], i, show) + [EntryOf(series[index], i, show)]
  {
    assert series[..index + 1][..index] == series[..index];
  }

  lemma Associate(head: string, joined: string, sep: string, entry: string)
    ensures head + joined + sep + entry == head + (joined + sep + entry)
  {
  }

  /** The built text, or the text before when building it threw. */
  function TextOr(text: Option<string>, before: string): string {
    if text.Some? then text.value else before
  }

  /** The loop of `handleTouch` that builds the tooltip text. */
  method BuildTooltipText(category: string, series: seq<Series>, i: nat, show: real -> string)
    returns (r: Option<string>)
    ensures r == TooltipText(category, series, i, show)
  {
    var text := category + ": ";
    ghost var entries: seq<string> := [];
    var index := 0;
    assert series[..0] == [];
    while index < |series|
      invariant 0 <= index <= |series|
      invariant HasData(series[..index]) && entries == Entries(series[..index], i, show)
      invariant text == category + ": " + Join(", ", entries)
    {
      var serie := series[index];
      if serie.data.None? {
        assert !HasData(series);
        return None;
      }
      var entry := serie.name + " " + ValueText(serie.data.value, i, show) + "%";
      EntriesSnoc(series, index, i, show);
      JoinSnoc(", ", entries, entry);
      if index > 0 {
        Associate(category + ": ", Join(", ", entries), ", ", entry);
        text := text + ", ";
      }
      entries := entries + [entry];
      text := text + entry;
      index := index + 1;
    }
    assert series[..|series|] == series;
    r := Some(text);
  }

  // ---------------------------------------------------------------------
  // Touch

  /** The interaction state: the highlighted category (-1 for none) and the tooltip. */
  datatype Touch = Touch(activeCategory: int, tooltip: Tooltip)

  predicate Inside(a: Area, x: real, y: real) {
    a.x <= x <= a.x + a.width && a.y <= y <= a.y + a.height
  }

  /** The tooltip is shown exactly when a category is highlighted. */
  predicate Consistent(t: Touch) {
    -1 <= t.activeCategory && (t.tooltip.visible <==> 0 <= t.activeCategory)
  }

  /** `clearTouch()`, and a touch outside the chart area: no category, the
      tooltip hidden (its position and text stay). */
  function Cleared(t: Touch): (r: Touch)
    ensures r.activeCategory == -1 && !r.tooltip.visible
    ensures r.tooltip == t.tooltip.(visible := false)
  {
    Touch(-1, t.tooltip.(visible := false))
  }

  /** The width of one category column. */
  function ColumnWidth(a: Area, n: nat): real
    requires n > 0
  {
    a.width / n as real
  }

  /** The column under `x`: `floor((x - chartArea.x) / barWidth)`. */
  function ColumnAt(a: Area, n: nat, x: real): int
    requires n > 0 && a.width != 0.0
  {
    ((x - a.x) / ColumnWidth(a, n)).Floor
  }

  /** `handleTouch(x, y)`. Outside the chart area it clears. Inside, with no
      categories or a zero-wide area, the host computes an infinite or NaN
      index and nothing changes. Otherwise the column under `x`, when it is
      one of the categories, is highlighted with the tooltip over its
      centre; where a series has no data the text loop throws after the
      index and position are set, so the old text stays. */
  function TouchAt(a: Area, d: ChartData, t: Touch, x: real, y: real, show: real -> string): (r: Touch)
    ensures !Inside(a, x, y) ==> r == Cleared(t)
  {
    var n := |d.categories|;
    if !Inside(a, x, y) then Cleared(t)
    else if n == 0 || a.width == 0.0 then t
    else
      var i := ColumnAt(a, n, x);
      if 0 <= i < n then Highlight(a, d, t, i, show) else t
  }

  /** Category `i` highlighted: the tooltip shown over the centre of its
      column at the top of the area, with its text. */
  function Highlight(a: Area, d: ChartData, t: Touch, i: nat, show: real -> string): (r: Touch)
    requires i < |d.categories|
    ensures r.activeCategory == i && r.tooltip.visible && r.tooltip.y == a.y
  {
    var text := TooltipText(d.categories[i], d.series, i, show);
    Touch(i, Tooltip(true, a.x + ColumnWidth(a, |d.categories|) * (i as real + 0.5), a.y, TextOr(text, t.tooltip.text)))
  }

  /** Left of the right edge of a non-empty chart, the column under `x` is
      one of the categories and contains `x`. */
  lemma ColumnContains(a: Area, n: nat, x: real)
    requires n > 0 && 0.0 < a.width && a.x <= x < a.x + a.width
    ensures 0 <= ColumnAt(a, n, x) < n
    ensures a.x + ColumnWidth(a, n) * ColumnAt(a, n, x) as real <= x
    ensures x < a.x + ColumnWidth(a, n) * (ColumnAt(a, n, x) as real + 1.0)
  {
    ColumnWidthPositive(a, n);
    ColumnOfOffset(x - a.x, ColumnWidth(a, n), n);
  }

  /** The same bounds on the column index alone. */
  lemma ColumnInRange(a: Area, n: nat, x: real)
    requires n > 0 && 0.0 < a.width && a.x <= x < a.x + a.width
    ensures 0 <= ColumnAt(a, n, x) < n
  {
    ColumnContains(a, n, x);
  }

  /** A touch strictly left of the right edge of a non-empty chart highlights
      the category whose column contains `x`, with the tooltip centred over
      it at the top of the area and the text of that category (the old text
      when a series has no data). */
  lemma TouchPicksColumn(a: Area, d: ChartData, t: Touch, x: real, y: real, show: real -> string)
    requires Inside(a, x, y) && x < a.x + a.width
    requires |d.categories| > 0 && 0.0 < a.width
    ensures 0 <= ColumnAt(a, |d.categories|, x) < |d.categories|
    ensures TouchAt(a, d, t, x, y, show) == Highlight(a, d, t, ColumnAt(a, |d.categories|, x), show)
  {
    ColumnInRange(a, |d.categories|, x);
  }

  /** What a highlight shows: the tooltip over the centre of the column, and
      the text of the category (the old text when a series has no data). */
  lemma HighlightShows(a: Area, d: ChartData, t: Touch, i: nat, show: real -> string)
    requires i < |d.categories|
    ensures Highlight(a, d, t, i, show).tooltip.x == a.x + ColumnWidth(a, |d.categories|) * (i as real + 0.5)
    ensures HasData(d.series) ==>
      Highlight(a, d, t, i, show).tooltip.text == d.categories[i] + ": " + JoinFromFront(", ", Entries(d.series, i, show))
    ensures !HasData(d.series) ==> Highlight(a, d, t, i, show).tooltip.text == t.tooltip.text
  {
  }

  /** A positive area has positive columns that add up to its width. */
  lemma ColumnWidthPositive(a: Area, n: nat)
    requires n > 0 && 0.0 < a.width
    ensures 0.0 < ColumnWidth(a, n) && ColumnWidth(a, n) * n as real == a.width
  {
    var w := ColumnWidth(a, n);
    assert w * n as real == a.width;
    if w <= 0.0 {
      MulMonotone(w, 0.0, n as real);
    }
  }

  /** An offset into `n` columns of width `w` lies in the column its
      quotient by `w` rounds down to. */
  lemma ColumnOfOffset(off: real, w: real, n: nat)
    requires 0.0 < w && 0.0 <= off < w * n as real
    ensures 0 <= (off / w).Floor < n
    ensures w * (off / w).Floor as real <= off < w * ((off / w).Floor as real + 1.0)
  {
    var q := off / w;
    assert q * w == off;
    var i := q.Floor;
    assert i as real <= q < i as real + 1.0;
    assert 0 <= i by {
      if q < 0.0 {
        MulStrict(q, 0.0, w);
      }
    }
    assert i < n by {
      if q >= n as real {
        MulMonotone(n as real, q, w);
      }
    }
    assert w * i as real <= off by {
      MulMonotone(i as real, q, w);
    }
    ColumnUpper(off, w);
  }

  /** An offset lies below the end of the column its quotient rounds down to. */
  lemma ColumnUpper(off: real, w: real)
    requires 0.0 < w
    ensures off < w * ((off / w).Floor as real + 1.0)
  {
    var q := off / w;
    assert q * w == off;
    var hi := q.Floor as real + 1.0;
    MulStrict(q, hi, w);
    assert off < hi * w;
  }

  /** A touch on the right edge computes index `n`, which is not a category:
      nothing changes. */
  lemma TouchRightEdge(a: Area, d: ChartData, t: Touch, y: real, show: real -> string)
    requires Inside(a, a.x + a.width, y)
    requires |d.categories| > 0 && 0.0 < a.width
    ensures TouchAt(a, d, t, a.x + a.width, y, show) == t
  {
    var n := |d.categories|;
    var w := ColumnWidth(a, n);
    ColumnWidthPositive(a, n);
    var q := (a.x + a.width - a.x) / w;
    assert q * w == n as real * w;
    if q < n as real {
      MulStrict(q, n as real, w);
    } else if q > n as real {
      MulStrict(n as real, q, w);
    }
  }

  /** With no categories a touch inside changes nothing. */
  lemma TouchWithoutCategories(a: Area, d: ChartData, t: Touch, x: real, y: real, show: real -> string)
    requires Inside(a, x, y) && |d.categories| == 0
    ensures TouchAt(a, d, t, x, y, show) == t
  {
  }

  /** Touching keeps the highlight and the tooltip's visibility in step. */
  lemma TouchConsistent(a: Area, d: ChartData, t: Touch, x: real, y: real, show: real -> string)
    requires Consistent(t)
    ensures Consistent(TouchAt(a, d, t, x, y, show))
    ensures Consistent(Cleared(t))
  {
  }

  /** Clearing twice is clearing once, and clearing forgets the touch before. */
  lemma ClearedIdempotent(t: Touch, a: Area, d: ChartData, x: real, y: real, show: real -> string)
    ensures Cleared(Cleared(t)) == Cleared(t)
    ensures Cleared(TouchAt(a, d, t, x, y, show)).activeCategory == -1
  {
  }

  /** The steps of `handleTouch` on the interaction state. */
  method HandleTouchOf(area: Area, data: ChartData, t: Touch, x: real, y: real, show: real -> string)
    returns (r: Touch)
    ensures r == TouchAt(area, data, t, x, y, show)
  {
    var n := |data.categories|;
    if x < area.x || x > area.x + area.width || y < area.y || y > area.y + area.height {
      return Touch(-1, t.tooltip.(visible := false));
    }
    if n == 0 || area.width == 0.0 {
      return t;
    }
    var barWidth := area.width / n as real;
    var categoryIndex := ((x - area.x) / barWidth).Floor;
    r := t;
    if 0 <= categoryIndex < n {
      var tip := Tooltip(true, area.x + barWidth * (categoryIndex as real + 0.5), area.y, t.tooltip.text);
      var text := BuildTooltipText(data.categories[categoryIndex], data.series, categoryIndex, show);
      if text.Some? {
        tip := tip.(text := text.value);
      }
      r := Touch(categoryIndex, tip);
    }
  }

  // ---------------------------------------------------------------------
  // Bars

  /** One drawn rectangle of `drawBars`: its category and series, its
      position and size, its opacity and whether its value is written on it. */
  datatype Segment = Segment(
    category: nat,
    series: nat,
    x: real,
    top: real,
    width: real,
    height: real,
    alpha: real,
    labelled: bool)

  /** `(value / 100) * height * progress`. */
  function BarHeight(value: real, plotHeight: real, progress: real): real {
    value / 100.0 * plotHeight * progress
  }

  /** The left edge of the bars of category `ci`: a fifth of the column in. */
  function BarX(a: Area, n: nat, ci: nat): real
    requires n > 0
  {
    a.x + ColumnWidth(a, n) * ci as real + ColumnWidth(a, n) * 0.2
  }

  /** The bar width: the column less a fifth on each side. */
  function BarSpan(a: Area, n: nat): real
    requires n > 0
  {
    ColumnWidth(a, n) - ColumnWidth(a, n) * 0.2 * 2.0
  }

  /** A bar lies inside its own column. */
  lemma BarInColumn(a: Area, n: nat, ci: nat)
    requires n > 0 && 0.0 <= a.width
    ensures var w := ColumnWidth(a, n);
      a.x + w * ci as real <= BarX(a, n, ci) && BarX(a, n, ci) + BarSpan(a, n) <= a.x + w * (ci as real + 1.0)
      && 0.0 <= BarSpan(a, n)
  {
    var w := ColumnWidth(a, n);
    assert 0.0 <= w by {
      assert w * n as real == a.width;
      if w < 0.0 {
        MulMonotone(w, 0.0, n as real);
      }
    }
  }

  /** Series `j` has a value for category `ci`. */
  predicate HasValue(s: Series, ci: nat) {
    s.data.Some? && ci < |s.data.value|
  }

  /** The stack height after series `s`: raised by its bar when it has one. */
  function StackAfter(a: Area, s: Series, ci: nat, progress: real, stack: real): real {
    if HasValue(s, ci) then stack + BarHeight(s.data.value[ci], a.height, progress) else stack
  }

  /** The segments of category `ci` for the series from `j` on, stacked on a
      column already `stack` high; series without a value are skipped. */
  function ColumnFrom(a: Area, series: seq<Series>, n: nat, ci: nat, progress: real, active: int,
                      j: nat, stack: real): (segs: seq<Segment>)
    requires n > 0
    decreases |series| - j
  {
    if j >= |series| then []
    else if !HasValue(series[j], ci) then ColumnFrom(a, series, n, ci, progress, active, j + 1, stack)
    else
      var h := BarHeight(series[j].data.value[ci], a.height, progress);
      [Segment(ci, j, BarX(a, n, ci), a.y + a.height - stack - h, BarSpan(a, n), h,
               if ci as int == active then 1.0 else 0.8, h > 20.0)]
        + ColumnFrom(a, series, n, ci, progress, active, j + 1, stack + h)
  }

  /** One step of `ColumnFrom`: the segment of series `j`, if any, then the rest. */
  lemma {:induction false} ColumnStep(a: Area, series: seq<Series>, n: nat, ci: nat, progress: real, active: int,
                   j: nat, stack: real)
    requires n > 0 && j < |series|
    ensures var rest := ColumnFrom(a, series, n, ci, progress, active, j + 1, StackAfter(a, series[j], ci, progress, stack));
      var segs := ColumnFrom(a, series, n, ci, progress, active, j, stack);
      && (!HasValue(series[j], ci) ==> segs == rest)
      && (HasValue(series[j], ci) ==>
            && |segs| == |rest| + 1 && segs[1..] == rest
            && segs[0].series == j && segs[0].top + segs[0].height == a.y + a.height - stack
            && segs[0].top == a.y + a.height - StackAfter(a, series[j], ci, progress, stack))
  {
  }

  /** Each segment of the column belongs to category `ci` and to a later
      series that has a value there; it has that value's height, the bar's
      position and width, the opacity of the highlight, and a label exactly
      when it is taller than 20. */
  lemma {:induction false} ColumnSegments(a: Area, series: seq<Series>, n: nat, ci: nat, progress: real, active: int,
                                          j: nat, stack: real)
    requires n > 0
    ensures var segs := ColumnFrom(a, series, n, ci, progress, active, j, stack);
      forall k :: 0 <= k < |segs| ==>
        && segs[k].category == ci && j <= segs[k].series < |series|
        && HasValue(series[segs[k].series], ci)
        && segs[k].height == BarHeight(series[segs[k].series].data.value[ci], a.height, progress)
        && segs[k].x == BarX(a, n, ci) && segs[k].width == BarSpan(a, n)
        && segs[k].alpha == (if ci as int == active then 1.0 else 0.8)
        && segs[k].labelled == (segs[k].height > 20.0)
    decreases |series| - j
  {
    if j < |series| {
      var next := StackAfter(a, series[j], ci, progress, stack);
      ColumnSegments(a, series, n, ci, progress, active, j + 1, next);
      ColumnStep(a, series, n, ci, progress, active, j, stack);
      var segs := ColumnFrom(a, series, n, ci, progress, active, j, stack);
      var rest := ColumnFrom(a, series, n, ci, progress, active, j + 1, next);
      if HasValue(series[j], ci) {
        forall k | 1 <= k < |segs| ensures segs[k] == rest[k - 1] {
          assert segs[1..][k - 1] == segs[k];
        }
      }
    }
  }

  /** Every segment belongs to category `ci` and carries the opacity of the
      highlight: opaque when `ci` is the highlighted category. */
  predicate OfColumn(segs: seq<Segment>, ci: nat, active: int) {
    forall k :: 0 <= k < |segs| ==>
      segs[k].category == ci && segs[k].alpha == (if ci as int == active then 1.0 else 0.8)
  }

  /** The segments of a column all belong to it. */
  lemma {:induction false} ColumnCategory(a: Area, series: seq<Series>, n: nat, ci: nat, progress: real, active: int,
                                          j: nat, stack: real)
    requires n > 0
    ensures OfColumn(ColumnFrom(a, series, n, ci, progress, active, j, stack), ci, active)
    decreases |series| - j
  {
    if j < |series| {
      var next := StackAfter(a, series[j], ci, progress, stack);
      ColumnCategory(a, series, n, ci, progress, active, j + 1, next);
      ColumnStep(a, series, n, ci, progress, active, j, stack);
      var segs := ColumnFrom(a, series, n, ci, progress, active, j, stack);
      var rest := ColumnFrom(a, series, n, ci, progress, active, j + 1, next);
      if HasValue(series[j], ci) {
        forall k | 1 <= k < |segs| ensures segs[k] == rest[k - 1] {
          assert segs[1..][k - 1] == segs[k];
        }
      }
    }
  }

  /** The column stacks up: the first segment stands on the base, each later
      one on the top of the one before. */
  lemma {:induction false} ColumnStacks(a: Area, series: seq<Series>, n: nat, ci: nat, progress: real, active: int,
                                        j: nat, stack: real)
    requires n > 0
    ensures var segs := ColumnFrom(a, series, n, ci, progress, active, j, stack);
      && (|segs| > 0 ==> segs[0].top + segs[0].height == a.y + a.height - stack)
      && (forall k :: 0 <= k < |segs| - 1 ==> segs[k + 1].top + segs[k + 1].height == segs[k].top)
    decreases |series| - j
  {
    if j < |series| {
      var next := StackAfter(a, series[j], ci, progress, stack);
      ColumnStacks(a, series, n, ci, progress, active, j + 1, next);
      ColumnStep(a, series, n, ci, progress, active, j, stack);
      var segs := ColumnFrom(a, series, n, ci, progress, active, j, stack);
      var rest := ColumnFrom(a, series, n, ci, progress, active, j + 1, next);
      if HasValue(series[j], ci) {
        forall k | 0 <= k < |segs| - 1
          ensures segs[k + 1].top + segs[k + 1].height == segs[k].top
        {
          assert segs[k + 1] == rest[k];
          if k > 0 {
            assert segs[k] == rest[k - 1];
          }
        }
      }
    }
  }

  /** The segments come in the order of their series, one per series at most. */
  lemma {:induction false} ColumnOrdered(a: Area, series: seq<Series>, n: nat, ci: nat, progress: real, active: int,
                                         j: nat, stack: real)
    requires n > 0
    ensures SeriesAscending(ColumnFrom(a, series, n, ci, progress, active, j, stack), j)
    decreases |series| - j
  {
    if j < |series| {
      var next := StackAfter(a, series[j], ci, progress, stack);
      ColumnOrdered(a, series, n, ci, progress, active, j + 1, next);
      ColumnStep(a, series, n, ci, progress, active, j, stack);
      var segs := ColumnFrom(a, series, n, ci, progress, active, j, stack);
      var rest := ColumnFrom(a, series, n, ci, progress, active, j + 1, next);
      if HasValue(series[j], ci) {
        forall k | 0 <= k < |segs|
          ensures j <= segs[k].series
          ensures k < |segs| - 1 ==> segs[k].series < segs[k + 1].series
        {
          if k > 0 {
            assert segs[k] == rest[k - 1];
          }
          if k < |segs| - 1 {
            assert segs[k + 1] == rest[k];
          }
        }
      }
    }
  }

  /** The series of the segments are at least `j` and strictly increasing. */
  predicate SeriesAscending(segs: seq<Segment>, j: nat) {
    && (forall k :: 0 <= k < |segs| ==> j <= segs[k].series)
    && (forall k :: 0 <= k < |segs| - 1 ==> segs[k].series < segs[k + 1].series)
  }

  /** Some segment is drawn for series `s`. */
  predicate Drawn(segs: seq<Segment>, s: nat) {
    exists k :: 0 <= k < |segs| && segs[k].series == s
  }

  /** A series from `j` on has a segment exactly when it has a value. */
  lemma {:induction false} ColumnSkips(a: Area, series: seq<Series>, n: nat, ci: nat, progress: real, active: int,
                                       j: nat, stack: real)
    requires n > 0
    ensures forall s :: j <= s < |series| ==>
      (HasValue(series[s], ci) <==> Drawn(ColumnFrom(a, series, n, ci, progress, active, j, stack), s))
    decreases |series| - j
  {
    if j < |series| {
      var next := StackAfter(a, series[j], ci, progress, stack);
      ColumnSkips(a, series, n, ci, progress, active, j + 1, next);
      ColumnOrdered(a, series, n, ci, progress, active, j + 1, next);
      ColumnStep(a, series, n, ci, progress, active, j, stack);
      var segs := ColumnFrom(a, series, n, ci, progress, active, j, stack);
      var rest := ColumnFrom(a, series, n, ci, progress, active, j + 1, next);
      forall s | j <= s < |series|
        ensures HasValue(series[s], ci) <==> Drawn(segs, s)
      {
        if HasValue(series[j], ci) {
          if s == j {
            assert segs[0].series == s;
          } else {
            if HasValue(series[s], ci) {
              var k :| 0 <= k < |rest| && rest[k].series == s;
              assert segs[k + 1] == rest[k];
            }
            if Drawn(segs, s) {
              var k :| 0 <= k < |segs| && segs[k].series == s;
              assert k > 0;
              assert rest[k - 1] == segs[k];
            }
          }
        }
      }
    }
  }

  /** The segments of the categories from `ci` on. */
  function BarsFrom(a: Area, d: ChartData, progress: real, active: int, ci: nat): seq<Segment>
    requires |d.categories| > 0
    decreases |d.categories| - ci
  {
    if ci >= |d.categories| then []
    else ColumnFrom(a, d.series, |d.categories|, ci, progress, active, 0, 0.0) + BarsFrom(a, d, progress, active, ci + 1)
  }

  /** All segments `drawBars(progress)` draws, column by column; nothing
      without categories or series. */
  function Bars(a: Area, d: ChartData, progress: real, active: int): seq<Segment> {
    if |d.categories| == 0 || |d.series| == 0 then []
    else BarsFrom(a, d, progress, active, 0)
  }

  /** Every segment belongs to a category in `[lo, n)` and is drawn opaque
      exactly when its category is the highlighted one. */
  predicate Highlighted(segs: seq<Segment>, lo: nat, n: nat, active: int) {
    forall k :: 0 <= k < |segs| ==>
      && lo <= segs[k].category < n
      && segs[k].alpha == (if segs[k].category as int == active then 1.0 else 0.8)
  }

  lemma {:induction false} HighlightedConcat(col: seq<Segment>, rest: seq<Segment>, ci: nat, n: nat, active: int)
    requires ci < n
    requires OfColumn(col, ci, active)
    requires Highlighted(rest, ci + 1, n, active)
    ensures Highlighted(col + rest, ci, n, active)
  {
    forall k | 0 <= k < |col + rest|
      ensures ci <= (col + rest)[k].category < n
      ensures (col + rest)[k].alpha == (if (col + rest)[k].category as int == active then 1.0 else 0.8)
    {
      if k < |col| {
        assert (col + rest)[k] == col[k];
      } else {
        assert (col + rest)[k] == rest[k - |col|];
      }
    }
  }

  /** Every drawn segment belongs to a category from `ci` on, and only the
      highlighted category is drawn opaque. */
  lemma {:induction false} BarsCategories(a: Area, d: ChartData, progress: real, active: int, ci: nat)
    requires |d.categories| > 0
    ensures Highlighted(BarsFrom(a, d, progress, active, ci), ci, |d.categories|, active)
    decreases |d.categories| - ci
  {
    if ci < |d.categories| {
      BarsCategories(a, d, progress, active, ci + 1);
      ColumnCategory(a, d.series, |d.categories|, ci, progress, active, 0, 0.0);
      HighlightedConcat(ColumnFrom(a, d.series, |d.categories|, ci, progress, active, 0, 0.0),
                        BarsFrom(a, d, progress, active, ci + 1), ci, |d.categories|, active);
    }
  }

  /** The inner `forEach` of `drawBars`: the series of category `ci`, with
      the running `stackHeight`. */
  method DrawColumn(a: Area, series: seq<Series>, n: nat, ci: nat, progress: real, active: int)
    returns (segs: seq<Segment>)
    requires n > 0
    ensures segs == ColumnFrom(a, series, n, ci, progress, active, 0, 0.0)
  {
    var barWidth := a.width / n as real;
    var barPadding := barWidth * 0.2;
    var actualBarWidth := barWidth - barPadding * 2.0;
    var barX := a.x + barWidth * ci as real + barPadding;
    var stackHeight := 0.0;
    segs := [];
    var j := 0;
    while j < |series|
      invariant 0 <= j <= |series|
      invariant segs + ColumnFrom(a, series, n, ci, progress, active, j, stackHeight)
             == ColumnFrom(a, series, n, ci, progress, active, 0, 0.0)
    {
      var serie := series[j];
      if serie.data.Some? && ci < |serie.data.value| {
        var value := serie.data.value[ci];
        var barHeight := value / 100.0 * a.height * progress;
        var alpha := if ci as int == active then 1.0 else 0.8;
        var segment := Segment(ci, j, barX, a.y + a.height - stackHeight - barHeight, actualBarWidth, barHeight,
                               alpha, barHeight > 20.0);
        assert HasValue(series[j], ci);
        assert barHeight == BarHeight(series[j].data.value[ci], a.height, progress);
        assert barX == BarX(a, n, ci) && actualBarWidth == BarSpan(a, n);
        assert [segment] + ColumnFrom(a, series, n, ci, progress, active, j + 1, stackHeight + barHeight)
            == ColumnFrom(a, series, n, ci, progress, active, j, stackHeight);
        segs := segs + [segment];
        stackHeight := stackHeight + barHeight;
      }
      j := j + 1;
    }
  }

  /** `drawBars(progress)`: the columns of all categories, left to right. */
  method DrawBars(a: Area, d: ChartData, progress: real, active: int) returns (segs: seq<Segment>)
    ensures segs == Bars(a, d, progress, active)
  {
    segs := [];
    if |d.categories| == 0 || |d.series| == 0 {
      return;
    }
    var ci := 0;
    while ci < |d.categories|
      invariant 0 <= ci <= |d.categories|
      invariant segs + BarsFrom(a, d, progress, active, ci) == BarsFrom(a, d, progress, active, 0)
    {
      var column := DrawColumn(a, d.series, |d.categories|, ci, progress, active);
      segs := segs + column;
      ci := ci + 1;
    }
  }

  // ---------------------------------------------------------------------
  // Animation progress

  /** `Math.min(elapsed / animationDuration, 1)`. */
  function Progress(elapsed: real, duration: real): (p: real)
    requires duration != 0.0
    ensures p <= 1.0
    ensures 0.0 < duration ==> (p == 1.0 <==> duration <= elapsed)
    ensures 0.0 < duration && 0.0 <= elapsed ==> 0.0 <= p
    ensures 0.0 < duration && elapsed < duration ==> p == elapsed / duration
  {
    QuotientAgainstOne(elapsed, duration);
    Min(elapsed / duration, 1.0)
  }

  /** Where `elapsed / duration` lies against 0 and 1, for a positive duration. */
  lemma QuotientAgainstOne(elapsed: real, duration: real)
    requires duration != 0.0
    ensures 0.0 < duration ==> (elapsed / duration < 1.0 <==> elapsed < duration)
    ensures 0.0 < duration && 0.0 <= elapsed ==> 0.0 <= elapsed / duration
  {
    var q := elapsed / duration;
    if 0.0 < duration {
      assert q * duration == elapsed;
      if q < 1.0 {
        MulStrict(q, 1.0, duration);
      } else {
        MulMonotone(1.0, q, duration);
      }
      if q < 0.0 {
        MulStrict(q, 0.0, duration);
      }
    }
  }

  /** Progress never falls as time goes on. */
  lemma ProgressMonotone(e1: real, e2: real, duration: real)
    requires 0.0 < duration && e1 <= e2
    ensures Progress(e1, duration) <= Progress(e2, duration)
  {
    var q1, q2 := e1 / duration, e2 / duration;
    assert q1 * duration == e1;
    assert q2 * duration == e2;
    assert q1 <= q2 by {
      if q2 < q1 {
        MulStrict(q2, q1, duration);
      }
    }
  }

  // ---------------------------------------------------------------------
  // roundRect

  /** The radius `roundRect` draws with: halved to fit the width, then to
      fit the height. */
  function RoundRectRadius(width: real, height: real, radius: real): (r: real)
    ensures r == Min(Min(radius, width / 2.0), height / 2.0)
  {
    var r1 := if width < 2.0 * radius then width / 2.0 else radius;
    if height < 2.0 * r1 then height / 2.0 else r1
  }

  // ---------------------------------------------------------------------
  // The widget

  /** The widget object. The clock and `requestAnimationFrame` are
      parameters of the methods that read them. */
  class CategoryChart {
    const padding: Padding
    const duration: real
    var width: real
    var height: real
    var area: Area
    var data: ChartData
    var animationStart: real
    var progress: real
    var isAnimating: bool
    var animationId: Option<nat>
    var touch: Touch

    /** The constructor: missing (0) sizes fall back to 300 by 200, missing
        data to no categories and no series, a missing padding and duration
        to their defaults; nothing is highlighted. */
    constructor(width: real, height: real, data: Option<ChartData>, padding: Option<Padding>, duration: real)
      ensures this.width == OrDefault(width, 300.0) && this.height == OrDefault(height, 200.0)
      ensures this.data == (if data.Some? then data.value else ChartData([], []))
      ensures this.padding == (if padding.Some? then padding.value else DefaultPadding)
      ensures this.duration == OrDefault(duration, 1000.0) && this.duration != 0.0
      ensures area == ChartAreaOf(this.width, this.height, this.padding)
      ensures animationStart == 0.0 && progress == 0.0 && !isAnimating && animationId == None
      ensures touch == Touch(-1, Tooltip(false, 0.0, 0.0, "")) && Consistent(touch)
    {
      this.width := OrDefault(width, 300.0);
      this.height := OrDefault(height, 200.0);
      this.data := if data.Some? then data.value else ChartData([], []);
      this.padding := if padding.Some? then padding.value else DefaultPadding;
      this.duration := OrDefault(duration, 1000.0);
      this.area := ChartAreaOf(OrDefault(width, 300.0), OrDefault(height, 200.0),
                               if padding.Some? then padding.value else DefaultPadding);
      this.animationStart := 0.0;
      this.progress := 0.0;
      this.isAnimating := false;
      this.animationId := None;
      this.touch := Touch(-1, Tooltip(false, 0.0, 0.0, ""));
    }

    /** The segments `draw(progress)` paints for the current state. */
    method CurrentBars(progress: real) returns (segs: seq<Segment>)
      ensures segs == Bars(area, data, progress, touch.activeCategory)
    {
      segs := DrawBars(area, data, progress, touch.activeCategory);
    }

    /** `resize(width, height)`: the new size, taken as given, and the area
        recomputed from it. */
    method Resize(width: real, height: real)
      modifies this
      ensures this.width == width && this.height == height
      ensures area == ChartAreaOf(width, height, padding)
      ensures data == old(data) && touch == old(touch) && progress == old(progress)
      ensures isAnimating == old(isAnimating) && animationId == old(animationId)
      ensures animationStart == old(animationStart)
    {
      this.width := width;
      this.height := height;
      area := ChartAreaOf(width, height, padding);
    }

    /** `handleTouch(x, y)`; `show` is the host's number to string conversion. */
    method HandleTouch(x: real, y: real, show: real -> string)
      modifies this
      ensures touch == TouchAt(area, data, old(touch), x, y, show)
      ensures old(Consistent(touch)) ==> Consistent(touch)
      ensures area == old(area) && data == old(data) && progress == old(progress)
      ensures isAnimating == old(isAnimating) && animationId == old(animationId)
      ensures animationStart == old(animationStart) && width == old(width) && height == old(height)
    {
      if Consistent(touch) {
        TouchConsistent(area, data, touch, x, y, show);
      }
      touch := HandleTouchOf(area, data, touch, x, y, show);
    }

    /** `clearTouch()`. */
    method ClearTouch()
      modifies this
      ensures touch == Cleared(old(touch))
      ensures Consistent(touch)
      ensures area == old(area) && data == old(data) && progress == old(progress)
      ensures isAnimating == old(isAnimating) && animationId == old(animationId)
      ensures animationStart == old(animationStart) && width == old(width) && height == old(height)
    {
      touch := Touch(-1, touch.tooltip.(visible := false));
    }

    /** `stopAnimation()`: stops, and forgets the pending frame when its id
        is truthy. */
    method StopAnimation()
      modifies this
      ensures !isAnimating
      ensures animationId == (if old(animationId).Some? && old(animationId).value != 0 then None else old(animationId))
      ensures progress == old(progress) && animationStart == old(animationStart)
      ensures area == old(area) && data == old(data) && touch == old(touch)
      ensures width == old(width) && height == old(height)
    {
      isAnimating := false;
      if animationId.Some? && animationId.value != 0 {
        animationId := None;
      }
    }

    /** `animate()` at clock `now`: the progress since the start, capped at 1;
        below 1 the next frame `frame` is requested, at 1 the animation ends. */
    method Animate(now: real, frame: nat)
      requires duration != 0.0
      modifies this
      ensures old(isAnimating) ==> progress == Progress(now - animationStart, duration)
      ensures old(isAnimating) ==> (isAnimating <==> progress < 1.0)
      ensures old(isAnimating) && progress < 1.0 ==> animationId == Some(frame)
      ensures old(isAnimating) && progress == 1.0 ==> animationId == old(animationId)
      ensures !old(isAnimating) ==> progress == old(progress) && !isAnimating && animationId == old(animationId)
      ensures animationStart == old(animationStart) && area == old(area) && data == old(data) && touch == old(touch)
      ensures width == old(width) && height == old(height)
    {
      if !isAnimating {
        return;
      }
      var elapsed := now - animationStart;
      progress := Min(elapsed / duration, 1.0);
      assert progress == Progress(elapsed, duration);
      if progress < 1.0 {
        animationId := Some(frame);
      } else {
        isAnimating := false;
      }
    }

    /** `startAnimation()` at clock `start`, its first frame read at `now`. */
    method StartAnimation(start: real, now: real, frame: nat)
      requires duration != 0.0
      modifies this
      ensures animationStart == start
      ensures progress == Progress(now - start, duration)
      ensures isAnimating <==> progress < 1.0
      ensures progress < 1.0 ==> animationId == Some(frame)
      ensures progress == 1.0 ==>
                animationId == (if old(animationId).Some? && old(animationId).value != 0 then None else old(animationId))
      ensures area == old(area) && data == old(data) && touch == old(touch)
      ensures width == old(width) && height == old(height)
    {
      StopAnimation();
      isAnimating := true;
      animationStart := start;
      progress := 0.0;
      Animate(now, frame);
    }

    /** `updateData(newData)`: the new data, grown in from zero. */
    method UpdateData(newData: ChartData, start: real, now: real, frame: nat)
      requires duration != 0.0
      modifies this
      ensures data == newData
      ensures animationStart == start && progress == Progress(now - start, duration)
      ensures isAnimating <==> progress < 1.0
      ensures progress < 1.0 ==> animationId == Some(frame)
      ensures progress == 1.0 ==>
                animationId == (if old(animationId).Some? && old(animationId).value != 0 then None else old(animationId))
      ensures area == old(area) && touch == old(touch)
      ensures width == old(width) && height == old(height)
    {
      data := newData;
      StartAnimation(start, now, frame);
    }

    /** `destroy()`: the animation stops. */
    method Destroy()
      modifies this
      ensures !isAnimating
      ensures animationId == (if old(animationId).Some? && old(animationId).value != 0 then None else old(animationId))
      ensures area == old(area) && data == old(data) && touch == old(touch)
      ensures progress == old(progress) && animationStart == old(animationStart)
      ensures width == old(width) && height == old(height)
    {
      StopAnimation();
    }
  }
}
