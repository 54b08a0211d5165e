/** The BarChart component: a series of labelled values scaled linearly between the smallest
    and the largest value, drawn in a 250-unit-high SVG viewBox that is 40 units wide per point.
    Only the geometry is modelled; the SVG markup around it is not. */
module BarChart {
  import opened ChartMath

  /** One point of the series, `{ label, value }`; the label is kept as `title`. */
  datatype Point = Point(title: string, value: real)

  /** A horizontal gridline with its value label on the y-axis. */
  datatype Gridline = Gridline(ratio: real, y: real, tick: int)

  /** One bar, translated to x; its rectangle runs from `top` down to the x-axis. */
  datatype Bar = Bar(x: int, height: real, top: real, valueY: real, caption: string, value: real)

  /** Everything the component computes from its data. */
  datatype Chart = Chart(width: int, axisEnd: int, gridlines: seq<Gridline>, bars: seq<Bar>)

  const AxisY: real := 220.0          // the x-axis; bars stand on it
  const PlotTop: real := 20.0         // the top of the y-axis
  const PlotHeight: real := 200.0     // from PlotTop down to AxisY
  const MaxBarHeight: real := 180.0   // the tallest bar
  const ValueGap: real := 10.0        // the value label sits this far above its bar
  const BarPitch: int := 40           // horizontal room per point
  const FirstBarX: int := 30          // x of the first bar
  const AxisInset: int := 20          // the axes start and end this far from the edges
  const GridRatios: seq<real> := [0.0, 0.25, 0.5, 0.75, 1.0]

  function Values(data: seq<Point>): seq<real>
  {
    seq(|data|, i requires 0 <= i < |data| => data[i].value)
  }

  /** `Math.max(...values)` on a non-empty series. */
  function MaxValue(vs: seq<real>): (m: real)
    requires |vs| > 0
    ensures m in vs
    ensures forall i :: 0 <= i < |vs| ==> vs[i] <= m
  {
    if |vs| == 1 then vs[0]
    else
      var rest := MaxValue(vs[1..]);
      if vs[0] > rest then vs[0] else rest
  }

  /** `Math.min(...values)` on a non-empty series. */
  function MinValue(vs: seq<real>): (m: real)
    requires |vs| > 0
    ensures m in vs
    ensures forall i :: 0 <= i < |vs| ==> m <= vs[i]
  {
    if |vs| == 1 then vs[0]
    else
      var rest := MinValue(vs[1..]);
      if vs[0] < rest then vs[0] else rest
  }

  /** Height of the bar for value v when the series spans [lo, lo + range]. */
  function BarHeight(v: real, lo: real, range: real): (h: real)
    requires range > 0.0
    ensures lo <= v <= lo + range ==> 0.0 <= h <= MaxBarHeight
    ensures v == lo ==> h == 0.0
    ensures v == lo + range ==> h == MaxBarHeight
    ensures h * range == (v - lo) * MaxBarHeight
  {
    var q := (v - lo) / range;
    assert q * range == v - lo;
    q * MaxBarHeight
  }

  /** A larger value never gets a shorter bar, and a strictly larger one a strictly taller bar. */
  lemma BarHeightMonotone(v: real, w: real, lo: real, range: real)
    requires range > 0.0
    ensures v <= w ==> BarHeight(v, lo, range) <= BarHeight(w, lo, range)
    ensures v < w ==> BarHeight(v, lo, range) < BarHeight(w, lo, range)
  {
    var d := (w - v) / range;
    assert (w - lo) / range == (v - lo) / range + d;
    if v < w {
      assert d > 0.0;
    }
  }

  /** The label under a bar: `label.split(' ')[0]`, the text before the first space. */
  function FirstToken(text: string): (t: string)
    ensures t <= text
    ensures ' ' !in t
    ensures |t| < |text| ==> text[|t|] == ' '
  {
    if text == [] || text[0] == ' ' then []
    else [text[0]] + FirstToken(text[1..])
  }

  /** The three facts FirstToken promises single out its result. */
  lemma FirstTokenUnique(text: string, t: string)
    requires t <= text && ' ' !in t
    requires |t| < |text| ==> text[|t|] == ' '
    ensures t == FirstToken(text)
  {
  }

  /** A label such as "Jan 1" is captioned by its word before the space, "Jan". */
  lemma FirstTokenOfWords(word: string, rest: string)
    requires ' ' !in word
    ensures FirstToken(word + [' '] + rest) == word
  {
    var text := word + [' '] + rest;
    assert word <= text && text[|word|] == ' ';
    FirstTokenUnique(text, word);
  }

  /** The y coordinate of the gridline at a given ratio of the value range. */
  function GridY(ratio: real): (y: real)
    ensures 0.0 <= ratio <= 1.0 ==> PlotTop <= y <= AxisY
    ensures ratio == 0.0 <==> y == AxisY
    ensures ratio == 1.0 <==> y == PlotTop
  {
    PlotTop + (1.0 - ratio) * PlotHeight
  }

  /** The gridline at a ratio inside [0, 1] of a non-negative range is labelled between the
      rounded ends of the range. */
  function MakeGridline(ratio: real, lo: real, range: real): (g: Gridline)
    ensures g.ratio == ratio && g.y == GridY(ratio)
    ensures 0.0 <= ratio <= 1.0 && 0.0 <= range ==> Round(lo) <= g.tick <= Round(lo + range)
  {
    var v := lo + range * ratio;
    assert 0.0 <= ratio <= 1.0 && 0.0 <= range ==> Round(lo) <= Round(v) <= Round(lo + range) by {
      if 0.0 <= ratio <= 1.0 && 0.0 <= range {
        assert 0.0 <= range * ratio <= range;
        RoundMonotone(lo, v);
        RoundMonotone(v, lo + range);
      }
    }
    Gridline(ratio, GridY(ratio), Round(v))
  }

  /** The five gridlines, in the order of GridRatios. */
  function Gridlines(lo: real, range: real): (g: seq<Gridline>)
    ensures |g| == |GridRatios|
    ensures forall k {:trigger g[k]} :: 0 <= k < |g| ==> g[k] == MakeGridline(GridRatios[k], lo, range)
  {
    seq(|GridRatios|, k requires 0 <= k < |GridRatios| => MakeGridline(GridRatios[k], lo, range))
  }

  /** The gridlines run from the x-axis, labelled with the rounded minimum, up to the top of the
      y-axis, labelled with the rounded maximum; higher lines never carry smaller labels. */
  lemma GridlinesSpanAxis(lo: real, hi: real)
    requires lo <= hi
    ensures var g := Gridlines(lo, hi - lo);
      && |g| == 5
      && (forall k :: 0 <= k < 5 ==> g[k].ratio == GridRatios[k] && g[k].y == GridY(g[k].ratio))
      && (forall k :: 0 <= k < 5 ==> g[k].tick == Round(lo + (hi - lo) * GridRatios[k]))
      && g[0].y == AxisY && g[0].tick == Round(lo)
      && g[4].y == PlotTop && g[4].tick == Round(hi)
      && (forall j, k :: 0 <= j < k < 5 ==> g[j].y > g[k].y && g[j].tick <= g[k].tick)
  {
  }

  /** The bar for point p at position index: it stands on the x-axis at x = 40 index + 30,
      carries p's value and first word, and has its value label 10 units above its top. */
  function MakeBar(index: nat, p: Point, lo: real, range: real): (b: Bar)
    requires range > 0.0
    ensures b.x == 40 * index + 30 && b.value == p.value && b.caption == FirstToken(p.title)
    ensures b.top + b.height == AxisY && b.valueY == b.top - ValueGap
    ensures lo <= p.value <= lo + range ==> PlotTop + 20.0 <= b.top <= AxisY
    ensures b.height * range == (p.value - lo) * MaxBarHeight
  {
    var h := BarHeight(p.value, lo, range);
    Bar(index * BarPitch + FirstBarX, h, AxisY - h, AxisY - ValueGap - h, FirstToken(p.title), p.value)
  }

  /** One bar per point, in input order. */
  function Bars(data: seq<Point>, lo: real, range: real): (bars: seq<Bar>)
    requires range > 0.0
    ensures |bars| == |data|
    ensures forall i {:trigger bars[i]} :: 0 <= i < |data| ==> bars[i] == MakeBar(i, data[i], lo, range)
  {
    seq(|data|, i requires 0 <= i < |data| => MakeBar(i, data[i], lo, range))
  }

  /** The whole chart, or why the source would draw NaN for it. */
  function Layout(data: seq<Point>): (r: Result<Chart>)
    ensures r == Err(EmptySeries) <==> |data| == 0
    ensures r == Err(FlatRange) <==>
      |data| > 0 && MaxValue(Values(data)) == MinValue(Values(data))
    ensures r.Ok? ==>
      && r.value.width == |data| * BarPitch
      && r.value.axisEnd == |data| * BarPitch - AxisInset
      && |r.value.gridlines| == |GridRatios|
      && |r.value.bars| == |data|
  {
    if |data| == 0 then Err(EmptySeries)
    else
      var hi := MaxValue(Values(data));
      var lo := MinValue(Values(data));
      var range := hi - lo;
      if range == 0.0 then Err(FlatRange)
      else
        Ok(Chart(|data| * BarPitch, |data| * BarPitch - AxisInset,
                 Gridlines(lo, range), Bars(data, lo, range)))
  }

  /** Bar i stands at x = 40 i + 30, has the height of its value scaled linearly from
      [min, max] onto [0, 180] units (BarHeight), has its rectangle top and its value label
      derived from its height, and shows point i's value and first word. */
  lemma BarsFollowInput(data: seq<Point>, i: int)
    requires Layout(data).Ok? && 0 <= i < |data|
    ensures var b := Layout(data).value.bars[i];
      var vs := Values(data);
      && b.x == i * 40 + 30
      && b.height == BarHeight(data[i].value, MinValue(vs), MaxValue(vs) - MinValue(vs))
      && 0.0 <= b.height <= 180.0
      && b.top == 220.0 - b.height
      && b.valueY == 210.0 - b.height
      && b.value == data[i].value
      && b.caption == FirstToken(data[i].title)
  {
    var vs := Values(data);
    var lo, hi := MinValue(vs), MaxValue(vs);
    var n := |data| * BarPitch;
    assert Layout(data) == Ok(Chart(n, n - AxisInset, Gridlines(lo, hi - lo), Bars(data, lo, hi - lo)));
    assert vs[i] == data[i].value;
  }

  /** A bar with the largest value reaches the full 180 units, one with the smallest value has
      height 0, and both kinds of bar exist. */
  lemma ExtremeBars(data: seq<Point>)
    requires Layout(data).Ok?
    ensures var bars := Layout(data).value.bars;
      var vs := Values(data);
      && (forall i :: 0 <= i < |data| && data[i].value == MaxValue(vs) ==> bars[i].height == 180.0)
      && (forall i :: 0 <= i < |data| && data[i].value == MinValue(vs) ==> bars[i].height == 0.0)
      && (exists i :: 0 <= i < |data| && bars[i].height == 180.0)
      && (exists i :: 0 <= i < |data| && bars[i].height == 0.0)
  {
  }

  /** Bars are ordered as their values are. */
  lemma BarsMonotone(data: seq<Point>, i: int, j: int)
    requires Layout(data).Ok?
    requires 0 <= i < |data| && 0 <= j < |data|
    ensures var bars := Layout(data).value.bars;
      && (data[i].value <= data[j].value ==> bars[i].height <= bars[j].height)
      && (data[i].value < data[j].value ==> bars[i].height < bars[j].height)
  {
    var vs := Values(data);
    BarHeightMonotone(data[i].value, data[j].value, MinValue(vs), MaxValue(vs) - MinValue(vs));
  }

  /** The chart's gridlines are those of its minimum and range (so GridlinesSpanAxis gives each
      label as round(min + range * ratio)): the x-axis line is labelled with the rounded minimum,
      the top line with the rounded maximum, and the labels never decrease going up. */
  lemma LayoutGridlines(data: seq<Point>)
    requires Layout(data).Ok?
    ensures var g := Layout(data).value.gridlines;
      var vs := Values(data);
      && |g| == 5
      && g[0].y == 220.0 && g[0].tick == Round(MinValue(vs))
      && g[4].y == 20.0 && g[4].tick == Round(MaxValue(vs))
      && (forall k :: 0 <= k < 5 ==> g[k].y == 20.0 + (1.0 - g[k].ratio) * 200.0)
      && g == Gridlines(MinValue(vs), MaxValue(vs) - MinValue(vs))
      && (forall j, k :: 0 <= j < k < 5 ==> g[j].ratio < g[k].ratio && g[j].tick <= g[k].tick)
  {
    var vs := Values(data);
    var lo, hi := MinValue(vs), MaxValue(vs);
    var n := |data| * BarPitch;
    assert Layout(data) == Ok(Chart(n, n - AxisInset, Gridlines(lo, hi - lo), Bars(data, lo, hi - lo)));
    GridlinesSpanAxis(lo, hi);
  }

  /** Two points of the dashboard's sample series, its first ("Jan 1" at 45) and its eighth
      ("Feb 5" at 91); as a series of their own, 45 is its minimum and 91 its maximum. */
  lemma SampleTwoPoints()
    ensures var r := Layout([Point("Jan 1", 45.0), Point("Feb 5", 91.0)]);
      && r.Ok?
      && r.value.width == 80
      && r.value.bars[0].height == 0.0 && r.value.bars[0].caption == "Jan"
      && r.value.bars[1].height == 180.0 && r.value.bars[1].caption == "Feb"
      && r.value.gridlines[2].tick == 68
  {
  }
}
