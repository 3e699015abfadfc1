/** The pane (y-axis) layout allocator of the stock tools: after an indicator pane
    is added or removed, every non-navigator y-axis gets a new height and top, both
    in percent of the plot height, and a drag-resizer chained to the next pane.
    Numbers are exact reals: the library's float correction is the identity here. */
module StockToolsLayout {
  import opened Wrappers
  import OldiePolyfills

  const Prefix: string := "highcharts-"

  /** The class name that marks the navigator's own y-axis. */
  const NavigatorYAxisClass: string := Prefix + "navigator-yaxis"

  /** A configured axis height or top: a percentage string such as "20%", otherwise
      the axis's measured size in pixels (for a top: its offset from the plot top),
      or nothing yet (a freshly added axis). */
  datatype AxisSize = Percent(p: real) | Pixels(px: real) | Missing

  /** What a resizer names as the next axis: `pick(options.id, options.index)`. */
  datatype AxisRef = ById(id: string) | ByIndex(index: int)

  /** `{enabled: false}` or `{enabled: true, controlledAxis: {next: [ref]}}`. */
  datatype Resizer = Disabled | Enabled(next: AxisRef)

  datatype Axis = Axis(
    className: Option<string>,
    id: Option<string>,
    index: int,
    height: AxisSize,
    top: AxisSize,
    resize: Option<Resizer>)

  /** A pane's place in percent. A `top` of `None` is a value that is not a finite
      number (NaN or an infinity). */
  datatype Position = Position(top: Option<real>, height: real)

  predicate IsNotNavigatorYAxis(axis: Axis)
  {
    axis.className != Some(NavigatorYAxisClass)
  }

  /** `isNotNavigatorYAxis` in the shape a filter callback has. */
  predicate KeepAxis(axis: Axis, i: nat)
  {
    IsNotNavigatorYAxis(axis)
  }

  // ------------------------------------------------------------ real sums

  function Sum(s: seq<real>): real
  {
    if |s| == 0 then 0.0 else Sum(s[..|s| - 1]) + s[|s| - 1]
  }

  lemma {:induction false} SumScaled(s: seq<real>, t: seq<real>, k: real)
    requires |s| == |t|
    requires forall i :: 0 <= i < |s| ==> t[i] == k * s[i]
    ensures Sum(t) == k * Sum(s)
  {
    if |s| > 0 {
      SumScaled(s[..|s| - 1], t[..|t| - 1], k);
    }
  }

  /** `m` copies of `k` added up; kept apart from multiplication so that the sums
      stay linear for the solver. */
  function Times(m: nat, k: real): real
  {
    if m == 0 then 0.0 else Times(m - 1, k) + k
  }

  lemma {:induction false} TimesIsProduct(m: nat, k: real)
    ensures Times(m, k) == (m as real) * k
  {
    if m > 0 {
      TimesIsProduct(m - 1, k);
    }
  }

  /** `m` shares of `x / m`, taken away or given back, make `x`. */
  lemma SharesAddUp(m: nat, x: real)
    requires m > 0
    ensures Times(m, -1.0 * (x / (m as real))) == -x
    ensures Times(m, 1.0 * (x / (m as real))) == x
  {
    TimesIsProduct(m, -1.0 * (x / (m as real)));
    TimesIsProduct(m, 1.0 * (x / (m as real)));
  }

  lemma {:induction false} SumShifted(s: seq<real>, t: seq<real>, k: real)
    requires |s| == |t|
    requires forall i :: 0 <= i < |s| ==> t[i] == s[i] + k
    ensures Sum(t) == Sum(s) + Times(|s|, k)
  {
    if |s| > 0 {
      SumShifted(s[..|s| - 1], t[..|t| - 1], k);
    }
  }

  lemma {:induction false} SumChangedAt(s: seq<real>, t: seq<real>, j: nat)
    requires |s| == |t| && j < |s|
    requires forall i :: 0 <= i < |s| && i != j ==> t[i] == s[i]
    ensures Sum(t) == Sum(s) - s[j] + t[j]
  {
    if j < |s| - 1 {
      SumChangedAt(s[..|s| - 1], t[..|t| - 1], j);
    } else {
      assert s[..|s| - 1] == t[..|t| - 1];
    }
  }

  // ------------------------------------------------------------ getYAxisPositions

  /** The height of an axis as a fraction of the plot: a percentage is read
      directly, a pixel height is divided by the plot height, and anything that is
      not a finite number then (no height yet, or a zero plot height) becomes
      `defaultHeight / 100`. */
  function HeightFraction(axis: Axis, plotHeight: real, defaultHeight: real): real
  {
    match axis.height
    case Percent(p) => p / 100.0
    case Pixels(px) => if plotHeight != 0.0 then px / plotHeight else defaultHeight / 100.0
    case Missing => defaultHeight / 100.0
  }

  /** The top of an axis as a fraction of the plot; there is no fallback, so a
      missing top or a zero plot height gives a non-number. */
  function TopFraction(axis: Axis, plotHeight: real): Option<real>
  {
    match axis.top
    case Percent(p) => Some(p / 100.0)
    case Pixels(px) => if plotHeight != 0.0 then Some(px / plotHeight) else None
    case Missing => None
  }

  function PositionOf(axis: Axis, plotHeight: real, defaultHeight: real): Position
  {
    var top := TopFraction(axis, plotHeight);
    Position(if top.Some? then Some(top.value * 100.0) else None,
             HeightFraction(axis, plotHeight, defaultHeight) * 100.0)
  }

  function Positions(yAxes: seq<Axis>, plotHeight: real, defaultHeight: real): (r: seq<Position>)
    ensures |r| == |yAxes|
  {
    seq(|yAxes|, i requires 0 <= i < |yAxes| => PositionOf(yAxes[i], plotHeight, defaultHeight))
  }

  function Fractions(yAxes: seq<Axis>, plotHeight: real, defaultHeight: real): (r: seq<real>)
    ensures |r| == |yAxes|
  {
    seq(|yAxes|, i requires 0 <= i < |yAxes| => HeightFraction(yAxes[i], plotHeight, defaultHeight))
  }

  /** `allAxesHeight`: the sum of the height fractions. */
  function AllAxesHeight(yAxes: seq<Axis>, plotHeight: real, defaultHeight: real): real
  {
    Sum(Fractions(yAxes, plotHeight, defaultHeight))
  }

  function Heights(p: seq<Position>): (r: seq<real>)
    ensures |r| == |p|
  {
    seq(|p|, i requires 0 <= i < |p| => p[i].height)
  }

  /** The percent heights that `getYAxisPositions` reports add up to 100 times
      `allAxesHeight`. */
  lemma PositionsHeightSum(yAxes: seq<Axis>, plotHeight: real, defaultHeight: real)
    ensures Sum(Heights(Positions(yAxes, plotHeight, defaultHeight)))
         == 100.0 * AllAxesHeight(yAxes, plotHeight, defaultHeight)
  {
    var f := Fractions(yAxes, plotHeight, defaultHeight);
    var h := Heights(Positions(yAxes, plotHeight, defaultHeight));
    forall i | 0 <= i < |f| ensures h[i] == 100.0 * f[i] { }
    SumScaled(f, h, 100.0);
  }

  /** `getYAxisPositions`: one position per axis, and the running sum of the height
      fractions. */
  method GetYAxisPositions(yAxes: seq<Axis>, plotHeight: real, defaultHeight: real)
    returns (positions: array<Position>, allAxesHeight: real)
    ensures fresh(positions)
    ensures positions.Length == |yAxes|
    ensures forall i :: 0 <= i < |yAxes| ==>
      positions[i].height == 100.0 * HeightFraction(yAxes[i], plotHeight, defaultHeight)
    ensures forall i :: 0 <= i < |yAxes| ==>
      positions[i].top == (var t := TopFraction(yAxes[i], plotHeight); if t.Some? then Some(100.0 * t.value) else None)
    ensures allAxesHeight == AllAxesHeight(yAxes, plotHeight, defaultHeight)
  {
    positions := new Position[|yAxes|](i => Position(None, 0.0));
    allAxesHeight := 0.0;
    ghost var f := Fractions(yAxes, plotHeight, defaultHeight);
    for i := 0 to |yAxes|
      invariant forall j :: 0 <= j < i ==> positions[j] == PositionOf(yAxes[j], plotHeight, defaultHeight)
      invariant allAxesHeight == Sum(f[..i])
    {
      var axis := yAxes[i];
      var height := match axis.height
        case Percent(p) => p / 100.0
        case Pixels(px) => if plotHeight != 0.0 then px / plotHeight else defaultHeight / 100.0
        case Missing => defaultHeight / 100.0;
      var top := match axis.top
        case Percent(p) => Some(p / 100.0)
        case Pixels(px) => if plotHeight != 0.0 then Some(px / plotHeight) else None
        case Missing => None;
      assert f[..i + 1][..i] == f[..i];
      allAxesHeight := allAxesHeight + height;
      positions[i] := Position(if top.Some? then Some(top.value * 100.0) else None, height * 100.0);
    }
    assert f[..|yAxes|] == f;
  }

  // ------------------------------------------------------------ getYAxisResizers

  function ResizerTarget(axis: Axis): AxisRef
  {
    match axis.id
    case Some(s) => ById(s)
    case None => ByIndex(axis.index)
  }

  /** The resizer of pane `i`: linked to the next pane, or disabled for the last. */
  function ResizerAt(yAxes: seq<Axis>, i: nat): Resizer
    requires i < |yAxes|
  {
    if i + 1 < |yAxes| then Enabled(ResizerTarget(yAxes[i + 1])) else Disabled
  }

  /** `getYAxisResizers`: every pane but the last drags the boundary with the next
      pane, named by its id or else its index; the last pane's resizer is off. */
  method GetYAxisResizers(yAxes: seq<Axis>) returns (resizers: seq<Resizer>)
    ensures |resizers| == |yAxes|
    ensures forall i :: 0 <= i < |yAxes| - 1 ==>
      resizers[i] == Enabled(if yAxes[i + 1].id.Some? then ById(yAxes[i + 1].id.value) else ByIndex(yAxes[i + 1].index))
    ensures |yAxes| > 0 ==> resizers[|yAxes| - 1] == Disabled
    ensures forall i :: 0 <= i < |yAxes| ==> resizers[i] == ResizerAt(yAxes, i)
  {
    resizers := [];
    for index := 0 to |yAxes|
      invariant |resizers| == index
      invariant forall i :: 0 <= i < index ==> resizers[i] == ResizerAt(yAxes, i)
    {
      if index + 1 < |yAxes| {
        var nextYAxis := yAxes[index + 1];
        resizers := resizers + [Enabled(ResizerTarget(nextYAxis))];
      } else {
        resizers := resizers + [Disabled];
      }
    }
  }

  // ------------------------------------------------------------ recalculateYAxisPositions

  /** Panes of heights `h` stacked from the top of the plot: each top is the sum of
      the heights above it. */
  function Stacked(h: seq<real>): (r: seq<Position>)
    ensures |r| == |h|
  {
    seq(|h|, i requires 0 <= i < |h| => Position(Some(Sum(h[..i])), h[i]))
  }

  function Shifted(h: seq<real>, delta: real): (r: seq<real>)
    ensures |r| == |h|
    ensures forall i :: 0 <= i < |h| ==> r[i] == h[i] + delta
  {
    seq(|h|, i requires 0 <= i < |h| => h[i] + delta)
  }

  /** Every height moved by `delta`, then the panes restacked. */
  function Recalculated(positions: seq<Position>, delta: real): (r: seq<Position>)
    ensures |r| == |positions|
  {
    Stacked(Shifted(Heights(positions), delta))
  }

  /** The first pane starts at the top and every other pane starts where the one
      above it ends. */
  predicate Contiguous(p: seq<Position>)
  {
    && (forall i :: 0 <= i < |p| ==> p[i].top.Some?)
    && (|p| > 0 ==> p[0].top == Some(0.0))
    && (forall i :: 0 < i < |p| ==> p[i].top.value == p[i - 1].top.value + p[i - 1].height)
  }

  /** Contiguous panes whose heights add up to the whole plot. */
  predicate FillsPlot(p: seq<Position>)
  {
    Contiguous(p) && Sum(Heights(p)) == 100.0
  }

  lemma StackedShape(h: seq<real>)
    ensures Contiguous(Stacked(h))
    ensures Heights(Stacked(h)) == h
  {
    var r := Stacked(h);
    forall i | 0 < i < |r|
      ensures r[i].top.value == r[i - 1].top.value + r[i - 1].height
    {
      assert h[..i][..i - 1] == h[..i - 1];
    }
  }

  /** `recalculateYAxisPositions`: the number of panes is kept, heights move by
      `delta` (zero when heights are not modified), the panes are restacked
      contiguously, and their total height moves by `n * delta`. */
  lemma RecalculatedShape(positions: seq<Position>, delta: real)
    ensures |Recalculated(positions, delta)| == |positions|
    ensures forall i :: 0 <= i < |positions| ==>
      Recalculated(positions, delta)[i].height == positions[i].height + delta
    ensures Contiguous(Recalculated(positions, delta))
    ensures Sum(Heights(Recalculated(positions, delta)))
         == Sum(Heights(positions)) + Times(|positions|, delta)
  {
    var g := Shifted(Heights(positions), delta);
    StackedShape(g);
    SumShifted(Heights(positions), g, delta);
  }

  /** One step of the stacking: pane 0 starts at the top, and every later pane
      starts where the one before it ends. */
  lemma StackedStep(g: seq<real>, i: nat)
    requires i < |g|
    ensures Stacked(g)[i].height == g[i]
    ensures i == 0 ==> Stacked(g)[i].top == Some(0.0)
    ensures i > 0 ==> Stacked(g)[i].top == Some(Stacked(g)[i - 1].top.value + Stacked(g)[i - 1].height)
  {
    if i > 0 {
      assert g[..i][..i - 1] == g[..i - 1];
    }
  }

  /** What `recalculateYAxisPositions` adds to every height: `adder * changedSpace`
      when `modifyHeight` is set, nothing otherwise. */
  function HeightChange(modifyHeight: bool, adder: real, changedSpace: real): real
  {
    if modifyHeight then adder * changedSpace else 0.0
  }

  /** `recalculateYAxisPositions`, in place and left to right: each pane's top is
      the (already updated) top plus height of the pane before it, and its height
      then moves by `adder * changedSpace` when `modifyHeight` is set. */
  method RecalculateYAxisPositions(positions: array<Position>, changedSpace: real, modifyHeight: bool, adder: real)
    modifies positions
    ensures positions[..] == Recalculated(old(positions[..]), HeightChange(modifyHeight, adder, changedSpace))
  {
    ghost var before := positions[..];
    ghost var delta := HeightChange(modifyHeight, adder, changedSpace);
    ghost var g := Shifted(Heights(before), delta);
    for index := 0 to positions.Length
      invariant forall j :: 0 <= j < index ==> positions[j] == Stacked(g)[j]
      invariant forall j :: index <= j < positions.Length ==> positions[j] == before[j]
    {
      StackedStep(g, index);
      var position := positions[index];
      var top := 0.0;
      if index > 0 {
        var prevPosition := positions[index - 1];
        top := prevPosition.height + prevPosition.top.value;
      }
      var height := position.height;
      if modifyHeight {
        height := position.height + adder * changedSpace;
      }
      positions[index] := Position(Some(top), height);
    }
    assert positions[..] == Stacked(g);
  }

  // ------------------------------------------------------------ resizeYAxes

  /** `defaultHeight || 20`: an omitted or zero default height means 20 percent. */
  function EffectiveDefault(defaultHeight: Option<real>): real
  {
    if defaultHeight.None? || defaultHeight.value == 0.0 then 20.0 else defaultHeight.value
  }

  /** Pane 0's height moved by `change`. */
  function FirstMoved(positions: seq<Position>, change: real): (r: seq<Position>)
    requires |positions| > 0
    ensures |r| == |positions|
  {
    positions[0 := positions[0].(height := positions[0].height + change)]
  }

  /** The "add" branch: below 6 panes pane 0 gives up `defaultHeight`, otherwise
      every pane gives up `(100/n)/(n-1)`; then the last slot is forced. */
  function AddLayout(positions: seq<Position>, defaultHeight: real): (r: seq<Position>)
    requires |positions| > 0
    ensures |r| == |positions|
  {
    var n := |positions|;
    if n < 6 then
      Recalculated(FirstMoved(positions, -defaultHeight), 0.0)[n - 1 := Position(Some(100.0 - defaultHeight), defaultHeight)]
    else
      var d := 100.0 / (n as real);
      Recalculated(positions, -1.0 * (d / ((n - 1) as real)))[n - 1 := Position(Some(100.0 - d), d)]
  }

  /** The "remove" branch: the freed space goes to pane 0 below 5 panes and is
      shared equally from 5 panes on. */
  function RemoveLayout(positions: seq<Position>, allAxesHeight: real): (r: seq<Position>)
    requires |positions| > 0
    ensures |r| == |positions|
  {
    var n := |positions|;
    var changedSpace := (1.0 - allAxesHeight) * 100.0;
    if n < 5 then Recalculated(FirstMoved(positions, changedSpace), 0.0)
    else Recalculated(positions, 1.0 * (changedSpace / (n as real)))
  }

  /** The positions `resizeYAxes` hands to the non-navigator axes `yAxes`. */
  function Layout(yAxes: seq<Axis>, plotHeight: real, defaultHeight: real): (r: seq<Position>)
    requires |yAxes| > 0
    ensures |r| == |yAxes|
    ensures forall i :: 0 <= i < |r| ==> r[i].top.Some?
  {
    var positions := Positions(yAxes, plotHeight, defaultHeight);
    var allAxesHeight := AllAxesHeight(yAxes, plotHeight, defaultHeight);
    if allAxesHeight > 1.0 then AddLayout(positions, defaultHeight)
    else RemoveLayout(positions, allAxesHeight)
  }

  /** A stack of panes whose last slot is then forced to `(top 100 - d, height d)`
      fills the plot exactly when the panes above the last take `100 - d`. */
  lemma ForcedLastSlot(g: seq<real>, d: real)
    requires |g| >= 2
    ensures FillsPlot(Stacked(g)[|g| - 1 := Position(Some(100.0 - d), d)])
        <==> Sum(g[..|g| - 1]) == 100.0 - d
  {
    var n := |g|;
    var r := Stacked(g)[n - 1 := Position(Some(100.0 - d), d)];
    StackedShape(g);
    assert Heights(r)[..n - 1] == g[..n - 1];
    assert Sum(Heights(r)) == Sum(g[..n - 1]) + d;
    assert g[..n - 1][..n - 2] == g[..n - 2];
    assert r[n - 2].top.value + r[n - 2].height == Sum(g[..n - 1]);
    if Sum(g[..n - 1]) == 100.0 - d {
      forall i | 0 < i < n
        ensures r[i].top.value == r[i - 1].top.value + r[i - 1].height
      {
        if i < n - 1 {
          assert Stacked(g)[i].top.value == Stacked(g)[i - 1].top.value + Stacked(g)[i - 1].height;
        }
      }
      assert Contiguous(r);
    }
  }

  /** Adding below 6 panes: pane 0 shrinks by `defaultHeight`, the panes between
      keep their heights, the last takes the bottom `defaultHeight` percent, and
      the result fills the plot exactly when the panes before the last did. */
  lemma AddFewPanes(positions: seq<Position>, defaultHeight: real)
    requires 2 <= |positions| < 6
    ensures var n, h, r := |positions|, Heights(positions), AddLayout(positions, defaultHeight);
      && r[n - 1] == Position(Some(100.0 - defaultHeight), defaultHeight)
      && r[0].height == h[0] - defaultHeight
      && (forall i :: 0 < i < n - 1 ==> r[i].height == h[i])
      && (FillsPlot(r) <==> Sum(h[..n - 1]) == 100.0)
  {
    var n := |positions|;
    var h := Heights(positions);
    var p := FirstMoved(positions, -defaultHeight);
    var g := Shifted(Heights(p), 0.0);
    ForcedLastSlot(g, defaultHeight);
    SumChangedAt(h[..n - 1], g[..n - 1], 0);
  }

  /** Every pane shrinks by `c` and the last slot is forced to the bottom `d`
      percent. */
  lemma ShrinkAllForceLast(positions: seq<Position>, c: real, d: real)
    requires |positions| >= 2
    ensures var n, h := |positions|, Heights(positions);
      var r := Recalculated(positions, -1.0 * c)[n - 1 := Position(Some(100.0 - d), d)];
      && (forall i :: 0 <= i < n - 1 ==> r[i].height == h[i] - c)
      && (FillsPlot(r) <==> Sum(h[..n - 1]) + Times(n - 1, -1.0 * c) == 100.0 - d)
  {
    var n := |positions|;
    var h := Heights(positions);
    var g := Shifted(h, -1.0 * c);
    ForcedLastSlot(g, d);
    SumShifted(h[..n - 1], g[..n - 1], -1.0 * c);
  }

  /** Adding at 6 panes or more: every pane but the last shrinks by
      `(100/n)/(n-1)`, the last takes the bottom `100/n` percent, and the result
      fills the plot exactly when the panes before the last did. */
  lemma AddManyPanes(positions: seq<Position>, defaultHeight: real)
    requires |positions| >= 6
    ensures var n, h, r := |positions|, Heights(positions), AddLayout(positions, defaultHeight);
      var d := 100.0 / (n as real);
      && r[n - 1] == Position(Some(100.0 - d), d)
      && (forall i :: 0 <= i < n - 1 ==> r[i].height == h[i] - d / ((n - 1) as real))
      && (FillsPlot(r) <==> Sum(h[..n - 1]) == 100.0)
  {
    var n := |positions|;
    var d := 100.0 / (n as real);
    var c := d / ((n - 1) as real);
    var r := AddLayout(positions, defaultHeight);
    assert r == Recalculated(positions, -1.0 * c)[n - 1 := Position(Some(100.0 - d), d)];
    ShrinkAllForceLast(positions, c, d);
    SharesAddUp(n - 1, d);
    assert Times(n - 1, -1.0 * c) == -d;
  }

  /** Removing: whatever the pane count, the freed space is returned in full, so
      panes that took `100 * allAxesHeight` percent now fill the plot. */
  lemma RemoveFillsPlot(positions: seq<Position>, allAxesHeight: real)
    requires |positions| > 0
    requires Sum(Heights(positions)) == 100.0 * allAxesHeight
    ensures var n, h, r := |positions|, Heights(positions), RemoveLayout(positions, allAxesHeight);
      var c := (1.0 - allAxesHeight) * 100.0;
      && FillsPlot(r)
      && (n < 5 ==> r[0].height == h[0] + c && forall i :: 0 < i < n ==> r[i].height == h[i])
      && (n >= 5 ==> forall i :: 0 <= i < n ==> r[i].height == h[i] + c / (n as real))
  {
    var n := |positions|;
    var c := (1.0 - allAxesHeight) * 100.0;
    if n < 5 {
      var p := FirstMoved(positions, c);
      RecalculatedShape(p, 0.0);
      TimesIsProduct(n, 0.0);
      SumChangedAt(Heights(positions), Heights(p), 0);
    } else {
      RecalculatedShape(positions, 1.0 * (c / (n as real)));
      SharesAddUp(n, c);
    }
  }

  /** `resizeYAxes` on a pane add (the heights add up to more than the plot): the
      new layout fills the plot exactly when the panes before the new one did. */
  lemma AddBranchLayout(yAxes: seq<Axis>, plotHeight: real, defaultHeight: real)
    requires |yAxes| >= 2
    requires AllAxesHeight(yAxes, plotHeight, defaultHeight) > 1.0
    ensures var h := Heights(Positions(yAxes, plotHeight, defaultHeight));
      FillsPlot(Layout(yAxes, plotHeight, defaultHeight)) <==> Sum(h[..|yAxes| - 1]) == 100.0
  {
    if |yAxes| < 6 {
      AddFewPanes(Positions(yAxes, plotHeight, defaultHeight), defaultHeight);
    } else {
      AddManyPanes(Positions(yAxes, plotHeight, defaultHeight), defaultHeight);
    }
  }

  /** `resizeYAxes` on a pane removal (the heights add up to at most the plot):
      the new layout always fills the plot. */
  lemma RemoveBranchLayout(yAxes: seq<Axis>, plotHeight: real, defaultHeight: real)
    requires |yAxes| >= 1
    requires AllAxesHeight(yAxes, plotHeight, defaultHeight) <= 1.0
    ensures FillsPlot(Layout(yAxes, plotHeight, defaultHeight))
  {
    PositionsHeightSum(yAxes, plotHeight, defaultHeight);
    RemoveFillsPlot(Positions(yAxes, plotHeight, defaultHeight), AllAxesHeight(yAxes, plotHeight, defaultHeight));
  }

  /** A single pane whose height exceeds the plot is not shrunk to fit: being both
      pane 0 and the last pane, it is moved to the bottom `defaultHeight` percent. */
  lemma SinglePaneAdd(yAxes: seq<Axis>, plotHeight: real, defaultHeight: real)
    requires |yAxes| == 1
    requires AllAxesHeight(yAxes, plotHeight, defaultHeight) > 1.0
    ensures Layout(yAxes, plotHeight, defaultHeight) == [Position(Some(100.0 - defaultHeight), defaultHeight)]
  {
    var r := Layout(yAxes, plotHeight, defaultHeight);
    assert r[0] == Position(Some(100.0 - defaultHeight), defaultHeight);
  }

  /** Removing nothing (the heights already add up to the plot) leaves every height
      as it was. */
  lemma FullPlotKeepsHeights(yAxes: seq<Axis>, plotHeight: real, defaultHeight: real)
    requires |yAxes| >= 1
    requires AllAxesHeight(yAxes, plotHeight, defaultHeight) == 1.0
    ensures Heights(Layout(yAxes, plotHeight, defaultHeight)) == Heights(Positions(yAxes, plotHeight, defaultHeight))
  {
    PositionsHeightSum(yAxes, plotHeight, defaultHeight);
    RemoveFillsPlot(Positions(yAxes, plotHeight, defaultHeight), 1.0);
  }

  /**
   * AddLayout below six panes. HeightChange(false, 0.0, ...) is zero: it is written this
   * way only so that it matches the term in RecalculateYAxisPositions' ensures.
   */
  lemma AddLayoutFew(positions: seq<Position>, defaultHeight: real)
    requires 0 < |positions| < 6
    ensures AddLayout(positions, defaultHeight)
         == Recalculated(FirstMoved(positions, -defaultHeight), HeightChange(false, 0.0, defaultHeight))[|positions| - 1 := Position(Some(100.0 - defaultHeight), defaultHeight)]
  {
  }

  /** AddLayout for six or more panes, with the shares as plain values. */
  lemma AddLayoutMany(positions: seq<Position>, defaultHeight: real, d: real, changedSpace: real)
    requires |positions| >= 6
    requires d == 100.0 / (|positions| as real)
    requires changedSpace == d / ((|positions| - 1) as real)
    ensures AddLayout(positions, defaultHeight)
         == Recalculated(positions, HeightChange(true, -1.0, changedSpace))[|positions| - 1 := Position(Some(100.0 - d), d)]
  {
  }

  /**
   * RemoveLayout below five panes. HeightChange(false, 0.0, ...) is zero, written this way
   * only to match the term in RecalculateYAxisPositions' ensures.
   */
  lemma RemoveLayoutFew(positions: seq<Position>, allAxesHeight: real, changedSpace: real)
    requires 0 < |positions| < 5
    requires changedSpace == (1.0 - allAxesHeight) * 100.0
    ensures RemoveLayout(positions, allAxesHeight) == Recalculated(FirstMoved(positions, changedSpace), HeightChange(false, 0.0, changedSpace))
  {
  }

  /** RemoveLayout for five or more panes, with the share as a plain value. */
  lemma RemoveLayoutMany(positions: seq<Position>, allAxesHeight: real, changedSpace: real)
    requires |positions| >= 5
    requires changedSpace == (1.0 - allAxesHeight) * 100.0 / (|positions| as real)
    ensures RemoveLayout(positions, allAxesHeight) == Recalculated(positions, HeightChange(true, 1.0, changedSpace))
  {
  }

  /** The add-pane branch of resizeYAxes: every pane gives up space to the newest one. */
  method MakeRoomForNewPane(positions: array<Position>, defaultHeight: real)
    requires positions.Length > 0
    modifies positions
    ensures positions[..] == AddLayout(old(positions[..]), defaultHeight)
  {
    ghost var start := positions[..];
    ghost var shrunk: seq<Position>;
    var allAxesLength := positions.Length;
    var d := defaultHeight;
    var changedSpace := d;
    if allAxesLength < 6 {
      positions[0] := positions[0].(height := positions[0].height - changedSpace);
      assert positions[..] == FirstMoved(start, -defaultHeight);
      shrunk := Recalculated(FirstMoved(start, -defaultHeight), HeightChange(false, 0.0, changedSpace));
      AddLayoutFew(start, defaultHeight);
      RecalculateYAxisPositions(positions, changedSpace, false, 0.0);
      assert positions[..] == shrunk;
      assert AddLayout(start, defaultHeight) == shrunk[allAxesLength - 1 := Position(Some(100.0 - d), d)];
    } else {
      d := 100.0 / (allAxesLength as real);
      changedSpace := d / ((allAxesLength - 1) as real);
      shrunk := Recalculated(start, HeightChange(true, -1.0, changedSpace));
      AddLayoutMany(start, defaultHeight, d, changedSpace);
      RecalculateYAxisPositions(positions, changedSpace, true, -1.0);
      assert positions[..] == shrunk;
      assert AddLayout(start, defaultHeight) == shrunk[allAxesLength - 1 := Position(Some(100.0 - d), d)];
    }
    positions[allAxesLength - 1] := Position(Some(100.0 - d), d);
    assert positions[..] == shrunk[allAxesLength - 1 := Position(Some(100.0 - d), d)];
  }

  /** The remove-pane branch of resizeYAxes: the freed space goes back to the remaining panes. */
  method ReclaimFreedSpace(positions: array<Position>, allAxesHeight: real)
    requires positions.Length > 0
    modifies positions
    ensures positions[..] == RemoveLayout(old(positions[..]), allAxesHeight)
  {
    ghost var start := positions[..];
    var allAxesLength := positions.Length;
    var changedSpace := (1.0 - allAxesHeight) * 100.0;
    if allAxesLength < 5 {
      positions[0] := positions[0].(height := positions[0].height + changedSpace);
      assert positions[..] == FirstMoved(start, changedSpace);
      RemoveLayoutFew(start, allAxesHeight, changedSpace);
      RecalculateYAxisPositions(positions, changedSpace, false, 0.0);
    } else {
      changedSpace := changedSpace / (allAxesLength as real);
      RemoveLayoutMany(start, allAxesHeight, changedSpace);
      RecalculateYAxisPositions(positions, changedSpace, true, 1.0);
    }
  }

  /** The non-navigator axes, in chart order. */
  function KeptAxes(axes: seq<Axis>): (r: seq<Axis>)
    ensures |r| == |OldiePolyfills.Selected(axes, KeepAxis, |axes|)|
  {
    var idx := OldiePolyfills.Selected(axes, KeepAxis, |axes|);
    seq(|idx|, k requires 0 <= k < |idx| => axes[idx[k]])
  }

  predicate HasPane(axes: seq<Axis>)
  {
    exists j :: 0 <= j < |axes| && IsNotNavigatorYAxis(axes[j])
  }

  lemma HasPaneKept(axes: seq<Axis>)
    requires HasPane(axes)
    ensures |KeptAxes(axes)| > 0
  {
    var j :| 0 <= j < |axes| && IsNotNavigatorYAxis(axes[j]);
    assert KeepAxis(axes[j], j);
  }

  /** What `yAxis.update({height: h + '%', top: t + '%', resize: r})` leaves in an
      axis's options. */
  function Updated(axis: Axis, position: Position, resizer: Resizer): Axis
    requires position.top.Some?
  {
    axis.(height := Percent(position.height), top := Percent(position.top.value), resize := Some(resizer))
  }

  /** The position part of resizeYAxes: measure the kept panes, then make room or reclaim space. */
  method ResizedPositions(yAxes: seq<Axis>, plotHeight: real, defaultHeight: real)
    returns (layout: seq<Position>)
    requires |yAxes| > 0
    ensures layout == Layout(yAxes, plotHeight, defaultHeight)
  {
    var positions, allAxesHeight := GetYAxisPositions(yAxes, plotHeight, defaultHeight);
    ghost var start := Positions(yAxes, plotHeight, defaultHeight);
    assert positions[..] == start;
    if allAxesHeight > 1.0 {
      MakeRoomForNewPane(positions, defaultHeight);
    } else {
      ReclaimFreedSpace(positions, allAxesHeight);
    }
    layout := positions[..];
  }

  /**
   * The write-back loop of resizeYAxes: the k-th kept axis, found at index idx[k] of the
   * chart's axes, receives the k-th position and resizer; every other axis is untouched.
   */
  method UpdateAxes(axes: seq<Axis>, idx: seq<nat>, positions: seq<Position>, resizers: seq<Resizer>)
    returns (updated: seq<Axis>)
    requires |positions| == |idx| && |resizers| == |idx|
    requires forall k :: 0 <= k < |idx| ==> idx[k] < |axes| && positions[k].top.Some?
    requires forall k, k' :: 0 <= k < k' < |idx| ==> idx[k] < idx[k']
    ensures |updated| == |axes|
    ensures forall j :: 0 <= j < |axes| && j !in idx ==> updated[j] == axes[j]
    ensures forall k :: 0 <= k < |idx| ==> updated[idx[k]] == Updated(axes[idx[k]], positions[k], resizers[k])
  {
    updated := axes;
    for k := 0 to |idx|
      invariant |updated| == |axes|
      invariant forall j :: 0 <= j < |axes| && j !in idx[..k] ==> updated[j] == axes[j]
      invariant forall k' :: 0 <= k' < k ==> updated[idx[k']] == Updated(axes[idx[k']], positions[k'], resizers[k'])
    {
      assert idx[k] !in idx[..k];
      updated := updated[idx[k] := Updated(updated[idx[k]], positions[k], resizers[k])];
    }
  }

  /** A navigator axis is never among the kept ones. */
  lemma NavigatorNotKept(axes: seq<Axis>, j: nat)
    requires j < |axes| && !IsNotNavigatorYAxis(axes[j])
    ensures j !in OldiePolyfills.Selected(axes, KeepAxis, |axes|)
  {
  }

  /**
   * `after` is `before` with every non-navigator axis updated from the layout of the
   * non-navigator axes: the k-th of them receives the k-th position and resizer, and
   * every navigator axis is left as it was.
   */
  predicate ResizedFrom(before: seq<Axis>, after: seq<Axis>, plotHeight: real, defaultHeight: Option<real>)
  {
    var idx := OldiePolyfills.Selected(before, KeepAxis, |before|);
    var yAxes := KeptAxes(before);
    |after| == |before| && |yAxes| > 0 &&
    (forall j :: 0 <= j < |before| && !IsNotNavigatorYAxis(before[j]) ==> after[j] == before[j]) &&
    var layout := Layout(yAxes, plotHeight, EffectiveDefault(defaultHeight));
    forall k :: 0 <= k < |idx| ==> after[idx[k]] == Updated(before[idx[k]], layout[k], ResizerAt(yAxes, k))
  }

  /** The body of `resizeYAxes` over the chart's axes and plot height. */
  method ResizeAxes(axes: seq<Axis>, plotHeight: real, defaultHeight: Option<real>) returns (updated: seq<Axis>)
    requires HasPane(axes)
    ensures ResizedFrom(axes, updated, plotHeight, defaultHeight)
  {
    HasPaneKept(axes);
    var d := EffectiveDefault(defaultHeight);
    var idx := OldiePolyfills.Selected(axes, KeepAxis, |axes|);
    var yAxes := OldiePolyfills.Filter(axes, KeepAxis);
    assert yAxes == KeptAxes(axes);
    var layout := ResizedPositions(yAxes, plotHeight, d);
    var resizers := GetYAxisResizers(yAxes);
    updated := UpdateAxes(axes, idx, layout, resizers);
    forall j | 0 <= j < |axes| && !IsNotNavigatorYAxis(axes[j])
      ensures j !in idx
    {
      NavigatorNotKept(axes, j);
    }
  }

  class Chart {
    var yAxis: seq<Axis>
    var plotHeight: real

    constructor (yAxis: seq<Axis>, plotHeight: real)
      ensures this.yAxis == yAxis && this.plotHeight == plotHeight
    {
      this.yAxis := yAxis;
      this.plotHeight := plotHeight;
    }
  }

  class NavigationBindings {
    const chart: Chart

    constructor (chart: Chart)
      ensures this.chart == chart
    {
      this.chart := chart;
    }

    /** `resizeYAxes`: lays out the non-navigator axes again and updates each of
        them with its position and resizer; navigator axes are left alone. With no
        non-navigator axis at all the source fails on `positions[0]`. */
    method ResizeYAxes(defaultHeight: Option<real>)
      requires HasPane(chart.yAxis)
      modifies chart
      ensures chart.plotHeight == old(chart.plotHeight)
      ensures ResizedFrom(old(chart.yAxis), chart.yAxis, chart.plotHeight, defaultHeight)
    {
      var updated := ResizeAxes(chart.yAxis, chart.plotHeight, defaultHeight);
      chart.yAxis := updated;
    }
  }
}
