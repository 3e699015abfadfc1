# Highcharts stock tools and old-IE array polyfills, modelled in Dafny

This project models the core of two Highcharts 8.0.1 modules.

**The stock tools' pane layout allocator** (`NavigationBindings.getYAxisPositions`, `getYAxisResizers`, `recalculateYAxisPositions`, `resizeYAxes` and `bindingsUtils.isNotNavigatorYAxis`).
- When an indicator pane is added or removed, every y-axis except the navigator's gets a new `height` and `top`, in percent of the plot.
- Each of those axes also gets a drag-resizer chained to the pane below it.

**The annotation helpers beside it.**
- `bindingsUtils.updateNthPoint` drags the trailing points of an annotation to the cursor.
- `bindingsUtils.attractToPoint` snaps the cursor to the series point nearest along x.

**The toolbar's class-list bookkeeping.**
- `Toolbar.eraseActiveButtons`, `selectButton` and `unselectAllButtons`.
- The click handler of a submenu arrow.

**The `Array.prototype` polyfills of `oldie-polyfills`.** These are `forEach`, `map`, `indexOf`, `filter`, `some` and `reduce`, plus `Object.keys`.

Modules, one per file:
- `Wrappers` (`wrappers.dfy`): `Option`, standing for a value or `undefined`.
- `OldiePolyfills` (`polyfills.dfy`): each polyfill is a method with the source's counted loop. It is proved against a declarative specification: `Selected` gives the indices a filter keeps, and `FoldRange` is a left fold.
- `StockToolsLayout` (`pane_layout.dfy`):
  - pure specifications of each step: `Positions`, `ResizerAt`, `Recalculated`, `AddLayout`, `RemoveLayout` and `Layout`;
  - the imperative steps over an `array<Position>`, each proved equal to its specification;
  - lemmas for what the layout promises: contiguous tops, freed space returned in full, and the forced last slot;
  - `NavigationBindings.ResizeYAxes`, which updates the axes held by a `Chart` object.
- `BindingsUtils` (`bindings_utils.dfy`): `UpdateNthPoint` overwrites an array in place; `AttractToPoint` is an arg-min scan.
- `StockToolsToolbar` (`toolbar.dfy`): toolbar buttons as an array of `(current, active, submenu)` records, with methods that edit it in place.

Numbers are exact reals, and Highcharts' `correctFloat` is the identity. A top that is not a finite number (NaN or an infinity) is `None`.

## Model

| member | source | states |
|---|---|---|
| OldiePolyfills.Selected | ajax/libs/highcharts/8.0.1/modules/oldie-polyfills.src.js:89-103 | the indices a filter keeps among the first k elements: each kept, strictly increasing, and every kept index below k included |
| OldiePolyfills.ForEach | ajax/libs/highcharts/8.0.1/modules/oldie-polyfills.src.js:48-59 | the callback runs on the defined slots in index order; the method returns the first index whose callback returned exactly `false`, and nothing when there is none; no callback runs after that index |
| OldiePolyfills.Map | ajax/libs/highcharts/8.0.1/modules/oldie-polyfills.src.js:60-72 | same length as the input, with `results[i] == fn(arr[i], i)` |
| OldiePolyfills.IndexOf | ajax/libs/highcharts/8.0.1/modules/oldie-polyfills.src.js:73-88 | the smallest index from `fromIndex` (0 when absent or zero) below the length whose element is `member`, otherwise -1; out-of-range reads are `undefined` |
| OldiePolyfills.Filter | ajax/libs/highcharts/8.0.1/modules/oldie-polyfills.src.js:89-103 | exactly the elements whose callback holds, in original order, and never more than the input |
| OldiePolyfills.ArraySome | ajax/libs/highcharts/8.0.1/modules/oldie-polyfills.src.js:104-115 | true iff some callback answers exactly `true`; the scan stops at the first such answer, and no earlier callback answered `true` |
| OldiePolyfills.FoldRangeFirstStep | ajax/libs/highcharts/8.0.1/modules/oldie-polyfills.src.js:116-127 | the fold consumes the leftmost element first, as the loop does |
| OldiePolyfills.Reduce | ajax/libs/highcharts/8.0.1/modules/oldie-polyfills.src.js:116-127 | with an initial value, a left fold from index 0; without one, a left fold from index 1 seeded with `arr[0]`; `undefined` for an empty array with no initial value |
| OldiePolyfills.OwnKeysExact | ajax/libs/highcharts/8.0.1/modules/oldie-polyfills.src.js:128-139 | a name is a key iff some own enumerated property has it; inherited names are excluded; with distinct enumerated names, no key repeats |
| OldiePolyfills.Keys | ajax/libs/highcharts/8.0.1/modules/oldie-polyfills.src.js:128-139 | the loop returns exactly the own property names, in enumeration order |
| StockToolsLayout.NavigatorNotKept | ajax/libs/highcharts/8.0.1/modules/stock-tools.src.js:303-305 | an axis whose className is `highcharts-navigator-yaxis` is never among the axes the layout works on |
| StockToolsLayout.PositionsHeightSum | ajax/libs/highcharts/8.0.1/modules/stock-tools.src.js:365-391 | the percent heights of the measured positions add up to 100 times `allAxesHeight` |
| StockToolsLayout.GetYAxisPositions | ajax/libs/highcharts/8.0.1/modules/stock-tools.src.js:365-391 | one position per axis: the height is 100 × its fraction (a percentage, pixels over the plot height, or `defaultHeight/100` when not a number), and the top likewise; `allAxesHeight` is the sum of the height fractions |
| StockToolsLayout.GetYAxisResizers | ajax/libs/highcharts/8.0.1/modules/stock-tools.src.js:408-431 | same length as the axes; entry i < n-1 is enabled and names axis i+1 by id, or by index when it has no id; the last entry is disabled |
| StockToolsLayout.StackedShape | ajax/libs/highcharts/8.0.1/modules/stock-tools.src.js:529-539 | stacking heights gives contiguous tops from 0 and keeps the heights |
| StockToolsLayout.RecalculatedShape | ajax/libs/highcharts/8.0.1/modules/stock-tools.src.js:529-539 | recalculation keeps the pane count, moves each height by the delta (zero unless heights are modified), makes the tops contiguous, and moves the total height by n × delta |
| StockToolsLayout.RecalculateYAxisPositions | ajax/libs/highcharts/8.0.1/modules/stock-tools.src.js:529-539 | the in-place left-to-right loop (each top is the already-updated top plus height before it) equals the recalculation specification |
| StockToolsLayout.Layout | ajax/libs/highcharts/8.0.1/modules/stock-tools.src.js:448-501 | after resizing there is one position per kept axis, and every top is a finite number |
| StockToolsLayout.ForcedLastSlot | ajax/libs/highcharts/8.0.1/modules/stock-tools.src.js:481-484 | a stack whose last slot is forced to `(top 100-d, height d)` fills the plot iff the panes above it take exactly `100-d` |
| StockToolsLayout.AddFewPanes | ajax/libs/highcharts/8.0.1/modules/stock-tools.src.js:463-485 | adding with fewer than 6 panes: pane 0 shrinks by `defaultHeight`, the middle panes keep their heights, the last pane is forced to the bottom `defaultHeight` percent, and the plot is filled iff the earlier panes summed to 100 |
| StockToolsLayout.ShrinkAllForceLast | ajax/libs/highcharts/8.0.1/modules/stock-tools.src.js:471-484 | shrinking every pane by c and forcing the last slot: the earlier panes lose c each, and the plot is filled iff their new total is `100-d` |
| StockToolsLayout.AddManyPanes | ajax/libs/highcharts/8.0.1/modules/stock-tools.src.js:471-485 | adding at 6 panes or more: every earlier pane shrinks by `(100/n)/(n-1)`, the last takes the bottom `100/n` percent, and the plot is filled iff the earlier panes summed to 100 |
| StockToolsLayout.RemoveFillsPlot | ajax/libs/highcharts/8.0.1/modules/stock-tools.src.js:486-501 | removing: the freed `(1-total)*100` percent goes to pane 0 below 5 panes, or equally to all n panes from 5 on, and the result always fills the plot exactly |
| StockToolsLayout.AddBranchLayout | ajax/libs/highcharts/8.0.1/modules/stock-tools.src.js:448-485 | for a total above 1 and at least two panes, the new layout fills the plot iff the panes before the new one filled it |
| StockToolsLayout.SinglePaneAdd | ajax/libs/highcharts/8.0.1/modules/stock-tools.src.js:463-485 | a single pane whose height exceeds the plot is moved to the bottom `defaultHeight` percent rather than made to fit |
| StockToolsLayout.RemoveBranchLayout | ajax/libs/highcharts/8.0.1/modules/stock-tools.src.js:486-501 | for a total of at most 1, the new layout fills the plot: contiguous tops from 0, heights summing to 100 |
| StockToolsLayout.FullPlotKeepsHeights | ajax/libs/highcharts/8.0.1/modules/stock-tools.src.js:486-501 | when the panes already fill the plot exactly, every height is kept |
| StockToolsLayout.MakeRoomForNewPane | ajax/libs/highcharts/8.0.1/modules/stock-tools.src.js:463-485 | the in-place add branch equals the add specification: below 6 panes, pane 0 shrinks; otherwise every pane does; then the last slot is forced |
| StockToolsLayout.ReclaimFreedSpace | ajax/libs/highcharts/8.0.1/modules/stock-tools.src.js:486-501 | the in-place remove branch equals the remove specification |
| StockToolsLayout.ResizedPositions | ajax/libs/highcharts/8.0.1/modules/stock-tools.src.js:448-501 | measure the panes, then make room (total above 1) or reclaim space (otherwise): the result is the layout specification |
| StockToolsLayout.UpdateAxes | ajax/libs/highcharts/8.0.1/modules/stock-tools.src.js:502-509 | the k-th kept axis receives exactly the k-th position, as percent height and top, and the k-th resizer; every other axis is untouched |
| StockToolsLayout.ResizeAxes | ajax/libs/highcharts/8.0.1/modules/stock-tools.src.js:448-510 | with a missing or zero `defaultHeight` read as 20: the axis count is kept, the navigator axes are untouched, and the k-th non-navigator axis receives the k-th entry of the layout (as percent height and top) and the k-th resizer |
| StockToolsLayout.NavigationBindings.ResizeYAxes | ajax/libs/highcharts/8.0.1/modules/stock-tools.src.js:448-510 | the chart's axes are replaced as ResizeAxes describes, and the plot height is not changed |
| BindingsUtils.OverwrittenPointwise | ajax/libs/highcharts/8.0.1/modules/stock-tools.src.js:323-341 | a drag keeps the point count and the points before `startIndex`, and moves every later point to the cursor, keeping its axis bindings |
| BindingsUtils.LatestDragWins | ajax/libs/highcharts/8.0.1/modules/stock-tools.src.js:323-341 | two drags of the same step leave the points where the second drag puts them |
| BindingsUtils.EarlierStartSupersedes | ajax/libs/highcharts/8.0.1/modules/stock-tools.src.js:323-341 | a drag from index j after a drag from k ≥ j gives the same points as the drag from j alone |
| BindingsUtils.UpdateNthPoint | ajax/libs/highcharts/8.0.1/modules/stock-tools.src.js:323-341 | the in-place loop sets every point from `startIndex` on to the cursor and keeps the others |
| BindingsUtils.AttractionOf | ajax/libs/highcharts/8.0.1/modules/stock-tools.src.js:282-289 | the snapped position is the point's own x and y and series, and `below` holds iff the cursor's y is under the point's |
| BindingsUtils.FirstClosestUnique | ajax/libs/highcharts/8.0.1/modules/stock-tools.src.js:273-281 | because the comparison is strict, ties keep the earliest point, so the chosen point is unique |
| BindingsUtils.FirstClosestIsMinimal | ajax/libs/highcharts/8.0.1/modules/stock-tools.src.js:273-281 | the chosen point is no farther along x than any defined point |
| BindingsUtils.AttractToPoint | ajax/libs/highcharts/8.0.1/modules/stock-tools.src.js:268-290 | no answer (the source's TypeError) iff no defined point is closer than `Number.MAX_VALUE`; otherwise the answer is built from the first point minimising the x distance |
| StockToolsToolbar.EraseOthersPointwise | ajax/libs/highcharts/8.0.1/modules/stock-tools.src.js:2819-2832 | `currentButton` is untouched; every other button loses current and active, and its submenu (if any) is hidden |
| StockToolsToolbar.EraseLeavesOnlyCurrentButton | ajax/libs/highcharts/8.0.1/modules/stock-tools.src.js:2819-2832 | afterwards at most one button is current, at most one is active, and at most one submenu is open |
| StockToolsToolbar.EraseOthersIdempotent | ajax/libs/highcharts/8.0.1/modules/stock-tools.src.js:2819-2832 | erasing twice around the same button equals erasing once |
| StockToolsToolbar.EraseActiveButtons | ajax/libs/highcharts/8.0.1/modules/stock-tools.src.js:2819-2832 | the in-place loop equals the erase specification |
| StockToolsToolbar.Toggled | ajax/libs/highcharts/8.0.1/modules/stock-tools.src.js:3065-3072 | selecting flips the active class and nothing else |
| StockToolsToolbar.SelectButton | ajax/libs/highcharts/8.0.1/modules/stock-tools.src.js:3065-3072 | only the given button changes, and its active class flips |
| StockToolsToolbar.UnselectOthersPointwise | ajax/libs/highcharts/8.0.1/modules/stock-tools.src.js:3079-3087 | the given button is untouched; every other button loses only its active class |
| StockToolsToolbar.UnselectAllButtons | ajax/libs/highcharts/8.0.1/modules/stock-tools.src.js:3079-3087 | the in-place loop equals the unselect specification |
| StockToolsToolbar.SelectEventKeepsOneActive | ajax/libs/highcharts/8.0.1/modules/stock-tools.src.js:3193-3206 | the event on a top-level button (unselect-all, then select the same button): afterwards at most one button is active, and the selected button is active iff it was not active before |
| StockToolsToolbar.SubmenuItemSelectEvent | ajax/libs/highcharts/8.0.1/modules/stock-tools.src.js:3193-3206 | the event on a submenu item: unselect-all clears only the item's siblings in its wrapper, leaving at most one active item (the clicked one, iff it was active); the parent button's active class flips; every other top-level button is kept |
| StockToolsToolbar.SubmenuItemSelectKeepsOtherActive | ajax/libs/highcharts/8.0.1/modules/stock-tools.src.js:3196-3204 | on the submenu-item path an already active top-level button stays active beside the toggled parent: two buttons can end active |
| StockToolsToolbar.SubmenuToggleExclusive | ajax/libs/highcharts/8.0.1/modules/stock-tools.src.js:2737-2776 | after a submenu-arrow click, at most one button is current and at most one submenu is open; the clicked button's current class flips, and its submenu is shown iff it is now current |
| StockToolsToolbar.SubmenuToggleTwice | ajax/libs/highcharts/8.0.1/modules/stock-tools.src.js:2737-2776 | two clicks on the same arrow restore the clicked button's current class |
| StockToolsToolbar.ToggleSubmenu | ajax/libs/highcharts/8.0.1/modules/stock-tools.src.js:2737-2776 | the in-place handler (erase the others, then close or open the clicked button's submenu) equals the toggle specification |

## Left out

- Floating point: numbers are exact reals. `correctFloat` rounding is the identity, and IEEE behaviour of `Math.abs`, `/` and `parseFloat` is not modelled.
- `parseFloat` and `isPercentage` are replaced by the `AxisSize` datatype (`Percent`, `Pixels`, `Missing`). A percentage string that parses to NaN is not represented.
- `getCoordinates` and the chart's pixel geometry (`yAxis.top - plotTop`, `yAxis.height`) are inputs.
- The `Axis.update` chart-engine call is a write of the new `height`, `top` and `resize` into an axis value, and an axis is identified by its position in `chart.yAxis`. Redraws are not modelled.
- `annotation.update` in `updateNthPoint` is not modelled. The model stops at the points array it is handed.
- NavigationBindings.ResizeYAxes: requires at least one non-navigator axis. With none, `allAxesHeight` is 0, so the remove branch runs and reads `positions[0].height` of an empty array (`stock-tools.src.js:491`), which throws.
- `attractToPoint` sees all series' points flattened into one sequence in series order. Series and axis objects are reduced to the axis indexes it reads, with an undefined index read as 0.
- Toolbar buttons are records in one array, and a button reference is an index. The following are not modelled:
  - DOM nodes and class strings;
  - the `indexOf` substring test on `className`;
  - `querySelectorAll` reaching nested submenu items;
  - the menu-width and submenu-position arithmetic of the submenu handler.
- SelectEventKeepsOneActive: covers the event on a top-level button only. The event on a submenu item is `SubmenuItemSelectEvent`, where the submenu's items are a separate sequence and the parent button is an index into the toolbar's buttons.
- ForEach, Map, ArraySome, Reduce: `thisArg` and the array passed as a third callback argument are not modelled. Callbacks are total functions that cannot mutate the array. A callback's return value in `forEach`/`some` is `Option<bool>`, where `None` is any value that is not a boolean.
- Reduce: the accumulator has the element type, not an arbitrary one.
- IndexOf: `fromIndex` is an integer or absent. A non-integer or NaN `fromIndex` is not modelled, and 0 and absent behave alike, as the source's `or 0` fallback makes them.
- Keys: the `for ... in` enumeration is given as a sequence of `(name, own)` pairs. Property lookup on real objects is not modelled.
- Everything around these operations is not part of this model:
  - the annotation `start`/`steps` bindings and the option and language tables;
  - `saveChart` (local storage);
  - `addFlagFromForm`, `manageIndicators` and `updateHeight`;
  - the toolbar's DOM construction (`createHTML`, `addButton`, `scrollButtons`, `showHideToolbar`);
  - the `getElementsByClassName` polyfill;
  - the polyfill install guards and module wrappers.
