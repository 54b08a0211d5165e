# Recruitment dashboard chart math, in Dafny

The recruitment dashboard page (`RecruitmentHome`) draws two charts by hand in SVG and
computes two cells of its recent-applications table. This project models that arithmetic
over exact reals and proves what the drawing relies on.

- **BarChart** (`bar_chart.dfy`) covers the bar chart's geometry:
  - the minimum, maximum and range of the series;
  - each bar's height `(value - min) / range * 180`, its rectangle top `220 - height` and its
    value label at `210 - height`;
  - its x offset `index * 40 + 30`;
  - its caption, which is the label's text before the first space;
  - the five gridlines at ratios 0, .25, .5, .75 and 1, at `y = 20 + (1 - ratio) * 200`,
    each labelled `round(min + range * ratio)`;
  - the viewBox width `n * 40` and the axis end `n * 40 - 20`.
- **PieChart** (`pie_chart.dfy`) covers the pie chart's angles, kept as fractions of a turn:
  - each share `value / total`;
  - the running `cumulativePercent` loop, kept as a method with a loop invariant;
  - the large-arc flag (`share > 0.5`);
  - the label position `cumulative - share / 2`;
  - the percentage label `round(share * 100)`.
- **ApplicationsTable** (`applications_table.dfy`) covers `getStatusColor` and the stage bar width
  `stage / 5 * 100`.
- **ChartMath** (`chart_math.dfy`) holds JavaScript's `Math.round`, written as
  `floor(x + 1/2)`, and the error type.

The component draws `NaN` or infinite coordinates for three inputs. The model gives each of them a
defined result instead:

- An empty bar series gives `Err(EmptySeries)`. Nothing is divided there. `Math.max()` of no
  values is `-Infinity` and `Math.min()` is `Infinity`, so the range is `-Infinity`. Every
  gridline label `Infinity + (-Infinity) * ratio` is then `NaN`.
- A bar series whose values are all equal gives `Err(FlatRange)`. There, every bar height is
  `0 / 0`.
- A non-empty pie series whose values add up to 0 gives `Err(ZeroTotal)`. There, every share
  divides by 0: a zero value gives `NaN`, and a non-zero one (in `[5, -5]`, say) gives an
  infinite share.
- An empty pie series divides nothing and draws no wedges. The model returns `Ok([])` for it,
  as the component does.

The pie chart never rejects negative values. The chaining lemmas hold for any non-zero total.
Only one lemma, `PieChart.AtMostOneLargeArc`, assumes values of at least 0, as the dashboard's
data are. It concludes two things: at most one wedge has the large-arc flag, and every label
sits inside its wedge. Elsewhere the sign matters only inside a contract:
- `PieChart.MakeWedge` places the label inside the wedge when the share is at least 0;
- `PieChart.Total` is at least 0 when every value is;
- `PieChart.OutlineCoversShare` is about a share between 0 and 1.

## Model

| member | source | states |
|---|---|---|
| `ChartMath.Round` | src/components/RecruitmentHome.tsx:120 | `Math.round` gives the nearest integer and rounds a half up: `r - 1/2 <= x < r + 1/2` |
| `ChartMath.RoundMonotone` | src/components/RecruitmentHome.tsx:120 | rounding keeps the order of two numbers, so ordered gridline values get ordered labels |
| `ChartMath.RoundIntegral` | src/components/RecruitmentHome.tsx:206 | an integer rounds to itself and an integer plus a half rounds up; a 100 % share is labelled 100 |
| `BarChart.MaxValue` | src/components/RecruitmentHome.tsx:103 | `Math.max` over a non-empty series is one of its values and is at least every value |
| `BarChart.MinValue` | src/components/RecruitmentHome.tsx:104 | `Math.min` over a non-empty series is one of its values and is at most every value |
| `BarChart.BarHeight` | src/components/RecruitmentHome.tsx:128 | the height is linear in the value: `h * range = (v - min) * 180`, i.e. `(v - min) / range * 180`; a value inside `[min, min + range]` gets a height in `[0, 180]`; the minimum gets 0 and the maximum 180 |
| `BarChart.BarHeightMonotone` | src/components/RecruitmentHome.tsx:128 | a larger value never gets a shorter bar; a strictly larger value gets a strictly taller bar |
| `BarChart.FirstToken` | src/components/RecruitmentHome.tsx:145 | `label.split(' ')[0]` is a prefix of the label with no space; it is followed by a space or by the end of the label |
| `BarChart.FirstTokenUnique` | src/components/RecruitmentHome.tsx:145 | those three facts determine the caption uniquely |
| `BarChart.FirstTokenOfWords` | src/components/RecruitmentHome.tsx:145 | a label `word + " " + rest` is captioned `word`, e.g. "Jan 1" becomes "Jan" |
| `BarChart.GridY` | src/components/RecruitmentHome.tsx:119-122 | a gridline at a ratio in `[0, 1]` lies between the top of the y-axis (y 20) and the x-axis (y 220); it is on the x-axis exactly at ratio 0 and at the top exactly at ratio 1 |
| `BarChart.MakeGridline` | src/components/RecruitmentHome.tsx:117-122 | a gridline keeps its ratio and sits at `GridY(ratio)`; for a ratio in `[0, 1]` and a non-negative range its label lies between `round(min)` and `round(min + range)` |
| `BarChart.Gridlines` | src/components/RecruitmentHome.tsx:117-124 | one gridline per ratio 0, .25, .5, .75, 1, in that order |
| `BarChart.GridlinesSpanAxis` | src/components/RecruitmentHome.tsx:117-122 | five gridlines, one per ratio, at `y = 20 + (1 - ratio) * 200`, gridline k labelled `round(min + (max - min) * ratio k)`; ratio 0 at y 220 labelled `round(min)`, ratio 1 at y 20 labelled `round(max)`; going up, y falls strictly and labels never fall |
| `BarChart.MakeBar` | src/components/RecruitmentHome.tsx:127-155 | bar `index` is at `x = 40 index + 30`, shows its point's value and first word, has height `(value - min) / range * 180`, stands on the x-axis (`top + height = 220`) with its value label 10 above its top; a value within the range puts the top between y 40 and y 220 |
| `BarChart.Bars` | src/components/RecruitmentHome.tsx:127-158 | one bar per point, bar i being point i's bar at position i, so the bars keep the input order |
| `BarChart.Layout` | src/components/RecruitmentHome.tsx:102-130 | empty series gives `EmptySeries`; equal values give `FlatRange`; otherwise viewBox width `n * 40`, axis end `n * 40 - 20`, five gridlines and one bar per point |
| `BarChart.BarsFollowInput` | src/components/RecruitmentHome.tsx:127-155 | for every index i, bar i is at `x = 40 i + 30` with height `BarHeight(value i, min, max - min)`, which is `(value i - min) / (max - min) * 180`, in `[0, 180]`; its rectangle top is `220 - height` and its value label at `210 - height`; it shows point i's value and caption, in input order |
| `BarChart.ExtremeBars` | src/components/RecruitmentHome.tsx:103-128 | every maximum-value bar is 180 high and every minimum-value bar is 0 high; each kind exists |
| `BarChart.BarsMonotone` | src/components/RecruitmentHome.tsx:127-134 | bars are ordered by height as their values are ordered, strictly for strictly ordered values |
| `BarChart.LayoutGridlines` | src/components/RecruitmentHome.tsx:103-122 | the laid-out chart's gridlines are those of the series' minimum and range, so each is labelled `round(min + range * ratio)`; they run from `round(min)` at the x-axis to `round(max)` at the top; their ratios increase and their labels never decrease |
| `BarChart.SampleTwoPoints` | src/components/RecruitmentHome.tsx:338-345 | for "Jan 1" = 45 and "Feb 5" = 91: width 80, heights 0 and 180, captions "Jan" and "Feb", middle gridline label 68 |
| `PieChart.Total` | src/components/RecruitmentHome.tsx:166 | the `reduce` total of no slices is 0, and the total of non-negative values is non-negative |
| `PieChart.Shares` | src/components/RecruitmentHome.tsx:173 | one share per slice; share i times the total gives back slice i's value |
| `PieChart.Wedges` | src/components/RecruitmentHome.tsx:172-191 | one wedge per share; wedge i spans share i, starts at the sum of the shares before it and ends at the sum of the shares up to and including it |
| `PieChart.MakeWedge` | src/components/RecruitmentHome.tsx:173-191 | a wedge ends `share` after it starts; large-arc flag is 1 exactly when `share > 0.5`, else 0; label midway between start and end; percentage label is the rounded `share * 100` |
| `PieChart.LayOutWedges` | src/components/RecruitmentHome.tsx:166-181 | the `cumulativePercent` loop yields, for every slice, the wedge starting at the sum of the shares before it; empty data gives no wedges; zero total gives `ZeroTotal` |
| `PieChart.SumOfQuotients` | src/components/RecruitmentHome.tsx:166-176 | adding up `value / total` equals dividing the `reduce` total by `total` |
| `PieChart.SharesSumToOne` | src/components/RecruitmentHome.tsx:166-176 | the shares of a series with a non-zero total add up to exactly 1 |
| `PieChart.WedgesCloseCircle` | src/components/RecruitmentHome.tsx:167-178 | the first wedge starts at 0; wedge i ends at the sum of shares 0..i; each wedge starts where the previous one ends; the last ends at 1 |
| `PieChart.AtMostOneLargeArc` | src/components/RecruitmentHome.tsx:181-191 | with non-negative values at most one wedge has the large-arc flag, and every label fraction lies between its wedge's start and end |
| `PieChart.PercentSumBound` | src/components/RecruitmentHome.tsx:206 | n rounded percentage labels add up to within n/2 of 100 times the sum of the shares |
| `PieChart.PercentLabelsNearHundred` | src/components/RecruitmentHome.tsx:206 | the percentage labels of a chart add up to within n/2 of 100, not always exactly 100 |
| `PieChart.TurnPosition` | src/components/RecruitmentHome.tsx:174-178 | a point on the circle depends only on the turn fraction after whole turns are dropped, a value in `[0, 1)` |
| `PieChart.SamePosition` | src/components/RecruitmentHome.tsx:174-178 | two turn fractions give the same point on the circle exactly when they are a whole number of turns apart |
| `PieChart.DrawnSweep` | src/components/RecruitmentHome.tsx:183-188 | the path as written covers a fraction of the circle in `[0, 1)`; it covers nothing exactly when its start and end are a whole number of turns apart |
| `PieChart.WholeTotalWedgeVanishes` | src/components/RecruitmentHome.tsx:174-188 | as written, a single slice with a non-zero value (of either sign) gets share 1, label 100 and an arc from a point to the same point, so its path covers nothing |
| `PieChart.WedgeOutline` | src/components/RecruitmentHome.tsx:183-188 | the corrected drawing uses a full disc exactly for a wedge whose share is at least 1, and otherwise the wedge's own sector path |
| `PieChart.OutlineSweep` | src/components/RecruitmentHome.tsx:183-188 | an outline covers a fraction of the circle in `[0, 1]`, all of it exactly when it is the disc |
| `PieChart.OutlineCoversShare` | src/components/RecruitmentHome.tsx:183-188 | drawing a whole-turn wedge as a disc makes every wedge with share in `[0, 1]` cover exactly its share |
| `PieChart.SamplePipeline` | src/components/RecruitmentHome.tsx:352-358 | the dashboard's pipeline totals 950; "Applied" starts at 0, is labelled 42 and has no large arc; "Offer" is labelled 5 |
| `ApplicationsTable.StatusColor` | src/components/RecruitmentHome.tsx:239-248 | "Applied" gets `bg-blue-100 text-blue-800`, "Screening" `bg-green-100 text-green-800`, "Interview" `bg-amber-100 text-amber-800`, "Assessment" `bg-indigo-100 text-indigo-800` and "Offer" `bg-purple-100 text-purple-800`; the gray badge is returned exactly for any other status |
| `ApplicationsTable.StatusColorsDistinct` | src/components/RecruitmentHome.tsx:239-248 | two different named statuses never get the same badge classes |
| `ApplicationsTable.StageWidth` | src/components/RecruitmentHome.tsx:303 | stages 0..5 give widths in `[0, 100]`; width 0 exactly for stage 0 and 100 exactly for stage 5 |
| `ApplicationsTable.StageWidthMonotone` | src/components/RecruitmentHome.tsx:303 | each stage adds exactly 20 %, so a later stage always fills more of the bar |

## Findings

| source | as written | input that shows it | evidently intended | confidence | as-written member | corrected member |
|---|---|---|---|---|---|---|
| src/components/RecruitmentHome.tsx:174-188 | a wedge is always drawn as `M centre L start A … end L centre`. For a share of 1, start and end are the same point. SVG 1.1 (Appendix F.6.2) omits an arc whose end points coincide. | a pie series with one slice, or with one non-zero slice, e.g. `[{label: "Applied", value: 400}]` | a 100 % slice drawn as a full disc, with its "100%" label | medium, not executed: in exact arithmetic the end points coincide; in floating point `sin(2π)` is about -2.4e-16, so the two y coordinates differ by about 2e-14, and whether a renderer then draws the arc depends on its coordinate precision | `PieChart.WholeTotalWedgeVanishes` | `PieChart.OutlineCoversShare` |

## Left out

- SVG and JSX markup, the Tailwind class strings other than `getStatusColor`, the icon
  components, `StatCard`, `DashboardLayout` and `getLayout`: these are composition, not
  computation.
- The cosine and sine that turn turn-fractions into arc end points and label coordinates
  (src/components/RecruitmentHome.tsx:174-178, 192-193). Angles stay as fractions of a turn.
  `PieChart.DrawnSweep` states only how much of the circle an arc between two such fractions
  covers.
- Floating point. All arithmetic is over exact reals, so `SharesSumToOne` holds exactly. In IEEE
  doubles the last wedge may end a rounding error away from 1.
- The degenerate inputs described above. They become `Err` results instead of the `NaN`
  drawings the component produces.
- The `activeTab` state and tab buttons, `new Date(...).toLocaleDateString()`, and the
  hardcoded sample arrays. The samples appear only as the concrete inputs of
  `BarChart.SampleTwoPoints` and `PieChart.SamplePipeline`.
- The pie's centre disc, its "Total" text and the legend (src/components/RecruitmentHome.tsx:211-224).
  They print the total and each slice's label and colour in input order, and compute nothing
  further.
- The module-federation build configuration (`next.config.ts`).
