# Supply-and-demand seesaw: a Dafny model of its derived state

The program is a single-screen teaching toy. Two sliders set `supply` and
`demand`, both integers from 10 to 100, starting at 50. From this pair the
screen computes:

- how far the seesaw plank tilts, `(demand - supply) / 90 * 25` degrees;
- how far the price block slides along the plank, `(demand - supply) / 90 * 40` percent;
- the displayed price, `Math.round(100 + (demand - supply))`;
- an explanatory message and a label colour. Both say "balanced" when the two
  values differ by less than 5. Otherwise they say "rising" when demand is
  larger and "falling" when supply is larger;
- the tint of the price block. It is a strict three-way comparison with no
  band: yellow when the values are equal, red when demand is larger, blue when
  supply is larger.

Two icons sit on the ends of the plank. The supply icon shows
`Math.ceil(supply / 18)` levels of boxes, one box per level, up to six. Boxes
1, 2 and 4 also get a detail line. The demand icon draws a cart scaled by
`0.5 + demand / 100`. A compensating translation keeps the point (50, 80) fixed.

The model has two modules:

- `Seesaw` (`seesaw.dfy`) covers `App.tsx`. Each derived value is a pure
  function of the pair. Message, colour and tint are enumerations, not the
  displayed strings or CSS classes. The state pair is the class `Market`, with
  the two slider setters as methods.
- `Icons` (`icons.dfy`) covers `components/Icons.tsx`. It holds the box level,
  the per-box reveal guards, the cart's scale and its SVG transform.

Tilt, offset and scale are exact `real`s. `Math.round` is modelled as JavaScript
defines it, `floor(x + 0.5)`. `Math.ceil` is `-floor(-x)`. Lemmas show that the
rounding does nothing to the integer price, and that the ceiling equals the
integer ceiling division `(value + 17) / 18`.

Two behaviours of the code are worth stating plainly:

- Nothing clamps the slider values. The setters store any integer they are
  given. They promise the bounds invariant only when the new value is within
  [10, 100].
- The price-block tint is a strict three-way comparison. It does not use the
  label's ±5 band. `TintRefinesMessage` and `TintDisagreesInsideBand` state
  exactly how the two relate.

Where the code and its own comments differ, the model follows the code:

- The comment at `components/Icons.tsx:33` gives the cart's scale range as
  0.6 to 1.4. The formula reaches 1.5 at value 100, and the model states 1.5
  (`ScaleExtremes`).
- The comment at `components/Icons.tsx:6` gives a box-count table that the
  formula does not produce (51 gives level 3). The model follows the formula.

The screen's derived values are functions. They are therefore the same
whenever they are computed from the same pair, and no lemma is needed for that.

## Model

| member | source | states |
|---|---|---|
| `Seesaw.JsRound` | App.tsx:23 | the result is the integer nearest to the argument, with halves rounded up |
| `Seesaw.JsRoundOfInteger` | App.tsx:23 | rounding an integer gives the same integer, so the price's `Math.round` has no effect |
| `Seesaw.TiltAngle` | App.tsx:9-14 | the tilt is zero exactly when supply equals demand, and positive exactly when demand is larger; for slider values it lies in [-25, 25] |
| `Seesaw.SlideOffset` | App.tsx:16-21 | the offset is zero exactly when the inputs are equal, and positive exactly when demand is larger; for slider values it lies in [-40, 40] |
| `Seesaw.PriceValue` | App.tsx:23 | the price is exactly `100 + demand - supply`; for slider values it lies in [10, 190] |
| `Seesaw.ExtremesAttained` | App.tsx:9-21 | (10, 100) gives tilt 25 and offset 40; (100, 10) gives tilt -25 and offset -40 |
| `Seesaw.SwapReflects` | App.tsx:10-23 | swapping supply and demand negates the tilt and the offset, and reflects the price about 100 (`p(s,d) + p(d,s) = 200`) |
| `Seesaw.Monotone` | App.tsx:10-23 | tilt, offset and price never decrease when demand rises, and never increase when supply rises |
| `Seesaw.OffsetFollowsTilt` | App.tsx:10-21 | the offset is the tilt times 40/25, so the block always slides the way the plank tilts |
| `Seesaw.EducationalMessage` | App.tsx:25-33 | balanced exactly when the values differ by less than 5; otherwise rising exactly when demand exceeds supply by 5 or more, and falling exactly when supply exceeds demand by 5 or more |
| `Seesaw.PriceTrendColor` | App.tsx:35-38 | neutral, rising and falling colour under exactly the same conditions as the message |
| `Seesaw.PriceBlockTint` | App.tsx:98 | yellow exactly when supply equals demand, red exactly when demand is larger, blue exactly when supply is larger |
| `Seesaw.ColorAgreesWithMessage` | App.tsx:25-38 | for every input the label colour is the one that matches the message |
| `Seesaw.MessageDescribesPrice` | App.tsx:23-33 | the message is balanced exactly when the price lies strictly between 95 and 105, rising exactly when it is at least 105, and falling exactly when it is at most 95 |
| `Seesaw.TintRefinesMessage` | App.tsx:98 | a rising message always comes with a red block and a falling one with a blue block; a yellow block comes only with a balanced message |
| `Seesaw.TintDisagreesInsideBand` | App.tsx:98 | (48, 50) gives a balanced message with a red block, and (50, 48) gives a balanced message with a blue block |
| `Seesaw.MessageExamples` | App.tsx:25-33 | the band is tested first: (48, 50) is balanced, (40, 50) rising, (60, 50) falling |
| `Seesaw.Derive` | App.tsx:10-98 | the whole view of a pair; for slider values tilt, offset and price stay within [-25, 25], [-40, 40] and [10, 190]; the label colour matches the message; a rising message comes with a red block, a falling one with a blue block, and a yellow block only with a balanced message |
| `Seesaw.EqualPairView` | App.tsx:10-38 | any equal pair, such as (10, 10) or (100, 100), gives tilt 0, offset 0, price 100, a balanced message, the neutral colour and a yellow block |
| `Seesaw.Market.Shown` | App.tsx:10-38 | what the screen shows for the current state; while both values are within the slider bounds, tilt, offset and price stay within their ranges, and the label colour matches the message |
| `Seesaw.Market.constructor` | App.tsx:6-7 | the initial state is (50, 50); it is within bounds and shows a level plank, price 100 and the balanced message |
| `Seesaw.Market.SetSupply` | App.tsx:125 | `supply` becomes the slider value and `demand` is unchanged; the bounds invariant holds again when the new value is in [10, 100] |
| `Seesaw.Market.SetDemand` | App.tsx:145 | `demand` becomes the slider value and `supply` is unchanged; the bounds invariant holds again when the new value is in [10, 100] |
| `Icons.JsCeil` | components/Icons.tsx:7 | the result is the least integer not below the argument |
| `Icons.SupplyLevel` | components/Icons.tsx:7 | the level is the unique integer with `(level - 1) * 18 < value <= level * 18`; see also `LevelIsCeilingDivision`, `LevelBounds`, `LevelMonotone` |
| `Icons.LevelIsCeilingDivision` | components/Icons.tsx:7 | for every integer value, `Math.ceil(value / 18)` equals `(value + 17) / 18` |
| `Icons.LevelBounds` | components/Icons.tsx:4-7 | for a value in [10, 100] the level lies in [1, 6] |
| `Icons.LevelExamples` | components/Icons.tsx:4-7 | value 10 gives level 1, value 100 gives level 6, and the default value 50 gives level 3 |
| `Icons.LevelMonotone` | components/Icons.tsx:7 | a larger value never gives a smaller level |
| `Icons.VisibleBoxes` | components/Icons.tsx:12-21 | box k is drawn exactly when 1 <= k <= 6 and the level is at least k |
| `Icons.DetailLines` | components/Icons.tsx:24-26 | the detail lines drawn are a subset of the drawn boxes; line k is drawn exactly when k is 1, 2 or 4 and the level is at least k |
| `Icons.BoxesArePrefix` | components/Icons.tsx:12-21 | the six separate guards show exactly boxes 1..min(level, 6), and none when the level is not positive; their number is min(level, 6) |
| `Icons.LinesOnVisibleBoxes` | components/Icons.tsx:12-26 | a detail line is drawn only on a drawn box, and on every drawn box among 1, 2 and 4 |
| `Icons.SupplyIconBoxCount` | components/Icons.tsx:7-21 | for a value in [10, 100], the icon shows exactly as many boxes as its level |
| `Icons.DemandScale` | components/Icons.tsx:31-34 | the scale is 1 exactly at the default value 50; for a value in [10, 100] it lies in [0.6, 1.5] |
| `Icons.ScaleExtremes` | components/Icons.tsx:33-34 | the range is reached at both ends: 0.6 at value 10 and 1.5 at value 100 |
| `Icons.ScaleStrictlyIncreasing` | components/Icons.tsx:34 | a larger value always gives a strictly larger cart |
| `Icons.CartTransform` | components/Icons.tsx:38 | the transform's scale is the given factor, and it leaves the anchor (50, 80) where it is |
| `Icons.Apply` | components/Icons.tsx:38 | a `translate(dx, dy) scale(s)` list scales first and translates second, sending (x, y) to (s·x + dx, s·y + dy) |
| `Icons.AnchorFixed` | components/Icons.tsx:38 | `translate(50 - 50s, 80 - 80s) scale(s)` maps (50, 80) to itself for every s |
| `Icons.ScalesAboutAnchor` | components/Icons.tsx:38 | the transform scales every point by s about (50, 80): each coordinate's distance from the anchor is multiplied by s |

## Left out

- JSX layout, CSS class strings, SVG geometry other than the box guards and the
  cart transform, and transition timing. These are presentation only.
- React mechanics: `useMemo` caching, re-rendering and `useState` dispatch.
  Only the state pair and its two overwrites are modelled.
- `parseInt(e.target.value)` in the slider handlers (App.tsx:125, App.tsx:145).
  This is browser input plumbing, so the setters take an integer directly.
- IEEE-754 rounding of the tilt, the offset and the scale, which are modelled
  as exact rationals. The float values the browser computes are not verified.
- `PriceBlockIcon` (components/Icons.tsx:55-64). It passes a colour into a fixed
  drawing and has no logic. The colour choice itself is `PriceBlockTint`.
- The icons' `size` parameter. It only sets the SVG width and height.
- The box-count table in the comment at components/Icons.tsx:6. The code does
  not implement it.
