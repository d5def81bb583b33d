/** The two value-dependent icons drawn on the ends of the seesaw plank.

    The supply icon stacks up to six boxes, revealed one by one as a discrete
    level grows with the supply value; the demand icon draws a fixed cart whose
    size grows continuously with the demand value, scaled about a fixed anchor
    point so that it stays standing on the plank. Both receive a slider value.
 */
module Icons {
  import opened Seesaw

  /** The value both icons assume when none is given. */
  const DefaultIconValue: int := 50

  /** Supply units per box level. */
  const LevelStep: int := 18

  /** Number of box positions in the supply icon. */
  const BoxCount: int := 6

  /** JavaScript's `Math.ceil`: the least integer not below `x`. */
  function JsCeil(x: real): (n: int)
    ensures n as real - 1.0 < x <= n as real
  {
    -((-x).Floor)
  }

  // ---------------------------------------------------------------------------
  // Supply icon

  /** The number of box levels: `Math.ceil(value / 18)`. */
  function SupplyLevel(value: int): (level: int)
    ensures (level - 1) * LevelStep < value <= level * LevelStep
  {
    JsCeil(value as real / LevelStep as real)
  }

  /** The real-valued ceiling is integer ceiling division. */
  lemma LevelIsCeilingDivision(value: int)
    ensures SupplyLevel(value) == (value + LevelStep - 1) / LevelStep
  {
  }

  /** Over the slider's range the level runs from 1 to 6. */
  lemma LevelBounds(value: int)
    requires InRange(value)
    ensures 1 <= SupplyLevel(value) <= BoxCount
  {
  }

  lemma LevelExamples()
    ensures SupplyLevel(MinValue) == 1
    ensures SupplyLevel(MaxValue) == BoxCount
    ensures SupplyLevel(DefaultIconValue) == 3
  {
  }

  /** More supply never shows fewer box levels. */
  lemma LevelMonotone(value: int, value': int)
    requires value <= value'
    ensures SupplyLevel(value) <= SupplyLevel(value')
  {
  }

  /** The boxes drawn at a level, numbered 1 to 6 in drawing order; each box has
      its own guard. */
  function VisibleBoxes(level: int): (boxes: set<int>)
    ensures forall k :: k in boxes <==> 1 <= k <= BoxCount && k <= level
  {
    (if level >= 1 then {1} else {}) +
    (if level >= 2 then {2} else {}) +
    (if level >= 3 then {3} else {}) +
    (if level >= 4 then {4} else {}) +
    (if level >= 5 then {5} else {}) +
    (if level >= 6 then {6} else {})
  }

  /** The boxes whose detail line is drawn; only boxes 1, 2 and 4 have one. */
  function DetailLines(level: int): (lines: set<int>)
    ensures lines <= VisibleBoxes(level)
    ensures forall k :: k in lines <==> (k == 1 || k == 2 || k == 4) && k <= level
  {
    (if level >= 1 then {1} else {}) +
    (if level >= 2 then {2} else {}) +
    (if level >= 4 then {4} else {})
  }

  /** Boxes 1 to n. */
  function FirstBoxes(n: int): set<int> {
    if n <= 0 then {} else FirstBoxes(n - 1) + {n}
  }

  lemma {:induction false} FirstBoxesMembers(n: int, k: int)
    ensures k in FirstBoxes(n) <==> 1 <= k <= n
  {
    if n > 0 {
      FirstBoxesMembers(n - 1, k);
    }
  }

  /** The level cut to the number of box positions. */
  function ClampLevel(level: int): (n: nat)
    ensures n <= BoxCount
    ensures n == level <==> 0 <= level <= BoxCount
  {
    if level < 0 then 0 else if level > BoxCount then BoxCount else level
  }

  lemma {:induction false} FirstBoxesSize(n: nat)
    ensures |FirstBoxes(n)| == n
  {
    if n > 0 {
      FirstBoxesSize(n - 1);
      FirstBoxesMembers(n - 1, n);
    }
  }

  /** The reveal is cumulative: the shown boxes are exactly boxes 1 to
      min(level, 6), and so is their count. */
  lemma BoxesArePrefix(level: int)
    ensures VisibleBoxes(level) == FirstBoxes(ClampLevel(level))
    ensures |VisibleBoxes(level)| == ClampLevel(level)
  {
    var n := ClampLevel(level);
    forall k
      ensures k in VisibleBoxes(level) <==> k in FirstBoxes(n)
    {
      FirstBoxesMembers(n, k);
    }
    FirstBoxesSize(n);
  }

  /** A detail line is drawn only on a drawn box, and on every drawn box that has one. */
  lemma LinesOnVisibleBoxes(level: int)
    ensures DetailLines(level) <= VisibleBoxes(level)
    ensures DetailLines(level) == VisibleBoxes(level) * {1, 2, 4}
  {
  }

  /** For a slider value, the supply icon shows as many boxes as its level. */
  lemma SupplyIconBoxCount(value: int)
    requires InRange(value)
    ensures |VisibleBoxes(SupplyLevel(value))| == SupplyLevel(value)
  {
    LevelBounds(value);
    BoxesArePrefix(SupplyLevel(value));
  }

  // ---------------------------------------------------------------------------
  // Demand icon

  /** Size factor of the cart: `0.5 + value / 100`. */
  function DemandScale(value: int): (scale: real)
    ensures scale == 1.0 <==> value == DefaultIconValue
    ensures InRange(value) ==> 0.6 <= scale <= 1.5
  {
    0.5 + value as real / 100.0
  }

  /** Both ends of the range are reached: the largest factor is 1.5. */
  lemma ScaleExtremes()
    ensures DemandScale(MinValue) == 0.6
    ensures DemandScale(MaxValue) == 1.5
  {
  }

  /** More demand always gives a strictly larger cart. */
  lemma ScaleStrictlyIncreasing(value: int, value': int)
    requires value < value'
    ensures DemandScale(value) < DemandScale(value')
  {
  }

  datatype Point = Point(x: real, y: real)

  /** An SVG transform list `translate(dx, dy) scale(factor)`. */
  datatype Transform = Transform(dx: real, dy: real, factor: real)

  /** The point of the cart that stays put while it grows. */
  const Anchor: Point := Point(50.0, 80.0)

  /** The cart's transform for a scale factor. */
  function CartTransform(scale: real): (t: Transform)
    ensures t.factor == scale
    ensures Apply(t, Anchor) == Anchor
  {
    Transform(50.0 - 50.0 * scale, 80.0 - 80.0 * scale, scale)
  }

  /** SVG `translate(dx, dy)` applied to a point. */
  function Translate(dx: real, dy: real, p: Point): Point {
    Point(p.x + dx, p.y + dy)
  }

  /** SVG `scale(factor)` applied to a point: a scaling about the origin. */
  function ScaleBy(factor: real, p: Point): Point {
    Point(factor * p.x, factor * p.y)
  }

  /** Where a transform list sends a point: the rightmost entry acts first, so
      the point is scaled and then translated. */
  function Apply(t: Transform, p: Point): (q: Point)
    ensures q.x == t.factor * p.x + t.dx && q.y == t.factor * p.y + t.dy
  {
    Translate(t.dx, t.dy, ScaleBy(t.factor, p))
  }

  /** The anchor is fixed under every scale factor. */
  lemma AnchorFixed(scale: real)
    ensures Apply(CartTransform(scale), Anchor) == Anchor
  {
  }

  /** The cart's transform is the scaling by `scale` centred on the anchor. */
  lemma ScalesAboutAnchor(scale: real, p: Point)
    ensures Apply(CartTransform(scale), p).x - Anchor.x == scale * (p.x - Anchor.x)
    ensures Apply(CartTransform(scale), p).y - Anchor.y == scale * (p.y - Anchor.y)
  {
  }
}
