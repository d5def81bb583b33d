/** The derived-state layer of the supply-and-demand seesaw screen.

    The screen holds two slider values, `supply` and `demand`, and computes from
    them the plank's tilt, the price block's slide offset, the displayed price,
    an explanatory message, the colour of the price label and the tint of the
    price block. Every derived value is a pure function of the pair; the only
    state is the pair itself, which the two sliders overwrite.
 */
module Seesaw {

  /** Slider bounds and the initial value of both sliders. */
  const MinValue: int := 10
  const MaxValue: int := 100
  const DefaultValue: int := 50

  /** Divisor used to normalise the difference `demand - supply`. */
  const Span: real := 90.0
  /** Largest plank rotation, in degrees. */
  const MaxTilt: real := 25.0
  /** Largest horizontal displacement of the price block, in percent. */
  const MaxSlide: real := 40.0
  /** Price shown when supply and demand are equal. */
  const BasePrice: int := 100
  /** Width of the band around equality in which the market counts as balanced. */
  const BalanceBand: int := 5

  predicate InRange(v: int) {
    MinValue <= v <= MaxValue
  }

  function Abs(x: int): int {
    if x < 0 then -x else x
  }

  /** JavaScript's `Math.round`: the nearest integer, halves rounded up. */
  function JsRound(x: real): (n: int)
    ensures n as real - 0.5 <= x < n as real + 0.5
  {
    (x + 0.5).Floor
  }

  lemma JsRoundOfInteger(k: int)
    ensures JsRound(k as real) == k
  {
  }

  // ---------------------------------------------------------------------------
  // Continuous outputs

  /** Rotation of the plank: positive tilts towards the demand side. */
  function TiltAngle(supply: int, demand: int): (angle: real)
    ensures angle == 0.0 <==> supply == demand
    ensures angle > 0.0 <==> demand > supply
    ensures InRange(supply) && InRange(demand) ==> -MaxTilt <= angle <= MaxTilt
  {
    ((demand - supply) as real / Span) * MaxTilt
  }

  /** Horizontal position of the price block relative to the plank's centre. */
  function SlideOffset(supply: int, demand: int): (offset: real)
    ensures offset == 0.0 <==> supply == demand
    ensures offset > 0.0 <==> demand > supply
    ensures InRange(supply) && InRange(demand) ==> -MaxSlide <= offset <= MaxSlide
  {
    ((demand - supply) as real / Span) * MaxSlide
  }

  /** The displayed price: `Math.round(100 + (demand - supply))`. */
  function PriceValue(supply: int, demand: int): (price: int)
    ensures price == BasePrice + demand - supply
    ensures InRange(supply) && InRange(demand) ==> 10 <= price <= 190
  {
    JsRoundOfInteger(BasePrice + (demand - supply));
    JsRound((BasePrice + (demand - supply)) as real)
  }

  /** The extreme slider positions reach the extreme tilt and offset exactly. */
  lemma ExtremesAttained()
    ensures TiltAngle(MinValue, MaxValue) == MaxTilt
    ensures TiltAngle(MaxValue, MinValue) == -MaxTilt
    ensures SlideOffset(MinValue, MaxValue) == MaxSlide
    ensures SlideOffset(MaxValue, MinValue) == -MaxSlide
  {
  }

  /** Exchanging the two sliders mirrors every continuous output. */
  lemma SwapReflects(supply: int, demand: int)
    ensures TiltAngle(demand, supply) == -TiltAngle(supply, demand)
    ensures SlideOffset(demand, supply) == -SlideOffset(supply, demand)
    ensures PriceValue(supply, demand) + PriceValue(demand, supply) == 2 * BasePrice
  {
  }

  /** Raising demand or lowering supply never moves the plank, the price block
      or the price the other way. */
  lemma Monotone(supply: int, demand: int, supply': int, demand': int)
    requires supply' <= supply && demand <= demand'
    ensures TiltAngle(supply, demand) <= TiltAngle(supply', demand')
    ensures SlideOffset(supply, demand) <= SlideOffset(supply', demand')
    ensures PriceValue(supply, demand) <= PriceValue(supply', demand')
  {
  }

  /** The price block slides in proportion to the plank's tilt. */
  lemma OffsetFollowsTilt(supply: int, demand: int)
    ensures SlideOffset(supply, demand) * MaxTilt == TiltAngle(supply, demand) * MaxSlide
  {
  }

  // ---------------------------------------------------------------------------
  // Classifications

  /** The three explanatory messages: balanced market, price rising, price falling. */
  datatype Message = Balanced | Rising | Falling

  /** The colour of the price label: grey, bold red, bold blue. */
  datatype TrendColor = Neutral | RisingColor | FallingColor

  /** The tint of the price block: yellow, red, blue. */
  datatype Tint = Yellow | Red | Blue

  /** The message: the balance band is tested first, then the sign. */
  function EducationalMessage(supply: int, demand: int): (m: Message)
    ensures m == Balanced <==> -BalanceBand < demand - supply < BalanceBand
    ensures m == Rising <==> demand - supply >= BalanceBand
    ensures m == Falling <==> supply - demand >= BalanceBand
  {
    if Abs(supply - demand) < BalanceBand then Balanced
    else if demand > supply then Rising
    else Falling
  }

  /** The colour of the price label, chosen by the same rule as the message. */
  function PriceTrendColor(supply: int, demand: int): (c: TrendColor)
    ensures c == Neutral <==> -BalanceBand < demand - supply < BalanceBand
    ensures c == RisingColor <==> demand - supply >= BalanceBand
    ensures c == FallingColor <==> supply - demand >= BalanceBand
  {
    if Abs(supply - demand) < BalanceBand then Neutral
    else if demand > supply then RisingColor
    else FallingColor
  }

  /** The tint of the price block: a strict three-way comparison with no band. */
  function PriceBlockTint(supply: int, demand: int): (t: Tint)
    ensures t == Yellow <==> supply == demand
    ensures t == Red <==> demand > supply
    ensures t == Blue <==> supply > demand
  {
    if demand > supply then Red
    else if supply > demand then Blue
    else Yellow
  }

  /** The label colour that belongs to each message. */
  function ColorOf(m: Message): TrendColor {
    match m
    case Balanced => Neutral
    case Rising => RisingColor
    case Falling => FallingColor
  }

  /** The label colour and the message never disagree. */
  lemma ColorAgreesWithMessage(supply: int, demand: int)
    ensures PriceTrendColor(supply, demand) == ColorOf(EducationalMessage(supply, demand))
  {
  }

  /** The message describes the displayed price: balanced while the price is
      within the band around the base price, rising above it, falling below it. */
  lemma MessageDescribesPrice(supply: int, demand: int)
    ensures var m, p := EducationalMessage(supply, demand), PriceValue(supply, demand);
      && (m == Balanced <==> BasePrice - BalanceBand < p < BasePrice + BalanceBand)
      && (m == Rising <==> p >= BasePrice + BalanceBand)
      && (m == Falling <==> p <= BasePrice - BalanceBand)
  {
  }

  /** The tint refines the message: a rising or falling message always comes with
      the matching tint, and a yellow block only with a balanced message. */
  lemma TintRefinesMessage(supply: int, demand: int)
    ensures EducationalMessage(supply, demand) == Rising ==> PriceBlockTint(supply, demand) == Red
    ensures EducationalMessage(supply, demand) == Falling ==> PriceBlockTint(supply, demand) == Blue
    ensures PriceBlockTint(supply, demand) == Yellow ==> EducationalMessage(supply, demand) == Balanced
  {
  }

  /** The converse fails: near equality the message says "balanced" while the
      block is already tinted red or blue. */
  lemma TintDisagreesInsideBand()
    ensures EducationalMessage(48, 50) == Balanced && PriceBlockTint(48, 50) == Red
    ensures EducationalMessage(50, 48) == Balanced && PriceBlockTint(50, 48) == Blue
  {
  }

  /** The band is tested before the sign. */
  lemma MessageExamples()
    ensures EducationalMessage(48, 50) == Balanced
    ensures EducationalMessage(40, 50) == Rising
    ensures EducationalMessage(60, 50) == Falling
  {
  }

  // ---------------------------------------------------------------------------
  // Everything the screen shows for one pair of slider values

  datatype View = View(
    tiltAngle: real,
    slideOffset: real,
    priceValue: int,
    message: Message,
    trendColor: TrendColor,
    tint: Tint)

  /** Everything the screen derives from the pair. For slider values the view stays
      within the screen's bounds; the label colour always matches the message, and a
      yellow block only ever sits beside a balanced message. */
  function Derive(supply: int, demand: int): (v: View)
    ensures InRange(supply) && InRange(demand) ==> WithinBounds(v)
    ensures v.trendColor == ColorOf(v.message)
    ensures v.tint == Yellow ==> v.message == Balanced
    ensures v.message == Rising ==> v.tint == Red
    ensures v.message == Falling ==> v.tint == Blue
  {
    ColorAgreesWithMessage(supply, demand);
    TintRefinesMessage(supply, demand);
    View(TiltAngle(supply, demand), SlideOffset(supply, demand), PriceValue(supply, demand),
         EducationalMessage(supply, demand), PriceTrendColor(supply, demand),
         PriceBlockTint(supply, demand))
  }

  /** The ranges every on-screen value keeps while both sliders are within bounds. */
  predicate WithinBounds(v: View) {
    && -MaxTilt <= v.tiltAngle <= MaxTilt
    && -MaxSlide <= v.slideOffset <= MaxSlide
    && 10 <= v.priceValue <= 190
  }

  /** The view of an equal pair does not depend on the common value: level plank,
      centred block, base price, balanced message, neutral label, yellow block.
      This covers the initial state and both corners (10,10) and (100,100). */
  lemma EqualPairView(v: int)
    ensures Derive(v, v) == View(0.0, 0.0, BasePrice, Balanced, Neutral, Yellow)
  {
  }

  /** The screen's state: the two slider values, overwritten by the sliders. */
  class Market {
    var supply: int
    var demand: int

    /** Both values lie within the sliders' bounds. */
    ghost predicate Valid()
      reads this
    {
      InRange(supply) && InRange(demand)
    }

    /** What the screen shows for the current values. */
    function Shown(): (v: View)
      reads this
      ensures Valid() ==> WithinBounds(v)
      ensures v.trendColor == ColorOf(v.message)
    {
      Derive(supply, demand)
    }

    constructor ()
      ensures supply == DefaultValue && demand == DefaultValue
      ensures Valid()
      ensures Shown() == View(0.0, 0.0, BasePrice, Balanced, Neutral, Yellow)
    {
      supply := DefaultValue;
      demand := DefaultValue;
      EqualPairView(DefaultValue);
    }

    /** The supply slider overwrites `supply` and nothing else. */
    method SetSupply(value: int)
      modifies this
      ensures supply == value && demand == old(demand)
      ensures old(Valid()) && InRange(value) ==> Valid()
    {
      supply := value;
    }

    /** The demand slider overwrites `demand` and nothing else. */
    method SetDemand(value: int)
      modifies this
      ensures demand == value && supply == old(supply)
      ensures old(Valid()) && InRange(value) ==> Valid()
    {
      demand := value;
    }
  }
}
