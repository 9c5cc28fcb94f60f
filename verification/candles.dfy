/**
 The candlestick classifier of the bot: from the forming bar's open, high and
 low and the live price it derives the body, the two wicks and the range, and
 returns a wick-side label and a pattern label. Prices are exact reals.
 */
module Candles {

  /** How many body lengths a wick must reach to count as long. */
  const WickThreshold: real := 2.0

  /** The pattern labels; `NoPattern` is the bot's 'None' label. */
  datatype Pattern =
    | NoPattern
    | GravestoneDoji
    | DragonflyDoji
    | RickshawMan
    | LongLeggedDoji
    | SpinningTop
    | HighWaveCandle
    | Doji
    | PinBar
    | Hammer
    | HangingMan
    | ShootingStar
    | InvertedHammer
  {
    /** The text the bot puts in its alert. */
    function Label(): string {
      match this
      case NoPattern => "None"
      case GravestoneDoji => "Gravestone Doji"
      case DragonflyDoji => "Dragonfly Doji"
      case RickshawMan => "Rickshaw Man"
      case LongLeggedDoji => "Long-legged Doji"
      case SpinningTop => "Spinning Top"
      case HighWaveCandle => "High Wave Candle"
      case Doji => "Doji"
      case PinBar => "Pin Bar"
      case Hammer => "Hammer"
      case HangingMan => "Hanging Man"
      case ShootingStar => "Shooting Star"
      case InvertedHammer => "Inverted Hammer"
    }

    /** The labels the narrow-body tier can produce. */
    predicate IsDojiFamily() {
      GravestoneDoji? || DragonflyDoji? || RickshawMan? || LongLeggedDoji?
      || SpinningTop? || HighWaveCandle? || Doji?
    }
  }

  /** The alert test compares the label with 'None'; only `NoPattern`
      carries that label. */
  lemma NoneLabelOnlyForNoPattern(p: Pattern)
    ensures p.Label() == "None" <==> p == NoPattern
  {
  }

  /** The wick-side labels. */
  datatype WickSide =
    | NoRange
    | LongerLowerWick
    | LongerUpperWick
    | EqualWicks
    | NoSignificantWick
  {
    function Label(): string {
      match this
      case NoRange => "No Range"
      case LongerLowerWick => "Longer Lower Wick"
      case LongerUpperWick => "Longer Upper Wick"
      case EqualWicks => "Equal Wicks"
      case NoSignificantWick => "No Significant Wick"
    }
  }

  /** The pair the classifier returns. */
  datatype Classification = Classification(pattern: Pattern, wickSide: WickSide)

  /** A bar as the classifier sees it: the forming bar's open, high and low,
      and the live price standing in for its close. Nothing forces
      low <= open, current <= high; see `WellFormed`. */
  datatype Bar = Bar(open: real, high: real, low: real, current: real)

  /** The usual shape of a bar: high and low enclose both open and current. */
  predicate WellFormed(b: Bar) {
    b.low <= b.open <= b.high && b.low <= b.current <= b.high
  }

  function Abs(x: real): real {
    if x < 0.0 then -x else x
  }

  function Max(a: real, b: real): real {
    if a >= b then a else b
  }

  function Min(a: real, b: real): real {
    if a <= b then a else b
  }

  /** The geometry both cascades read: body, upper wick, lower wick, range. */
  datatype Shape = Shape(body: real, upper: real, lower: real, range: real)
  {
    function BodyPct(): real
      requires range != 0.0
    {
      body / range
    }

    function UpperPct(): real
      requires range != 0.0
    {
      upper / range
    }

    function LowerPct(): real
      requires range != 0.0
    {
      lower / range
    }

    /** The wicks differ by less than a tenth of the range. */
    predicate Balanced() {
      Abs(upper - lower) < 0.1 * range
    }
  }

  /** Body and wicks of a bar; the wicks are clipped at zero, so they are
      never negative even for a malformed bar. */
  function ShapeOf(b: Bar): (s: Shape)
    ensures s.body >= 0.0 && s.upper >= 0.0 && s.lower >= 0.0
    ensures s.range == 0.0 <==> b.high == b.low
  {
    Shape(Abs(b.current - b.open),
          Max(b.high - Max(b.open, b.current), 0.0),
          Max(Min(b.open, b.current) - b.low, 0.0),
          b.high - b.low)
  }

  /** The wick-side cascade; the first rule that applies wins. */
  function WickSideOf(s: Shape): WickSide {
    if s.lower > s.upper && s.lower >= WickThreshold * s.body then LongerLowerWick
    else if s.upper > s.lower && s.upper >= WickThreshold * s.body then LongerUpperWick
    else if s.upper > 0.0 && s.lower > 0.0 && s.Balanced() then EqualWicks
    else NoSignificantWick
  }

  /** The pattern cascade, tiered on the body's share of the range. */
  function PatternOf(b: Bar): Pattern
    requires b.high != b.low
  {
    var s := ShapeOf(b);
    var bodyPct := s.BodyPct();
    var upperPct := s.UpperPct();
    var lowerPct := s.LowerPct();
    if bodyPct <= 0.05 then
      if upperPct >= 0.8 && lowerPct < 0.05 then GravestoneDoji
      else if lowerPct >= 0.8 && upperPct < 0.05 then DragonflyDoji
      else if upperPct >= 0.4 && lowerPct >= 0.4 && s.Balanced() then RickshawMan
      else if upperPct >= 0.4 && lowerPct >= 0.4 then LongLeggedDoji
      else if upperPct >= 0.3 && lowerPct >= 0.3 then SpinningTop
      else if upperPct >= 0.2 && lowerPct >= 0.2 then HighWaveCandle
      else Doji
    else if bodyPct <= 0.2 then
      if s.upper >= WickThreshold * s.body && lowerPct < 0.1 then PinBar
      else if s.lower >= WickThreshold * s.body && upperPct < 0.1 then PinBar
      else if lowerPct >= 0.6 then
        (if b.current > b.open then Hammer else HangingMan)
      else if upperPct >= 0.6 then
        (if b.current < b.open then ShootingStar else InvertedHammer)
      else NoPattern
    else NoPattern
  }

  /** The classifier: a zero-range bar is answered at once, every other bar
      goes through both cascades. */
  function Identify(b: Bar): Classification {
    if b.high - b.low == 0.0 then Classification(NoPattern, NoRange)
    else Classification(PatternOf(b), WickSideOf(ShapeOf(b)))
  }

  // ---------------------------------------------------------------------
  // The zero-range guard and the wick-side cascade
  // ---------------------------------------------------------------------

  /** A bar with no range gives exactly ('None', 'No Range'), and 'No Range'
      is given for no other bar. */
  lemma ZeroRangeIsNoRange(b: Bar)
    ensures b.high == b.low ==> Identify(b) == Classification(NoPattern, NoRange)
    ensures Identify(b).wickSide == NoRange <==> b.high == b.low
  {
  }

  /** The wick-side labels as conditions on the wicks: 'Longer Lower Wick'
      and 'Longer Upper Wick' each hold exactly under their own test (the
      two tests exclude each other), 'Equal Wicks' only when both wicks are
      positive and balanced and neither long-wick test passed. */
  lemma WickSideExactly(b: Bar)
    requires b.high != b.low
    ensures var s := ShapeOf(b); var w := Identify(b).wickSide;
      && (w == LongerLowerWick <==> s.lower > s.upper && s.lower >= WickThreshold * s.body)
      && (w == LongerUpperWick <==> s.upper > s.lower && s.upper >= WickThreshold * s.body)
      && (w == EqualWicks <==>
            && !(s.lower > s.upper && s.lower >= WickThreshold * s.body)
            && !(s.upper > s.lower && s.upper >= WickThreshold * s.body)
            && s.upper > 0.0 && s.lower > 0.0 && s.Balanced())
      && w != NoRange
  {
  }

  // ---------------------------------------------------------------------
  // The pattern cascade
  // ---------------------------------------------------------------------

  /** A body wider than a fifth of the range never yields a pattern. */
  lemma WideBodyIsNoPattern(b: Bar)
    requires b.high != b.low
    requires ShapeOf(b).BodyPct() > 0.2
    ensures Identify(b).pattern == NoPattern
  {
  }

  /** The narrow-body labels in the order the cascade tries them. */
  const DojiOrder: seq<Pattern> :=
    [GravestoneDoji, DragonflyDoji, RickshawMan, LongLeggedDoji, SpinningTop, HighWaveCandle, Doji]

  /** The condition under which the narrow-body rule at position k of
      `DojiOrder` accepts a shape; the last rule accepts every shape. */
  predicate DojiRule(k: nat, s: Shape)
    requires s.range != 0.0
  {
    var up := s.UpperPct();
    var lo := s.LowerPct();
    if k == 0 then up >= 0.8 && lo < 0.05
    else if k == 1 then lo >= 0.8 && up < 0.05
    else if k == 2 then up >= 0.4 && lo >= 0.4 && s.Balanced()
    else if k == 3 then up >= 0.4 && lo >= 0.4
    else if k == 4 then up >= 0.3 && lo >= 0.3
    else if k == 5 then up >= 0.2 && lo >= 0.2
    else true
  }

  /** A narrow body (at most 5% of the range) always yields a doji-family
      label, never 'None', and the label is the one of the first rule of
      `DojiOrder` that accepts the bar. */
  lemma NarrowBodyFirstMatch(b: Bar)
    requires b.high != b.low
    requires ShapeOf(b).BodyPct() <= 0.05
    ensures Identify(b).pattern.IsDojiFamily()
    ensures Identify(b).pattern != NoPattern
    ensures exists k :: && 0 <= k < |DojiOrder|
                        && Identify(b).pattern == DojiOrder[k]
                        && DojiRule(k, ShapeOf(b))
                        && forall j :: 0 <= j < k ==> !DojiRule(j, ShapeOf(b))
  {
    var s := ShapeOf(b);
    var p := Identify(b).pattern;
    var k: nat :=
      if DojiRule(0, s) then 0
      else if DojiRule(1, s) then 1
      else if DojiRule(2, s) then 2
      else if DojiRule(3, s) then 3
      else if DojiRule(4, s) then 4
      else if DojiRule(5, s) then 5
      else 6;
    assert p == DojiOrder[k];
    assert forall j :: 0 <= j < k ==> !DojiRule(j, s);
  }

  /** The middle tier (body share in (5%, 20%]): 'Hammer' or 'Hanging Man'
      exactly when neither Pin Bar test passes and the lower wick holds at
      least 60% of the range, with the bar's direction alone choosing
      between the two; likewise 'Shooting Star' or 'Inverted Hammer' with
      the upper wick, when the lower-wick test also failed. Since the body
      is not empty here, 'Hanging Man' means the price fell and 'Inverted
      Hammer' means it rose. */
  lemma MiddleTierReversals(b: Bar)
    requires b.high != b.low
    requires 0.05 < ShapeOf(b).BodyPct() <= 0.2
    ensures var s := ShapeOf(b); var p := Identify(b).pattern;
      var pinUpper := s.upper >= WickThreshold * s.body && s.LowerPct() < 0.1;
      var pinLower := s.lower >= WickThreshold * s.body && s.UpperPct() < 0.1;
      && (p == PinBar <==> pinUpper || pinLower)
      && (p in {Hammer, HangingMan} <==> !pinUpper && !pinLower && s.LowerPct() >= 0.6)
      && (p in {ShootingStar, InvertedHammer} <==>
            !pinUpper && !pinLower && s.LowerPct() < 0.6 && s.UpperPct() >= 0.6)
      && (p == Hammer ==> b.current > b.open)
      && (p == HangingMan ==> b.current < b.open)
      && (p == ShootingStar ==> b.current < b.open)
      && (p == InvertedHammer ==> b.current > b.open)
  {
    var s := ShapeOf(b);
    PositiveShare(s.body, s.range);
  }

  /** A share of the range above zero needs a positive range (the wicks and
      the body are never negative). */
  lemma PositiveShare(x: real, range: real)
    requires range != 0.0 && x >= 0.0
    requires x / range > 0.0
    ensures range > 0.0 && x > 0.0
  {
  }

  /** For a positive range, a share of the range compares with a fraction
      exactly as the wick itself compares with that fraction of the range. */
  lemma ShareBounds(x: real, range: real, c: real)
    requires range > 0.0
    ensures x / range >= c <==> x >= c * range
    ensures x / range < c <==> x < c * range
    ensures x / range > c <==> x > c * range
    ensures x / range <= c <==> x <= c * range
  {
    assert x == (x / range) * range;
  }

  /** The shares of a shape, restated without division for a positive range. */
  lemma {:induction false} SharesOf(s: Shape, c: real)
    requires s.range > 0.0
    ensures s.BodyPct() <= c <==> s.body <= c * s.range
    ensures s.UpperPct() >= c <==> s.upper >= c * s.range
    ensures s.LowerPct() >= c <==> s.lower >= c * s.range
    ensures s.UpperPct() < c <==> s.upper < c * s.range
    ensures s.LowerPct() < c <==> s.lower < c * s.range
  {
    ShareBounds(s.body, s.range, c);
    ShareBounds(s.upper, s.range, c);
    ShareBounds(s.lower, s.range, c);
  }

  /** A Gravestone Doji is always read as a longer upper wick, a Dragonfly
      Doji as a longer lower wick, and a Pin Bar as one of the two. */
  lemma LongWickPatternsAgree(b: Bar)
    ensures Identify(b).pattern == GravestoneDoji ==> Identify(b).wickSide == LongerUpperWick
    ensures Identify(b).pattern == DragonflyDoji ==> Identify(b).wickSide == LongerLowerWick
    ensures Identify(b).pattern == PinBar ==>
      Identify(b).wickSide in {LongerUpperWick, LongerLowerWick}
  {
    if b.high != b.low {
      var s := ShapeOf(b);
      var p := PatternOf(b);
      if p == GravestoneDoji {
        GravestoneWicks(s);
      } else if p == DragonflyDoji {
        DragonflyWicks(s);
      } else if p == PinBar {
        PinBarWicks(s);
      }
    }
  }

  lemma GravestoneWicks(s: Shape)
    requires s.range != 0.0 && s.body >= 0.0 && s.upper >= 0.0 && s.lower >= 0.0
    requires s.BodyPct() <= 0.05 && s.UpperPct() >= 0.8 && s.LowerPct() < 0.05
    ensures WickSideOf(s) == LongerUpperWick
  {
    PositiveShare(s.upper, s.range);
    SharesOf(s, 0.05);
    SharesOf(s, 0.8);
  }

  lemma DragonflyWicks(s: Shape)
    requires s.range != 0.0 && s.body >= 0.0 && s.upper >= 0.0 && s.lower >= 0.0
    requires s.BodyPct() <= 0.05 && s.LowerPct() >= 0.8 && s.UpperPct() < 0.05
    ensures WickSideOf(s) == LongerLowerWick
  {
    PositiveShare(s.lower, s.range);
    SharesOf(s, 0.05);
    SharesOf(s, 0.8);
  }

  /** The middle tier's Pin Bar tests imply the matching long-wick test. */
  lemma PinBarWicks(s: Shape)
    requires s.range != 0.0 && s.body >= 0.0 && s.upper >= 0.0 && s.lower >= 0.0
    requires s.BodyPct() > 0.05
    requires || (s.upper >= WickThreshold * s.body && s.LowerPct() < 0.1)
             || (s.lower >= WickThreshold * s.body && s.UpperPct() < 0.1)
    ensures WickSideOf(s) in {LongerUpperWick, LongerLowerWick}
  {
    PositiveShare(s.body, s.range);
    SharesOf(s, 0.05);
    SharesOf(s, 0.1);
  }

  /** On a well-formed bar, body and wicks exactly fill the range. */
  lemma WellFormedDecomposes(b: Bar)
    requires WellFormed(b)
    ensures var s := ShapeOf(b); s.body + s.upper + s.lower == s.range
  {
  }

  /** Only a well-formed bar can be a Hammer, Hanging Man, Shooting Star or
      Inverted Hammer: both wicks of such a bar are longer than a tenth of
      its range, so neither was clipped and high and low strictly enclose
      open and price. */
  lemma ReversalsAreWellFormed(b: Bar)
    ensures Identify(b).pattern in {Hammer, HangingMan, ShootingStar, InvertedHammer} ==>
      && WellFormed(b)
      && b.low < Min(b.open, b.current)
      && Max(b.open, b.current) < b.high
  {
    if Identify(b).pattern in {Hammer, HangingMan, ShootingStar, InvertedHammer} {
      var s := ShapeOf(b);
      assert 0.05 < s.BodyPct() <= 0.2;
      MiddleTierReversals(b);
      ReversalWicks(s);
    }
  }

  /** A middle-tier shape that fails both Pin Bar tests and has a wick of at
      least 60% of its range has two wicks of positive length. */
  lemma ReversalWicks(s: Shape)
    requires s.range != 0.0 && s.body >= 0.0 && s.upper >= 0.0 && s.lower >= 0.0
    requires 0.05 < s.BodyPct() <= 0.2
    requires !(s.upper >= WickThreshold * s.body && s.LowerPct() < 0.1)
    requires !(s.lower >= WickThreshold * s.body && s.UpperPct() < 0.1)
    requires s.LowerPct() >= 0.6 || s.UpperPct() >= 0.6
    ensures s.upper > 0.0 && s.lower > 0.0
  {
    PositiveShare(s.body, s.range);
    SharesOf(s, 0.1);
    SharesOf(s, 0.2);
    SharesOf(s, 0.6);
  }

  /** Hammer and Hanging Man are read as a longer lower wick, Shooting Star
      and Inverted Hammer as a longer upper wick. */
  lemma ReversalPatternsAgree(b: Bar)
    ensures Identify(b).pattern in {Hammer, HangingMan} ==> Identify(b).wickSide == LongerLowerWick
    ensures Identify(b).pattern in {ShootingStar, InvertedHammer} ==>
      Identify(b).wickSide == LongerUpperWick
  {
    var p := Identify(b).pattern;
    if p in {Hammer, HangingMan, ShootingStar, InvertedHammer} {
      ReversalsAreWellFormed(b);
      WellFormedDecomposes(b);
      if p in {Hammer, HangingMan} {
        LongLowerWicks(ShapeOf(b));
      } else {
        LongUpperWicks(ShapeOf(b));
      }
    }
  }

  /** A middle-tier shape that fills its range and has a lower wick of at
      least 60% of it is read as a longer lower wick. */
  lemma LongLowerWicks(s: Shape)
    requires s.range != 0.0 && s.body >= 0.0 && s.upper >= 0.0 && s.lower >= 0.0
    requires s.body + s.upper + s.lower == s.range
    requires 0.05 < s.BodyPct() <= 0.2 && s.LowerPct() >= 0.6
    ensures WickSideOf(s) == LongerLowerWick
  {
    PositiveShare(s.body, s.range);
    SharesOf(s, 0.2);
    SharesOf(s, 0.6);
  }

  /** A middle-tier shape that fills its range and has an upper wick of at
      least 60% of it, but a lower wick of less, is read as a longer upper
      wick. */
  lemma LongUpperWicks(s: Shape)
    requires s.range != 0.0 && s.body >= 0.0 && s.upper >= 0.0 && s.lower >= 0.0
    requires s.body + s.upper + s.lower == s.range
    requires 0.05 < s.BodyPct() <= 0.2 && s.UpperPct() >= 0.6
    ensures WickSideOf(s) == LongerUpperWick
  {
    PositiveShare(s.body, s.range);
    SharesOf(s, 0.2);
    SharesOf(s, 0.6);
  }

  // ---------------------------------------------------------------------
  // The classification depends only on the bar's geometry
  // ---------------------------------------------------------------------

  function Shift(b: Bar, c: real): Bar {
    Bar(b.open + c, b.high + c, b.low + c, b.current + c)
  }

  /** Moving every price by the same amount changes nothing. */
  lemma ShiftInvariant(b: Bar, c: real)
    ensures Identify(Shift(b, c)) == Identify(b)
  {
    assert ShapeOf(Shift(b, c)) == ShapeOf(b);
  }

  /** What the pattern cascade reads of a bar: the three shares, the
      balance test, the two long-wick tests and the bar's direction. */
  datatype Reading = Reading(bodyPct: real, upperPct: real, lowerPct: real, balanced: bool,
                             upperLong: bool, lowerLong: bool, rising: bool, falling: bool)

  function ReadingOf(b: Bar): Reading
    requires b.high != b.low
  {
    var s := ShapeOf(b);
    Reading(s.BodyPct(), s.UpperPct(), s.LowerPct(), s.Balanced(),
            s.upper >= WickThreshold * s.body, s.lower >= WickThreshold * s.body,
            b.current > b.open, b.current < b.open)
  }

  /** The pattern cascade looks at nothing but the reading. */
  lemma PatternReadsOnly(b1: Bar, b2: Bar)
    requires b1.high != b1.low && b2.high != b2.low
    requires ReadingOf(b1) == ReadingOf(b2)
    ensures PatternOf(b1) == PatternOf(b2)
  {
  }

  /** Two bars with the same body, wicks and range that move the same way
      (both up, both down or both flat) are classified alike. */
  lemma ShapeAndDirectionDecide(b1: Bar, b2: Bar)
    requires ShapeOf(b1) == ShapeOf(b2)
    requires (b1.current > b1.open) == (b2.current > b2.open)
    requires (b1.current < b1.open) == (b2.current < b2.open)
    ensures Identify(b1) == Identify(b2)
  {
    if b1.high != b1.low {
      assert ReadingOf(b1) == ReadingOf(b2);
      PatternReadsOnly(b1, b2);
    }
  }

  /** Body and wicks alone do not decide: swapping open and live price keeps
      them but turns a Hammer into a Hanging Man. */
  lemma DirectionMatters()
    ensures ShapeOf(Bar(7.0, 10.0, 0.0, 8.0)) == ShapeOf(Bar(8.0, 10.0, 0.0, 7.0))
    ensures Identify(Bar(7.0, 10.0, 0.0, 8.0)).pattern == Hammer
    ensures Identify(Bar(8.0, 10.0, 0.0, 7.0)).pattern == HangingMan
  {
    var s := Shape(1.0, 2.0, 7.0, 10.0);
    assert s.BodyPct() == 0.1 && s.UpperPct() == 0.2 && s.LowerPct() == 0.7;
    assert PatternOf(Bar(7.0, 10.0, 0.0, 8.0)) == Hammer by {
      assert ShapeOf(Bar(7.0, 10.0, 0.0, 8.0)) == s;
    }
    assert PatternOf(Bar(8.0, 10.0, 0.0, 7.0)) == HangingMan by {
      assert ShapeOf(Bar(8.0, 10.0, 0.0, 7.0)) == s;
    }
  }

  // ---------------------------------------------------------------------
  // Worked bars
  // ---------------------------------------------------------------------

  /** open 100, high 110, low 99, last 100.2: the lower wick is 1/11 of the
      range, too long for a Gravestone Doji, so the bar is a plain Doji with
      a longer upper wick. */
  lemma LongUpperWickDojiExample()
    ensures Identify(Bar(100.0, 110.0, 99.0, 100.2)) == Classification(Doji, LongerUpperWick)
  {
  }

  /** open 100, high 101, low 90, last 100.5: a Dragonfly Doji with a longer
      lower wick. */
  lemma DragonflyExample()
    ensures Identify(Bar(100.0, 101.0, 90.0, 100.5)) == Classification(DragonflyDoji, LongerLowerWick)
  {
  }

  /** open 100, high 100.5, low 100.4, last 99.9: the price is below the
      bar's low; the formulas still apply and give no pattern and a longer
      upper wick. */
  lemma MalformedExample()
    ensures Identify(Bar(100.0, 100.5, 100.4, 99.9)) == Classification(NoPattern, LongerUpperWick)
  {
  }
}
