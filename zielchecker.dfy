/**
 * The price-target check of `run_zielchecker`: after the hourly bars of the
 * last month are loaded, the user enters a target price (the last close by
 * default) and presses "Check Ziel". With at least 20 bars the check reports
 * the trend from the last EMA50 and EMA200 values, the support (lowest low
 * of the last 20 bars), the resistance (highest high of the last 20 bars)
 * and a fixed probability of reaching the target: 0.7 inside the closed
 * band [support, resistance], 0.3 outside it.
 *
 * The EMA series come from a library that is not part of this model; their
 * last values are inputs. Note the hazard that the 20-bar guard does not
 * ensure the 50 and 200 bars those averages need.
 */
module Zielchecker {
  import opened Wrappers
  import opened Rolling

  /** One bar of the loaded market data (the columns the check reads). */
  datatype Bar = Bar(high: real, low: real, close: real)

  /** Shown as "Aufwärts" and "Abwärts". */
  datatype Trend = Aufwaerts | Abwaerts

  datatype Assessment = Assessment(trend: Trend, support: real, resistance: real, probability: real)

  /** What one run of the handler ends with. */
  datatype Outcome =
    | NoData                                          // warning "Keine Daten verfügbar"
    | AwaitingCheck(target: real)                     // target input shown, button not pressed
    | NotEnoughData                                   // warning "Nicht genug Daten für Analyse"
    | Checked(target: real, assessment: Assessment)   // the four metrics

  /** The minimum number of bars for an assessment, and the rolling window. */
  const Window: nat := 20

  const InBand: real := 7.0 / 10.0
  const OutOfBand: real := 3.0 / 10.0

  function Lows(data: seq<Bar>): (s: seq<real>)
    ensures |s| == |data| && forall i | 0 <= i < |data| :: s[i] == data[i].low
  {
    seq(|data|, i requires 0 <= i < |data| => data[i].low)
  }

  function Highs(data: seq<Bar>): (s: seq<real>)
    ensures |s| == |data| && forall i | 0 <= i < |data| :: s[i] == data[i].high
  {
    seq(|data|, i requires 0 <= i < |data| => data[i].high)
  }

  /** The `k`-th bar counted from the end (0 is the last). */
  function BarFromEnd(data: seq<Bar>, k: nat): Bar
    requires k < |data|
  {
    data[|data| - 1 - k]
  }

  /** Is bar `i` one of the last `Window` bars? */
  predicate InWindow(data: seq<Bar>, i: int) {
    |data| - Window <= i < |data| && 0 <= i
  }

  /** Upward exactly when the fast average is strictly above the slow one. */
  function TrendOf(emaFastLast: real, emaSlowLast: real): (t: Trend)
    ensures t == Aufwaerts <==> emaFastLast > emaSlowLast
  {
    if emaFastLast > emaSlowLast then Aufwaerts else Abwaerts
  }

  /** The rolling 20-bar minimum of the lows, read at the last bar. */
  function Support(data: seq<Bar>): (r: real)
    requires |data| >= Window
    ensures forall i | InWindow(data, i) :: r <= data[i].low
    ensures exists i | InWindow(data, i) :: data[i].low == r
  {
    var w := Trailing(Lows(data), Window);
    var m := MinOf(w);
    var k :| 0 <= k < Window && w[k] == m;
    assert InWindow(data, |data| - Window + k);
    m
  }

  /** The rolling 20-bar maximum of the highs, read at the last bar. */
  function Resistance(data: seq<Bar>): (r: real)
    requires |data| >= Window
    ensures forall i | InWindow(data, i) :: data[i].high <= r
    ensures exists i | InWindow(data, i) :: data[i].high == r
  {
    var w := Trailing(Highs(data), Window);
    var m := MaxOf(w);
    var k :| 0 <= k < Window && w[k] == m;
    assert InWindow(data, |data| - Window + k);
    m
  }

  /** The fixed two-valued chance of reaching `target`. */
  function TargetProbability(target: real, support: real, resistance: real): (p: real)
    ensures p == InBand || p == OutOfBand
    ensures p == InBand <==> support <= target <= resistance
  {
    if support <= target <= resistance then InBand else OutOfBand
  }

  /** The assessment made when the button is pressed, or None when there
      are fewer than 20 bars. */
  function Assess(data: seq<Bar>, target: real, emaFastLast: real, emaSlowLast: real): (r: Option<Assessment>)
    ensures r.None? <==> |data| < Window
    ensures r.Some? ==> (r.value.trend == Aufwaerts <==> emaFastLast > emaSlowLast)
    ensures r.Some? ==> forall i | InWindow(data, i) :: r.value.support <= data[i].low
    ensures r.Some? ==> exists i | InWindow(data, i) :: data[i].low == r.value.support
    ensures r.Some? ==> forall i | InWindow(data, i) :: data[i].high <= r.value.resistance
    ensures r.Some? ==> exists i | InWindow(data, i) :: data[i].high == r.value.resistance
    ensures r.Some? ==> (r.value.probability == InBand <==> r.value.support <= target <= r.value.resistance)
    ensures r.Some? ==> (r.value.probability == OutOfBand <==> !(r.value.support <= target <= r.value.resistance))
  {
    if |data| < Window then None
    else
      var support := Support(data);
      var resistance := Resistance(data);
      Some(Assessment(TrendOf(emaFastLast, emaSlowLast), support, resistance,
                      TargetProbability(target, support, resistance)))
  }

  /** One run of the handler. `entered` is the value of the target input
      (None: left at its default, the last close) and `pressed` whether the
      check button was pressed in this run. */
  function RunZielchecker(data: seq<Bar>, entered: Option<real>, pressed: bool,
                          emaFastLast: real, emaSlowLast: real): (o: Outcome)
    ensures o.NoData? <==> data == []
    ensures data != [] && !pressed ==> o == AwaitingCheck(entered.GetOr(data[|data| - 1].close))
    ensures o.NotEnoughData? <==> data != [] && pressed && |data| < Window
    ensures o.Checked? <==> pressed && |data| >= Window
    ensures o.Checked? ==> o.target == entered.GetOr(data[|data| - 1].close)
    ensures o.Checked? ==> Assess(data, o.target, emaFastLast, emaSlowLast) == Some(o.assessment)
  {
    if data == [] then NoData
    else
      var target := entered.GetOr(data[|data| - 1].close);
      if !pressed then AwaitingCheck(target)
      else
        match Assess(data, target, emaFastLast, emaSlowLast)
        case None => NotEnoughData
        case Some(a) => Checked(target, a)
  }

  // ---------------------------------------------------------------------
  // Properties

  /** Exactly 20 bars are enough, and then the window is the whole series. */
  lemma TwentyBarsUseWholeSeries(data: seq<Bar>, target: real, emaFastLast: real, emaSlowLast: real)
    requires |data| == Window
    ensures Assess(data, target, emaFastLast, emaSlowLast).Some?
    ensures IsLeast(Support(data), Lows(data))
    ensures IsGreatest(Resistance(data), Highs(data))
  {
  }

  /** Support is the least low of the window, resistance the greatest high:
      they are exactly the rolling extrema and nothing else. */
  lemma BandIsRollingExtrema(data: seq<Bar>)
    requires |data| >= Window
    ensures IsLeast(Support(data), Trailing(Lows(data), Window))
    ensures IsGreatest(Resistance(data), Trailing(Highs(data), Window))
  {
  }

  /** Only the last 20 bars count: two series that agree on their last 20
      bars have the same support and resistance. */
  lemma BandIsLocal(a: seq<Bar>, b: seq<Bar>)
    requires |a| >= Window && |b| >= Window
    requires forall k | 0 <= k < Window :: BarFromEnd(a, k) == BarFromEnd(b, k)
    ensures Support(a) == Support(b)
    ensures Resistance(a) == Resistance(b)
  {
    forall k | 0 <= k < Window
      ensures FromEnd(Lows(a), k) == FromEnd(Lows(b), k) && FromEnd(Highs(a), k) == FromEnd(Highs(b), k)
    {
      assert BarFromEnd(a, k) == BarFromEnd(b, k);
    }
    TrailingExtremaAreLocal(Lows(a), Lows(b), Window);
    TrailingExtremaAreLocal(Highs(a), Highs(b), Window);
  }

  /** Changing any bar before the last 20 leaves the band unchanged. */
  lemma EarlierBarDoesNotMatter(data: seq<Bar>, i: nat, bar: Bar)
    requires |data| >= Window && i < |data| - Window
    ensures Support(data[i := bar]) == Support(data)
    ensures Resistance(data[i := bar]) == Resistance(data)
  {
    var changed := data[i := bar];
    forall k | 0 <= k < Window ensures BarFromEnd(changed, k) == BarFromEnd(data, k) { }
    BandIsLocal(changed, data);
  }

  /** Prepending any history leaves the band unchanged. */
  lemma HistoryDoesNotMatter(history: seq<Bar>, data: seq<Bar>)
    requires |data| >= Window
    ensures Support(history + data) == Support(data)
    ensures Resistance(history + data) == Resistance(data)
  {
    var longer := history + data;
    forall k | 0 <= k < Window ensures BarFromEnd(longer, k) == BarFromEnd(data, k) { }
    BandIsLocal(longer, data);
  }

  /** Both ends of the band count as inside it; anything beyond counts as outside. */
  lemma BandIsClosed(support: real, resistance: real, target: real)
    requires support <= resistance
    ensures TargetProbability(support, support, resistance) == InBand
    ensures TargetProbability(resistance, support, resistance) == InBand
    ensures target < support ==> TargetProbability(target, support, resistance) == OutOfBand
    ensures target > resistance ==> TargetProbability(target, support, resistance) == OutOfBand
  {
  }

  /** The probability is a probability, and a target inside the band is
      never rated less likely than one outside it. */
  lemma ProbabilityIsOrdered(inside: real, outside: real, support: real, resistance: real)
    requires support <= inside <= resistance
    ensures 0.0 < TargetProbability(inside, support, resistance) < 1.0
    ensures TargetProbability(outside, support, resistance) <= TargetProbability(inside, support, resistance)
  {
  }

  /** Equal averages are no upward trend. */
  lemma EqualAveragesAreNotUpward(ema: real)
    ensures TrendOf(ema, ema) == Abwaerts
  {
  }

  /** When every bar of the window has its low at or below its high, the
      band is non-empty. */
  lemma BandIsOrdered(data: seq<Bar>)
    requires |data| >= Window
    requires forall i | InWindow(data, i) :: data[i].low <= data[i].high
    ensures Support(data) <= Resistance(data)
  {
  }

  /** With the default target (the last close) and a last bar whose close
      lies within its own low and high, pressing the button on 20 or more
      bars always reports 0.7. */
  lemma DefaultTargetIsInBand(data: seq<Bar>, emaFastLast: real, emaSlowLast: real)
    requires |data| >= Window
    requires data[|data| - 1].low <= data[|data| - 1].close <= data[|data| - 1].high
    ensures RunZielchecker(data, None, true, emaFastLast, emaSlowLast).Checked?
    ensures RunZielchecker(data, None, true, emaFastLast, emaSlowLast).assessment.probability == InBand
  {
  }

  /** An empty download ends the run before the target or the button is read. */
  lemma EmptyDataStopsEarly(entered: Option<real>, pressed: bool, emaFastLast: real, emaSlowLast: real)
    ensures RunZielchecker([], entered, pressed, emaFastLast, emaSlowLast) == NoData
  {
  }
}
