/** The candle aggregator's derivation rule (`_fetch_candles_for_instrument`, after the provider has answered). */
module Candles {
  import opened Wrappers
  import opened Numeric
  import opened Quotations

  /** A daily candle as decoded from JSON; only `open` and `close` are read. */
  datatype RawCandle = RawCandle(open: Option<RawQuotation>, close: Option<RawQuotation>)

  /** The candle part of a table row; `name` repeats the instrument id. */
  datatype CandleRow = CandleRow(
    instrumentId: string,
    name: string,
    close: Option<real>,
    open: Option<real>,
    changePct: Option<real>,
    error: Option<string>)

  const NoData: string := "no data"

  /** Percent change from yesterday's close to today's open, rounded to 2 places; defined only for a non-zero close. */
  function ChangePct(yesterdayClose: real, todayOpen: real): (r: Option<real>)
    ensures r.Some? <==> yesterdayClose != 0.0
    ensures r.Some? ==> -0.5 <= (r.value - (todayOpen - yesterdayClose) / yesterdayClose * 100.0) * Pow10(2) <= 0.5
  {
    if yesterdayClose != 0.0 then
      var pct := (todayOpen - yesterdayClose) / yesterdayClose * 100.0;
      RoundError(pct, 2);
      Some(Round(pct, 2))
    else None
  }

  /** The row derived from the candles of the trailing window (oldest first), decided by how many there are. */
  function DeriveCandleRow(id: string, candles: seq<RawCandle>): (r: CandleRow)
    ensures r.instrumentId == id && r.name == id
    ensures r.error.Some? <==> |candles| == 0
    ensures r.error.Some? ==> r.error == Some(NoData)
    ensures r.changePct.Some? ==> |candles| >= 2 && ToReal(candles[|candles| - 2].close) != 0.0
  {
    if |candles| == 0 then
      CandleRow(id, id, None, None, None, Some(NoData))
    else if |candles| < 2 then
      var today := candles[|candles| - 1];
      CandleRow(id, id, Reported(ToReal(today.close)), Reported(ToReal(today.open)), None, None)
    else
      var yesterdayClose := ToReal(candles[|candles| - 2].close);
      var todayOpen := ToReal(candles[|candles| - 1].open);
      CandleRow(id, id, Reported(yesterdayClose), Reported(todayOpen), ChangePct(yesterdayClose, todayOpen), None)
  }

  /** The row returned when the provider call fails: every price absent, the failure text as the error. */
  function FailedCandleRow(id: string, message: string): CandleRow {
    CandleRow(id, id, None, None, None, Some(message))
  }

  /** No candles: every price absent and the error "no data". */
  lemma NoCandles(id: string)
    ensures var r := DeriveCandleRow(id, []);
      r.close.None? && r.open.None? && r.changePct.None? && r.error == Some(NoData)
  {
  }

  /** One candle is "today": open and close come from it, and there is no change. */
  lemma SingleCandle(id: string, today: RawCandle)
    ensures var r := DeriveCandleRow(id, [today]);
      && r.open == Reported(ToReal(today.open))
      && r.close == Reported(ToReal(today.close))
      && r.changePct.None? && r.error.None?
  {
  }

  /** With two or more candles only the last two matter: close is yesterday's close, open is today's open,
      and the change is taken between them whenever yesterday's close is non-zero. */
  lemma LastTwoCandles(id: string, older: seq<RawCandle>, yesterday: RawCandle, today: RawCandle)
    ensures var r := DeriveCandleRow(id, older + [yesterday, today]);
      var y := ToReal(yesterday.close);
      var t := ToReal(today.open);
      && r == DeriveCandleRow(id, [yesterday, today])
      && r.close == Reported(y)
      && r.open == Reported(t)
      && (r.changePct.Some? <==> y != 0.0)
      && (r.changePct.Some? ==> -0.5 <= (r.changePct.value - (t - y) / y * 100.0) * Pow10(2) <= 0.5)
      && r.error.None?
  {
    var cs := older + [yesterday, today];
    assert cs[|cs| - 2] == yesterday && cs[|cs| - 1] == today;
  }

  /** A price of exactly zero is reported as absent, whatever the candle count. */
  lemma ZeroPriceIsAbsent(id: string, candles: seq<RawCandle>)
    requires |candles| >= 1
    ensures var r := DeriveCandleRow(id, candles);
      var closeSource := if |candles| == 1 then candles[0] else candles[|candles| - 2];
      && (r.close.None? <==> Nanos(closeSource.close) == 0)
      && (r.open.None? <==> Nanos(candles[|candles| - 1].open) == 0)
  {
    var closeSource := if |candles| == 1 then candles[0] else candles[|candles| - 2];
    ZeroIffNoNanos(closeSource.close);
    ZeroIffNoNanos(candles[|candles| - 1].open);
  }

  /** A zero or missing open today is reported as absent, yet the change is still taken against it: -100%. */
  lemma ZeroOpenGivesFullDrop(id: string, older: seq<RawCandle>, yesterday: RawCandle, today: RawCandle)
    requires Nanos(today.open) == 0 && ToReal(yesterday.close) != 0.0
    ensures var r := DeriveCandleRow(id, older + [yesterday, today]);
      r.open.None? && r.changePct == Some(-100.0)
  {
    LastTwoCandles(id, older, yesterday, today);
    ZeroIffNoNanos(today.open);
    var y := ToReal(yesterday.close);
    assert DeriveCandleRow(id, [yesterday, today]).changePct == ChangePct(y, ToReal(today.open));
    FullDrop(y);
  }

  /** From any non-zero close to an open of zero is a change of exactly -100%. */
  lemma FullDrop(y: real)
    requires y != 0.0
    ensures ChangePct(y, 0.0) == Some(-100.0)
  {
    assert (0.0 - y) / y * 100.0 == -100.0;
    assert Pow10(2) == 100.0;
    assert RoundHalfEven(-100.0 * 100.0) == -10000;
  }

  /** The worked cases: one candle {open 100, close 102}; yesterday's close 100 and today's open 105 give +5%;
      a zero close gives no change. */
  lemma CandleExamples(id: string)
    ensures DeriveCandleRow(id, [RawCandle(Whole(100), Whole(102))])
         == CandleRow(id, id, Some(102.0), Some(100.0), None, None)
    ensures DeriveCandleRow(id, [RawCandle(Whole(90), Whole(100)), RawCandle(Whole(105), Whole(107))])
         == CandleRow(id, id, Some(100.0), Some(105.0), Some(5.0), None)
    ensures DeriveCandleRow(id, [RawCandle(Whole(90), Whole(0)), RawCandle(Whole(105), Whole(107))]).changePct == None
  {
    assert Pow10(2) == 100.0;
    assert Pow10(4) == 10000.0;
    assert Round(100.0, 4) == 100.0;
    assert Round(102.0, 4) == 102.0;
    assert Round(105.0, 4) == 105.0;
    assert Round(5.0, 2) == 5.0;
  }
}
