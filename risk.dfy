// The risk manager of risk_manager.py: the market filter over the KOSPI and
// KOSDAQ indexes, the stop-loss check of a holding, and the position-size
// rule.  Index closes and price histories are what the collector returned
// (an empty sequence when it returned nothing); the clock is a parameter.

module RiskManager {
  import opened Common
  import opened Indicators
  import opened Config

  // ---------------------------------------------------------------
  // 1. Market filter (risk_manager.py:20-123)
  // ---------------------------------------------------------------

  const Bull: string := "BULL"
  const Bear: string := "BEAR"
  const Neutral: string := "NEUTRAL"

  /** The strategy keys every non-bear market allows. */
  const AllStrategyKeys: seq<string> := ["pullback", "bottom_escape", "golden_cross", "breakout", "convergence"]

  datatype IndexName = Kospi | Kosdaq

  /** One line of the condition's `reasons`, with the figures its text shows. */
  datatype MarketReason =
    | IndexAboveMa5(index: IndexName, value: real, ma5: real)
    | IndexBelowMa5(index: IndexName, value: real, ma5: real)
    | BearMarket(maxWeight: real, strategy: string)
    | BullMarket
    | MixedMarket

  /** MarketCondition: the two index flags and figures, the phase, the weight cap, the
      allowed strategy keys, the reasons and the time stamp. */
  datatype MarketCondition = MarketCondition(
    kospiAboveMa5: bool, kosdaqAboveMa5: bool,
    kospiValue: real, kospiMa5: real, kosdaqValue: real, kosdaqMa5: real,
    marketPhase: string, maxWeight: real, allowedStrategies: seq<string>,
    reasons: seq<MarketReason>, timestamp: string)

  /** The dataclass defaults with the time stamp and the full strategy list. */
  function InitialCondition(now: string): MarketCondition
  {
    MarketCondition(false, false, 0.0, 0.0, 0.0, 0.0, Neutral, 1.0, AllStrategyKeys, [], now)
  }

  /** An index is read when it has at least five closes: its last close and the mean of the
      last five. */
  predicate IndexRead(closes: seq<real>)
  {
    |closes| >= 5
  }

  function LastClose(closes: seq<real>): real
    requires |closes| > 0
  {
    closes[|closes| - 1]
  }

  function Ma5(closes: seq<real>): real
    requires |closes| >= 5
  {
    Mean(closes[|closes| - 5..])
  }

  function IndexReason(index: IndexName, closes: seq<real>): MarketReason
    requires IndexRead(closes)
  {
    if LastClose(closes) > Ma5(closes) then IndexAboveMa5(index, LastClose(closes), Ma5(closes))
    else IndexBelowMa5(index, LastClose(closes), Ma5(closes))
  }

  /** The condition with one index's flag and figures filled in, when it is read. */
  function WithIndex(c: MarketCondition, index: IndexName, closes: seq<real>): MarketCondition
  {
    if !IndexRead(closes) then c
    else
      var above := LastClose(closes) > Ma5(closes);
      var c1 := match index
        case Kospi => c.(kospiValue := LastClose(closes), kospiMa5 := Ma5(closes), kospiAboveMa5 := above)
        case Kosdaq => c.(kosdaqValue := LastClose(closes), kosdaqMa5 := Ma5(closes), kosdaqAboveMa5 := above);
      c1.(reasons := c1.reasons + [IndexReason(index, closes)])
  }

  /** The phase decided from the two flags. */
  function WithPhase(c: MarketCondition, risk: RiskConfig): MarketCondition
  {
    if !c.kospiAboveMa5 && !c.kosdaqAboveMa5 then
      c.(marketPhase := Bear, maxWeight := risk.bearMarketMaxWeight,
         allowedStrategies := [risk.bearMarketStrategy],
         reasons := c.reasons + [BearMarket(risk.bearMarketMaxWeight, risk.bearMarketStrategy)])
    else if c.kospiAboveMa5 && c.kosdaqAboveMa5 then
      c.(marketPhase := Bull, maxWeight := 1.0, reasons := c.reasons + [BullMarket])
    else
      c.(marketPhase := Neutral, maxWeight := 0.7, reasons := c.reasons + [MixedMarket])
  }

  function MarketConditionOf(kospi: seq<real>, kosdaq: seq<real>, risk: RiskConfig, now: string): MarketCondition
  {
    WithPhase(WithIndex(WithIndex(InitialCondition(now), Kospi, kospi), Kosdaq, kosdaq), risk)
  }

  /** `analyze_market_condition` on the closes of the KOSPI ("1001") and KOSDAQ ("2001")
      indexes over 30 days. */
  method AnalyzeMarketCondition(kospi: seq<real>, kosdaq: seq<real>, risk: RiskConfig, now: string)
    returns (c: MarketCondition)
    ensures c == MarketConditionOf(kospi, kosdaq, risk, now)
  {
    c := InitialCondition(now);
    if |kospi| > 0 && |kospi| >= 5 {
      var ma5 := Mean(kospi[|kospi| - 5..]);
      c := c.(kospiValue := kospi[|kospi| - 1], kospiMa5 := ma5);
      c := c.(kospiAboveMa5 := kospi[|kospi| - 1] > ma5);
      if c.kospiAboveMa5 {
        c := c.(reasons := c.reasons + [IndexAboveMa5(Kospi, kospi[|kospi| - 1], ma5)]);
      } else {
        c := c.(reasons := c.reasons + [IndexBelowMa5(Kospi, kospi[|kospi| - 1], ma5)]);
      }
    }
    if |kosdaq| > 0 && |kosdaq| >= 5 {
      var ma5 := Mean(kosdaq[|kosdaq| - 5..]);
      c := c.(kosdaqValue := kosdaq[|kosdaq| - 1], kosdaqMa5 := ma5);
      c := c.(kosdaqAboveMa5 := kosdaq[|kosdaq| - 1] > ma5);
      if c.kosdaqAboveMa5 {
        c := c.(reasons := c.reasons + [IndexAboveMa5(Kosdaq, kosdaq[|kosdaq| - 1], ma5)]);
      } else {
        c := c.(reasons := c.reasons + [IndexBelowMa5(Kosdaq, kosdaq[|kosdaq| - 1], ma5)]);
      }
    }
    var bothBelow := !c.kospiAboveMa5 && !c.kosdaqAboveMa5;
    var bothAbove := c.kospiAboveMa5 && c.kosdaqAboveMa5;
    if bothBelow {
      c := c.(marketPhase := Bear, maxWeight := risk.bearMarketMaxWeight);
      c := c.(allowedStrategies := [risk.bearMarketStrategy]);
      c := c.(reasons := c.reasons + [BearMarket(c.maxWeight, risk.bearMarketStrategy)]);
    } else if bothAbove {
      c := c.(marketPhase := Bull, maxWeight := 1.0);
      c := c.(reasons := c.reasons + [BullMarket]);
    } else {
      c := c.(marketPhase := Neutral, maxWeight := 0.7);
      c := c.(reasons := c.reasons + [MixedMarket]);
    }
  }

  /** An index flag is set exactly when that index has five closes and the last is strictly
      above their mean; both flags down is a bear market limited to the one bear strategy,
      both up a bull market and a mix a neutral one, the last two allowing all five
      strategies; one reason per read index, then the phase's. */
  lemma MarketPhaseRule(kospi: seq<real>, kosdaq: seq<real>, risk: RiskConfig, now: string)
    ensures var c := MarketConditionOf(kospi, kosdaq, risk, now);
      (c.kospiAboveMa5 <==> IndexRead(kospi) && LastClose(kospi) > Ma5(kospi)) &&
      (c.kosdaqAboveMa5 <==> IndexRead(kosdaq) && LastClose(kosdaq) > Ma5(kosdaq)) &&
      (!c.kospiAboveMa5 && !c.kosdaqAboveMa5 ==>
         c.marketPhase == Bear && c.maxWeight == risk.bearMarketMaxWeight &&
         c.allowedStrategies == [risk.bearMarketStrategy]) &&
      (c.kospiAboveMa5 && c.kosdaqAboveMa5 ==>
         c.marketPhase == Bull && c.maxWeight == 1.0 && c.allowedStrategies == AllStrategyKeys) &&
      (c.kospiAboveMa5 != c.kosdaqAboveMa5 ==>
         c.marketPhase == Neutral && c.maxWeight == 0.7 && c.allowedStrategies == AllStrategyKeys) &&
      |c.reasons| == (if IndexRead(kospi) then 1 else 0) + (if IndexRead(kosdaq) then 1 else 0) + 1 &&
      c.timestamp == now
  {
  }

  /** The three phases are the only ones the filter produces, and its weight cap is one of
      the three configured values. */
  lemma MarketPhaseValues(kospi: seq<real>, kosdaq: seq<real>, risk: RiskConfig, now: string)
    ensures var c := MarketConditionOf(kospi, kosdaq, risk, now);
      (c.marketPhase == Bull || c.marketPhase == Bear || c.marketPhase == Neutral) &&
      (c.marketPhase == Bear <==> c.allowedStrategies == [risk.bearMarketStrategy] && |c.allowedStrategies| == 1 &&
                                  !c.kospiAboveMa5 && !c.kosdaqAboveMa5)
  {
    MarketPhaseRule(kospi, kosdaq, risk, now);
    assert Bear[1] != Bull[1] && Bear[0] != Neutral[0];
  }

  // ---------------------------------------------------------------
  // 2. Stop-loss check (risk_manager.py:37-192)
  // ---------------------------------------------------------------

  datatype StopTrigger = NoTriggerText | AtrStopBroken(stop: int) | Ma20Broken(ma20: int) | StopNotReached

  const SellNow: string := "즉시 매도"
  const SellAtClose: string := "종가 매도 추천"
  const Hold: string := "보유 유지"

  datatype StopLossReport = StopLossReport(
    ticker: string, name: string, entryPrice: real, currentPrice: real, stopLossPrice: real,
    ma20Price: real, triggerReason: StopTrigger, triggered: bool, lossPct: Option<real>,
    action: string, timestamp: string)

  /** The last value of the 20-day MA, which `add_all_ma(df, [20])` adds only from 20 rows. */
  function Ma20(bars: seq<Bar>): Option<real>
  {
    if |bars| >= 20 then Some(Mean(Closes(bars)[|bars| - 20..])) else None
  }

  /** A truthy MA: present and not zero. */
  predicate Truthy(v: Option<real>)
  {
    v.Some? && v.value != 0.0
  }

  /** round((current - entry) / entry * 100, 2); a zero entry divides by zero, which for
      numpy values gives a non-finite number and not an error (None here). */
  function LossPct(current: real, entry: real): Option<real>
  {
    if entry == 0.0 then None else Some(RoundTo((current - entry) / entry * 100.0, 2))
  }

  function BlankReport(ticker: string, name: string, entry: real, stop: real, now: string): StopLossReport
  {
    StopLossReport(ticker, name, entry, 0.0, stop, 0.0, NoTriggerText, false, Some(0.0), "", now)
  }

  function StopLossOf(ticker: string, name: string, entry: real, stop: real, bars: seq<Bar>, now: string)
    : StopLossReport
  {
    var r := BlankReport(ticker, name, entry, stop, now);
    if |bars| == 0 then r
    else
      var cur := bars[|bars| - 1].close;
      var ma20 := Ma20(bars);
      var r1 := r.(currentPrice := cur, ma20Price := if Truthy(ma20) then ma20.value else 0.0,
                   lossPct := LossPct(cur, entry));
      if cur <= stop then r1.(triggered := true, triggerReason := AtrStopBroken(Trunc(stop)), action := SellNow)
      else if Truthy(ma20) && cur < ma20.value then
        r1.(triggered := true, triggerReason := Ma20Broken(Trunc(ma20.value)), action := SellAtClose)
      else r1.(action := Hold, triggerReason := StopNotReached)
  }

  /** `check_stop_loss` on the 30-day history of the ticker. */
  method CheckStopLoss(ticker: string, name: string, entry: real, stop: real, bars: seq<Bar>, now: string)
    returns (report: StopLossReport)
    ensures report == StopLossOf(ticker, name, entry, stop, bars, now)
  {
    report := BlankReport(ticker, name, entry, stop, now);
    if |bars| == 0 {
      return;
    }
    var cur := bars[|bars| - 1].close;
    report := report.(currentPrice := cur);
    var ma20 := Ma20(bars);
    report := report.(ma20Price := if ma20.Some? && ma20.value != 0.0 then ma20.value else 0.0);
    report := report.(lossPct := LossPct(cur, entry));
    if cur <= stop {
      report := report.(triggered := true, triggerReason := AtrStopBroken(Trunc(stop)));
      report := report.(action := SellNow);
    } else if ma20.Some? && ma20.value != 0.0 && cur < ma20.value {
      report := report.(triggered := true, triggerReason := Ma20Broken(Trunc(ma20.value)));
      report := report.(action := SellAtClose);
    } else {
      report := report.(action := Hold, triggerReason := StopNotReached);
    }
  }

  /** The stop price breaks first, then a close under a non-zero MA20; otherwise the
      holding is kept; an empty history leaves the untriggered blank report. */
  lemma StopLossDecision(ticker: string, name: string, entry: real, stop: real, bars: seq<Bar>, now: string)
    ensures var r := StopLossOf(ticker, name, entry, stop, bars, now);
      r.ticker == ticker && r.name == name && r.entryPrice == entry && r.stopLossPrice == stop &&
      (|bars| == 0 ==> !r.triggered && r.action == "" && r.currentPrice == 0.0) &&
      (|bars| > 0 ==>
        var cur := bars[|bars| - 1].close;
        r.currentPrice == cur &&
        (r.triggered <==> cur <= stop || (Truthy(Ma20(bars)) && cur < Ma20(bars).value)) &&
        (r.action == SellNow <==> cur <= stop) &&
        (r.action == SellAtClose <==> cur > stop && Truthy(Ma20(bars)) && cur < Ma20(bars).value) &&
        (r.action == Hold <==> !r.triggered) &&
        (entry != 0.0 ==> r.lossPct == Some(RoundTo((cur - entry) / entry * 100.0, 2))))
  {
    assert SellNow[0] != SellAtClose[0] && SellNow[0] != Hold[0] && SellAtClose[0] != Hold[0];
  }

  /** The loss percentage is negative exactly when the price is a full basis point of the
      entry below it (and the entry is positive). */
  lemma LossPctSign(current: real, entry: real)
    requires entry > 0.0
    ensures current >= entry ==> LossPct(current, entry).value >= 0.0
    ensures current - entry <= -0.0001 * entry ==> LossPct(current, entry).value < 0.0
  {
    var q := (current - entry) / entry * 100.0;
    if current >= entry {
      assert (current - entry) / entry >= 0.0;
    }
    if current - entry <= -0.0001 * entry {
      RatioAtMost(current - entry, entry, -0.0001);
      assert q <= -0.01;
      assert q * Pow10(2) <= -1.0;
    }
    RoundToSign(q, 2);
  }

  /** A position as `generate_stop_loss_report` reads it. */
  datatype Position = Position(ticker: string, entryPrice: real, stopLoss: real)

  /** `generate_stop_loss_report`: one report per position, in order; `names` and
      `history` are the collector's answers. */
  method GenerateStopLossReport(positions: seq<Position>, names: string -> string, history: string -> seq<Bar>,
                                now: string) returns (reports: seq<StopLossReport>)
    ensures |reports| == |positions|
    ensures forall i :: 0 <= i < |positions| ==>
      reports[i] == StopLossOf(positions[i].ticker, names(positions[i].ticker), positions[i].entryPrice,
                               positions[i].stopLoss, history(positions[i].ticker), now)
  {
    reports := [];
    var i := 0;
    while i < |positions|
      invariant 0 <= i <= |positions|
      invariant |reports| == i
      invariant forall k :: 0 <= k < i ==>
        reports[k] == StopLossOf(positions[k].ticker, names(positions[k].ticker), positions[k].entryPrice,
                                 positions[k].stopLoss, history(positions[k].ticker), now)
    {
      var pos := positions[i];
      var report := CheckStopLoss(pos.ticker, names(pos.ticker), pos.entryPrice, pos.stopLoss,
                                  history(pos.ticker), now);
      reports := reports + [report];
      i := i + 1;
    }
  }

  // ---------------------------------------------------------------
  // 3. Position size (risk_manager.py:197-229)
  // ---------------------------------------------------------------

  datatype SizeCheck = SizeCheck(
    investedPct: real, marketMaxPct: real, remainingPct: real, recommendedQty: int,
    recommendedAmount: int, canBuy: bool, holdingCount: nat, maxHoldings: nat)

  /** `sum(p.get("invested", 0) for p in positions)`. */
  function Invested(positions: seq<Option<real>>): real
  {
    if |positions| == 0 then 0.0
    else Invested(positions[..|positions| - 1]) +
         (if positions[|positions| - 1].Some? then positions[|positions| - 1].value else 0.0)
  }

  function InvestedRatio(capital: real, invested: real): real
  {
    if capital > 0.0 then invested / capital else 0.0
  }

  function Remaining(maxWeight: real, ratio: real): real
  {
    MaxR(maxWeight - ratio, 0.0)
  }

  /** int(min(single cap, remaining * capital) / max(price, 1)), truncated toward zero: for a
      non-negative capital, room and cap and a positive price it is never negative and the
      order costs at most the single-position cap and at most the remaining room. */
  function RecommendedQty(capital: real, remaining: real, price: real, maxPositionPct: real): (q: int)
    ensures capital >= 0.0 && remaining >= 0.0 && maxPositionPct >= 0.0 && price > 0.0 ==>
      q >= 0 && q as real * price <= maxPositionPct * capital && q as real * price <= remaining * capital
  {
    var single, room := maxPositionPct * capital, remaining * capital;
    if capital >= 0.0 && remaining >= 0.0 && maxPositionPct >= 0.0 && price > 0.0 then
      NonNegativeProduct(maxPositionPct, capital);
      NonNegativeProduct(remaining, capital);
      QtyCost(single, room, MaxR(price, 1.0), price);
      Trunc(MinR(single, room) / MaxR(price, 1.0))
    else
      Trunc(MinR(single, room) / MaxR(price, 1.0))
  }

  /** Truncating min(a, b) / d for a, b >= 0 gives a quantity whose cost at a price no above d
      is at most a and at most b. */
  lemma QtyCost(a: real, b: real, d: real, price: real)
    requires a >= 0.0 && b >= 0.0 && d >= 1.0 && 0.0 < price <= d
    ensures 0 <= Trunc(MinR(a, b) / d)
    ensures Trunc(MinR(a, b) / d) as real * price <= a
    ensures Trunc(MinR(a, b) / d) as real * price <= b
  {
    var m := MinR(a, b);
    var r := m / d;
    QuotientScale(m, d);
    var q := Trunc(r) as real;
    ScaleLe(q, price, d);
    ScaleLe(d, q, r);
  }

  /** Dividing a non-negative amount by a positive divisor and scaling back. */
  lemma QuotientScale(m: real, d: real)
    requires m >= 0.0 && d > 0.0
    ensures m / d >= 0.0 && d * (m / d) == m
  {
  }

  /** Scaling by a non-negative factor keeps the order. */
  lemma ScaleLe(k: real, x: real, y: real)
    requires k >= 0.0 && x <= y
    ensures k * x <= k * y
  {
    assert k * y - k * x == k * (y - x);
  }

  /** `validate_position_size`; `positions` are the "invested" entries of the held positions. */
  function ValidatePositionSize(capital: real, positions: seq<Option<real>>, price: real, c: MarketCondition,
                                risk: RiskConfig): SizeCheck
  {
    var ratio := InvestedRatio(capital, Invested(positions));
    var remaining := Remaining(c.maxWeight, ratio);
    var qty := RecommendedQty(capital, remaining, price, risk.maxPositionPct);
    SizeCheck(RoundTo(ratio * 100.0, 1), RoundTo(c.maxWeight * 100.0, 0), RoundTo(remaining * 100.0, 1),
              if qty > 0 then qty else 0, Trunc(qty as real * price),
              remaining > 0.0 && |positions| < risk.maxTotalPositions, |positions|, risk.maxTotalPositions)
  }

  /** The room left is never negative (the ratio is zero without capital); the quantity is the
      recommended one, bounded as `RecommendedQty` states for a non-negative capital and cap
      and a positive price; a purchase is possible exactly when room is left and the position
      count is below the maximum. */
  lemma PositionSizeBounds(capital: real, positions: seq<Option<real>>, price: real, c: MarketCondition,
                           risk: RiskConfig)
    ensures var r := ValidatePositionSize(capital, positions, price, c, risk);
      var ratio := InvestedRatio(capital, Invested(positions));
      var remaining := Remaining(c.maxWeight, ratio);
      (capital <= 0.0 ==> ratio == 0.0) && remaining >= 0.0 &&
      (capital >= 0.0 && price > 0.0 && risk.maxPositionPct >= 0.0 ==>
         r.recommendedQty == RecommendedQty(capital, remaining, price, risk.maxPositionPct)) &&
      (r.canBuy <==> remaining > 0.0 && |positions| < risk.maxTotalPositions) &&
      r.holdingCount == |positions|
  {
  }

  lemma NonNegativeProduct(a: real, b: real)
    requires a >= 0.0 && b >= 0.0
    ensures a * b >= 0.0
  {
  }
}
