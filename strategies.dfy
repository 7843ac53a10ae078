// The strategy engine of strategies.py: five evaluators that turn one ticker's
// market data into a StrategySignal, the engine-wide scan and the best-signal
// choice.  Each evaluator is a function from the results of its sub-checks (the
// indicator values and collector answers it reads, gathered by `...InputsOf`) to
// the signal (`PullbackEval`, ...), and a method that builds the signal step by
// step as the source does, appending reasons and accumulating the score, proved
// to compute that function.

module Strategies {
  import opened Common
  import opened Indicators
  import opened Config

  datatype StrategyType = Pullback | BottomEscape | GoldenCross | Breakout | EarlyAlignment

  /** The enum's value, as shown in reports and grouped by the intersection analysis. */
  function StrategyValue(t: StrategyType): string
  {
    match t
    case Pullback => "눌림목"
    case BottomEscape => "바닥탈출"
    case GoldenCross => "골든크로스"
    case Breakout => "박스권돌파"
    case EarlyAlignment => "정배열초입"
  }

  /** Distinct strategies have distinct values, so grouping by value counts strategies. */
  lemma StrategyValueInjective(a: StrategyType, b: StrategyType)
    ensures StrategyValue(a) == StrategyValue(b) <==> a == b
  {
    if a != b {
      assert StrategyValue(a)[0] != StrategyValue(b)[0];
    }
  }

  /** The position of each evaluator in `scan_all_strategies`' list. */
  function Rank(t: StrategyType): (r: nat)
    ensures r < 5
  {
    match t
    case Pullback => 0
    case BottomEscape => 1
    case GoldenCross => 2
    case Breakout => 3
    case EarlyAlignment => 4
  }

  const EngineOrder: seq<StrategyType> := [Pullback, BottomEscape, GoldenCross, Breakout, EarlyAlignment]

  /** The score at which each evaluator triggers. */
  function Threshold(t: StrategyType): int
  {
    match t
    case Pullback => 65
    case BottomEscape => 60
    case GoldenCross => 65
    case Breakout => 55
    case EarlyAlignment => 55
  }

  const Approve: string := "매수 승인"
  const Watch: string := "관망"

  /** One line of a signal's `reasons`, with the figures its text shows. */
  datatype Reason =
    | CenterSupport(center: int)
    | VolumeCliffSeen(ratio: Option<real>)
    | SellingExhausted
    | InstitutionHolding
    | MaBreakout(ma: int)
    | RecentMaBreakout(ma: int)
    | NoResistanceWall
    | ResistanceWallWarning(ratioPct: Option<real>)
    | AccumulationSeen(count: nat, multiple: Option<real>)
    | GoldenCrossSeen(shortMa: nat, longMa: nat)
    | SlopeHealthy(slope: Option<real>)
    | SlopeWarning(slope: Option<real>)
    | RsiCrossUp(rsi: Option<real>)
    | RsiRising(rsi: Option<real>)
    | BoxTopBreakout(top: int)
    | BoxTopNear(top: int)
    | StrongAskBid(askBid: real)
    | WeakAskBid(askBid: real, required: real)
    | ProgramInflow(netBuy: int)
    | VolumeSurge(surge: real)
    | MasConverged(spreadPct: Option<real>)
    | MasNearConvergence(spreadPct: Option<real>)
    | MasAligned
    | MasDiverging
    | MarketAboveMa5
    | SupplyAcceleration(accelLabel: string)
  /** StrategySignal without its free-form `details` dict. */
  datatype Signal = Signal(
    ticker: string, name: string, strategy: StrategyType,
    triggered: bool, confidence: int, currentPrice: real,
    entry1: real, entry2: real, target1: real, target2: real, stopLoss: real,
    riskReward: real, reasons: seq<Reason>, verdict: string)

  /** The dataclass defaults with the ticker, name and strategy filled in. */
  function Initial(ticker: string, name: string, t: StrategyType): Signal
  {
    Signal(ticker, name, t, false, 0, 0.0, 0.0, 0.0, 0.0, 0.0, 0.0, 0.0, [], Watch)
  }

  // ---------------------------------------------------------------
  // Shared scoring and pricing
  // ---------------------------------------------------------------

  function Weight(b: bool, w: int): int { if b then w else 0 }

  function MinI(a: int, b: int): int { if a <= b then a else b }

  /** Entry, target and stop prices of a triggered signal. */
  datatype Plan = Plan(entry1: int, entry2: int, target1: real, target2: real, stop: real)

  /** `targets.get(key, round(fallback, 0))`. */
  function TargetOr(t: Option<int>, fallback: real): real
  {
    if t.Some? then t.value as real else RoundHalfEven(fallback) as real
  }

  /** `calc_target_price(df)`, whose empty answer (under 20 rows) has neither target. */
  function TargetsOf(bars: seq<Bar>): Targets
  {
    var t := CalcTargetPrice(bars);
    if t.Some? then t.value else Targets(None, None)
  }

  /** A plan with the given entries, the calculated targets (each falling back to a multiple
      of the price) and the ATR stop below entry 1. */
  function PlanOf(e1: int, e2: int, t: Targets, current: real, up1: real, up2: real, atr: real, mult: real): Plan
  {
    Plan(e1, e2, TargetOr(t.target1, current * up1), TargetOr(t.target2, current * up2),
         CalcStopLoss(e1, atr, mult).stop as real)
  }

  /** The ATR stop of such a plan is at most its first entry when ATR and multiplier are
      not negative. */
  lemma PlanStopBelowEntry(e1: int, e2: int, t: Targets, current: real, up1: real, up2: real, atr: real, mult: real)
    requires atr >= 0.0 && mult >= 0.0
    ensures PlanOf(e1, e2, t, current, up1, up2, atr, mult).stop <= e1 as real
  {
    assert atr * mult >= 0.0;
  }

  /** round((t1 - e1) / max(e1 - stop, 1), 2): the divisor is at least 1. */
  function RiskReward(t1: real, e1: real, stop: real): real
  {
    RoundTo((t1 - e1) / MaxR(e1 - stop, 1.0), 2)
  }

  /** Sets confidence = min(score, 100) and the trigger flag; a triggered signal also gets
      its trade plan, risk/reward and verdict. */
  function Scored(s: Signal, score: int, threshold: int, plan: Plan, approve: bool): Signal
  {
    var conf := MinI(score, 100);
    if score >= threshold then
      s.(confidence := conf, triggered := true,
         entry1 := plan.entry1 as real, entry2 := plan.entry2 as real,
         target1 := plan.target1, target2 := plan.target2, stopLoss := plan.stop,
         riskReward := RiskReward(plan.target1, plan.entry1 as real, plan.stop),
         verdict := if approve then Approve else Watch)
    else s.(confidence := conf, triggered := false)
  }

  /** The common last step of every evaluator: confidence = min(score, 100), the trigger
      flag, and for a triggered signal the plan prices, the risk/reward and the verdict. */
  method Finish(s0: Signal, score: int, threshold: int, plan: Plan, approve: bool) returns (s: Signal)
    ensures s == Scored(s0, score, threshold, plan, approve)
  {
    s := s0.(confidence := MinI(score, 100), triggered := score >= threshold);
    if s.triggered {
      s := s.(entry1 := plan.entry1 as real, entry2 := plan.entry2 as real,
              target1 := plan.target1, target2 := plan.target2, stopLoss := plan.stop);
      s := s.(riskReward := RiskReward(s.target1, s.entry1, s.stopLoss));
      s := s.(verdict := if approve then Approve else Watch);
    }
  }

  /** A signal whose fields agree with its confidence, trigger flag and verdict. */
  predicate Coherent(s: Signal)
  {
    0 <= s.confidence <= 100 &&
    (s.triggered <==> s.confidence >= Threshold(s.strategy)) &&
    (s.verdict == Approve || s.verdict == Watch) &&
    (s.verdict == Approve ==> s.triggered) &&
    (!s.triggered ==> s.entry1 == 0.0 && s.entry2 == 0.0 && s.target1 == 0.0 &&
                      s.target2 == 0.0 && s.stopLoss == 0.0 && s.riskReward == 0.0)
  }

  lemma InitialCoherent(ticker: string, name: string, t: StrategyType, cur: real)
    ensures Coherent(Initial(ticker, name, t).(currentPrice := cur))
  {
    assert Approve[0] != Watch[0];
  }

  /** A signal as the evaluator holds it before scoring: untriggered, watched, no prices. */
  predicate Unscored(s: Signal)
  {
    !s.triggered && s.verdict == Watch &&
    s.entry1 == 0.0 && s.entry2 == 0.0 && s.target1 == 0.0 && s.target2 == 0.0 &&
    s.stopLoss == 0.0 && s.riskReward == 0.0
  }

  /** A score no larger than 100 becomes the confidence unchanged, and the result is coherent;
      scoring touches nothing but the score-derived fields. */
  lemma ScoredCoherent(s: Signal, score: int, plan: Plan, approve: bool)
    requires 0 <= score <= 100 && Unscored(s)
    ensures var r := Scored(s, score, Threshold(s.strategy), plan, approve);
      Coherent(r) && r.confidence == score && r.triggered == (score >= Threshold(s.strategy)) &&
      (r.verdict == Approve <==> r.triggered && approve) &&
      r.ticker == s.ticker && r.name == s.name && r.strategy == s.strategy &&
      r.currentPrice == s.currentPrice && r.reasons == s.reasons &&
      (r.triggered ==> r.entry1 == plan.entry1 as real && r.entry2 == plan.entry2 as real &&
                       r.target1 == plan.target1 && r.target2 == plan.target2 && r.stopLoss == plan.stop &&
                       r.riskReward == RiskReward(plan.target1, plan.entry1 as real, plan.stop))
  {
    assert Approve[0] != Watch[0];
  }

  /** The risk/reward sign follows the target's side of the entry. */
  lemma RiskRewardSign(t1: real, e1: real, stop: real)
    ensures t1 >= e1 ==> RiskReward(t1, e1, stop) >= 0.0
    ensures t1 - e1 <= -0.01 * MaxR(e1 - stop, 1.0) ==> RiskReward(t1, e1, stop) < 0.0
  {
    var d := MaxR(e1 - stop, 1.0);
    var q := (t1 - e1) / d;
    if t1 >= e1 {
      assert q >= 0.0;
    }
    if t1 - e1 <= -0.01 * d {
      assert t1 - e1 == q * d;
      assert q <= -0.01;
      assert q * Pow10(2) <= -1.0;
    }
    RoundToSign(q, 2);
  }

  /** ATR, or its 2% fallback, is never negative for bars whose high is at least their low. */
  lemma AtrOrDefaultNonNegative(bars: seq<Bar>, current: real)
    requires current >= 0.0
    requires forall i :: 0 <= i < |bars| ==> bars[i].high - bars[i].low >= 0.0
    ensures AtrOrDefault(bars, current) >= 0.0
  {
    var a := Atr(bars, 14);
    if |a| > 0 && a[|a| - 1].Some? {
      assert |bars| >= 14;
      AtrAtLeast(bars, 14, |bars| - 1, 0.0);
    }
  }

  /** The MA column `add_all_ma` leaves for period p, if any. */
  function MaColumn(bars: seq<Bar>, periods: seq<nat>, p: nat): (col: Option<seq<Option<real>>>)
    requires forall i :: 0 <= i < |periods| ==> periods[i] >= 1
    ensures col.Some? ==> |bars| >= p >= 1 && |col.value| == |bars| && col.value[|bars| - 1].Some?
  {
    if Added(|bars|, periods, p) then Some(Sma(Closes(bars), p)) else None
  }

  /** All the MA columns `add_all_ma(df, periods)` adds to a fresh frame. */
  function MaMap(bars: seq<Bar>, periods: seq<nat>): (ma: map<nat, seq<Option<real>>>)
    requires forall i :: 0 <= i < |periods| ==> periods[i] >= 1
    ensures ColumnsOfLength(ma, |bars|)
  {
    map p | p in periods && |bars| >= p :: Sma(Closes(bars), p)
  }

  /** A column of the frame: as many entries as rows. */
  predicate ColumnFits(col: Option<seq<Option<real>>>, rows: nat)
  {
    col.Some? ==> |col.value| == rows && rows >= 1 && col.value[rows - 1].Some?
  }

  // ---------------------------------------------------------------
  // 1. Pullback (strategies.py:64-163)
  // ---------------------------------------------------------------

  /** What `check_pullback` reads: the row count and last close of the 100-day history, the
      reference candle, the volume cliff, the 기관합계 column of the investor table (if the
      table has one), the calculated targets and the ATR (or its 2% fallback). */
  datatype PullbackInputs = PullbackInputs(
    rows: nat, current: real, reference: Option<RefCandle>, volume: VolumeCliff,
    institution: Option<seq<real>>, targets: Targets, atr: real)

  function PullbackInputsOf(bars: seq<Bar>, institution: Option<seq<real>>, p: PullbackParams): (d: PullbackInputs)
    requires p.referenceCandleLookback >= 1
    ensures d.rows == |bars|
  {
    var cur := if |bars| > 0 then bars[|bars| - 1].close else 0.0;
    PullbackInputs(|bars|, cur, ReferenceCandle(bars, p.referenceCandleLookback),
                   DetectVolumeCliff(bars, 10, p.volumeCliffThreshold), institution,
                   TargetsOf(bars), AtrOrDefault(bars, cur))
  }

  /** Price near the reference centre (within 2%; a zero centre gives numpy's inf or NaN,
      never near) or above 98% of it. */
  predicate CenterHeld(current: real, center: real)
  {
    (center != 0.0 && Abs(current - center) / center <= 0.02) || current >= center * 0.98
  }

  /** The institution total moved by at most `tolerance` of its mean over the last five rows
      (a zero mean counts as a change of 1); a missing or empty column never holds. */
  function InstitutionHold(col: Option<seq<real>>, tolerance: real): bool
  {
    if col.None? || |col.value| == 0 then false
    else
      var recent := Tail(col.value, 5);
      var m := Mean(recent);
      var change := if m != 0.0 then (MaxOf(recent) - MinOf(recent)) / Abs(m) else 1.0;
      change <= tolerance
  }

  function VolumeReasons(v: VolumeCliff): seq<Reason>
  {
    if v.cliff then [VolumeCliffSeen(v.ratio)] else if v.exhaustion then [SellingExhausted] else []
  }

  /** Support held: the history is long enough, a reference candle exists and the price
      holds its centre. */
  predicate PullbackGate(d: PullbackInputs)
  {
    d.rows >= 30 && d.reference.Some? && CenterHeld(d.current, d.reference.value.center)
  }

  function PullbackEval(ticker: string, name: string, d: PullbackInputs, p: PullbackParams, mult: real): Signal
  {
    var init := Initial(ticker, name, Pullback);
    if d.rows < 30 then init
    else if !PullbackGate(d) then init.(currentPrice := d.current)
    else
      var c := d.reference.value.center;
      var volume := d.volume.cliff || d.volume.exhaustion;
      var inst := InstitutionHold(d.institution, p.institutionHoldTolerance);
      var reasons := [CenterSupport(Trunc(c))] + VolumeReasons(d.volume) + (if inst then [InstitutionHolding] else []);
      var score := 40 + Weight(volume, 35) + Weight(inst, 25);
      Scored(init.(currentPrice := d.current, reasons := reasons), score, 65,
             PlanOf(RoundHalfEven(c), RoundHalfEven(c * 0.98), d.targets, d.current, 1.05, 1.10, d.atr, mult),
             MinI(score, 100) >= 75)
  }

  /** `check_pullback`, building the signal step by step. */
  method CheckPullback(ticker: string, name: string, d: PullbackInputs, p: PullbackParams, mult: real)
    returns (s: Signal)
    ensures s == PullbackEval(ticker, name, d, p, mult)
  {
    s := Initial(ticker, name, Pullback);
    if d.rows < 30 {
      return;
    }
    s := s.(currentPrice := d.current);
    if d.reference.None? {
      return;
    }
    var center := d.reference.value.center;
    if CenterHeld(d.current, center) {
      s := s.(reasons := s.reasons + [CenterSupport(Trunc(center))]);
    } else {
      return;
    }
    if d.volume.cliff {
      s := s.(reasons := s.reasons + [VolumeCliffSeen(d.volume.ratio)]);
    } else if d.volume.exhaustion {
      s := s.(reasons := s.reasons + [SellingExhausted]);
    }
    var institutionHold := InstitutionHold(d.institution, p.institutionHoldTolerance);
    if institutionHold {
      s := s.(reasons := s.reasons + [InstitutionHolding]);
    }
    var score := 40;
    if d.volume.cliff || d.volume.exhaustion {
      score := score + 35;
    }
    if institutionHold {
      score := score + 25;
    }
    var plan := PlanOf(RoundHalfEven(center), RoundHalfEven(center * 0.98), d.targets, d.current, 1.05, 1.10, d.atr, mult);
    s := Finish(s, score, 65, plan, MinI(score, 100) >= 75);
  }

  /** Short history or no support: the default signal (only the price may be set). Otherwise
      the score is 40 + 35 for a volume cliff or selling exhaustion + 25 for institution
      holding, so the signal triggers exactly when support comes with one of the two, and it
      is approved exactly when support comes with the volume signal. */
  lemma PullbackDecision(ticker: string, name: string, d: PullbackInputs, p: PullbackParams, mult: real)
    ensures var s := PullbackEval(ticker, name, d, p, mult);
      var volume := d.volume.cliff || d.volume.exhaustion;
      var inst := InstitutionHold(d.institution, p.institutionHoldTolerance);
      Coherent(s) && s.ticker == ticker && s.name == name && s.strategy == Pullback &&
      (!PullbackGate(d) ==> s.confidence == 0 && s.reasons == []) &&
      (PullbackGate(d) ==> s.confidence == 40 + Weight(volume, 35) + Weight(inst, 25) &&
                           s.reasons == [CenterSupport(Trunc(d.reference.value.center))] + VolumeReasons(d.volume) +
                                        (if inst then [InstitutionHolding] else [])) &&
      (s.triggered <==> PullbackGate(d) && (volume || inst)) &&
      (s.verdict == Approve <==> PullbackGate(d) && volume)
  {
    if !PullbackGate(d) {
      InitialCoherent(ticker, name, Pullback, if d.rows < 30 then 0.0 else d.current);
    } else {
      var c := d.reference.value.center;
      var inst := InstitutionHold(d.institution, p.institutionHoldTolerance);
      var reasons := [CenterSupport(Trunc(c))] + VolumeReasons(d.volume) + (if inst then [InstitutionHolding] else []);
      var score := 40 + Weight(d.volume.cliff || d.volume.exhaustion, 35) + Weight(inst, 25);
      ScoredCoherent(Initial(ticker, name, Pullback).(currentPrice := d.current, reasons := reasons), score,
                     PlanOf(RoundHalfEven(c), RoundHalfEven(c * 0.98), d.targets, d.current, 1.05, 1.10, d.atr, mult),
                     MinI(score, 100) >= 75);
    }
  }

  /** Without an institution column the holding bonus never applies: a pullback then
      triggers only with the volume signal, is approved whenever it triggers, and its
      confidence is 0, 40 or 75. */
  lemma PullbackWithoutInstitution(ticker: string, name: string, d: PullbackInputs, p: PullbackParams, mult: real)
    requires d.institution.None?
    ensures var s := PullbackEval(ticker, name, d, p, mult);
      (s.triggered <==> s.verdict == Approve) &&
      (s.confidence == 0 || s.confidence == 40 || s.confidence == 75)
  {
    PullbackDecision(ticker, name, d, p, mult);
  }

  /** A triggered pullback buys first at the rounded centre and second at the rounded 98% of
      it, which is never higher for a non-negative centre; with a non-negative ATR and
      multiplier the stop is at most entry 1. */
  lemma PullbackEntries(ticker: string, name: string, d: PullbackInputs, p: PullbackParams, mult: real)
    requires PullbackEval(ticker, name, d, p, mult).triggered
    ensures var s := PullbackEval(ticker, name, d, p, mult);
      var c := d.reference.value.center;
      d.reference.Some? &&
      s.entry1 == RoundHalfEven(c) as real && s.entry2 == RoundHalfEven(c * 0.98) as real &&
      (c >= 0.0 ==> s.entry2 <= s.entry1) &&
      (d.atr >= 0.0 && mult >= 0.0 ==> s.stopLoss <= s.entry1)
  {
    PullbackDecision(ticker, name, d, p, mult);
    var c := d.reference.value.center;
    var inst := InstitutionHold(d.institution, p.institutionHoldTolerance);
    var reasons := [CenterSupport(Trunc(c))] + VolumeReasons(d.volume) + (if inst then [InstitutionHolding] else []);
    var score := 40 + Weight(d.volume.cliff || d.volume.exhaustion, 35) + Weight(inst, 25);
    var plan := PlanOf(RoundHalfEven(c), RoundHalfEven(c * 0.98), d.targets, d.current, 1.05, 1.10, d.atr, mult);
    ScoredCoherent(Initial(ticker, name, Pullback).(currentPrice := d.current, reasons := reasons), score,
                   plan, MinI(score, 100) >= 75);
    if c >= 0.0 {
      RoundMonotone(c * 0.98, c);
    }
    if d.atr >= 0.0 && mult >= 0.0 {
      PlanStopBelowEntry(RoundHalfEven(c), RoundHalfEven(c * 0.98), d.targets, d.current, 1.05, 1.10, d.atr, mult);
    }
  }

  /** What the collector's history gives the pullback: the reference centre lies within the
      reference bar's range, the ATR is not negative, and selling exhaustion always comes
      with a cliff. */
  lemma PullbackInputsFacts(bars: seq<Bar>, institution: Option<seq<real>>, p: PullbackParams)
    requires p.referenceCandleLookback >= 1
    requires forall i :: 0 <= i < |bars| ==> WellFormed(bars[i])
    ensures var d := PullbackInputsOf(bars, institution, p);
      (d.reference.Some? <==> |bars| >= p.referenceCandleLookback) &&
      (d.reference.Some? ==> d.reference.value.low <= d.reference.value.center <= d.reference.value.high) &&
      (d.current >= 0.0 ==> d.atr >= 0.0) &&
      (d.volume.exhaustion ==> d.volume.cliff)
  {
    if |bars| >= p.referenceCandleLookback {
      ReferenceCenter(bars, p.referenceCandleLookback);
    }
    var cur := if |bars| > 0 then bars[|bars| - 1].close else 0.0;
    if cur >= 0.0 {
      AtrOrDefaultNonNegative(bars, cur);
    }
  }

  // ---------------------------------------------------------------
  // 2. Bottom escape (strategies.py:166-287)
  // ---------------------------------------------------------------

  /** What `check_bottom_escape` reads: the closes of the 100-day history, its MA column (if
      `add_all_ma` added it), the resistance-wall check of the 60-day volume profile at the
      last close, the accumulation candles, the calculated targets and the ATR. */
  datatype BottomEscapeInputs = BottomEscapeInputs(
    closes: seq<real>, ma: Option<seq<Option<real>>>, wall: WallCheck,
    accumulation: seq<AccumCandle>, targets: Targets, atr: real)

  function BottomEscapeInputsOf(bars: seq<Bar>, profile: seq<ProfileBin>, p: BottomEscapeParams): (d: BottomEscapeInputs)
    ensures |d.closes| == |bars| && ColumnFits(d.ma, |bars|)
  {
    var cur := if |bars| > 0 then bars[|bars| - 1].close else 0.0;
    BottomEscapeInputs(Closes(bars), MaColumn(bars, DefaultMaPeriods, p.maPeriod),
                       CheckResistanceWall(profile, cur, p.resistanceZonePct),
                       AccumulationCandles(bars, p.accumulationLookback, p.accumulationVolumeRatio),
                       TargetsOf(bars), AtrOrDefault(bars, cur))
  }

  /** The close `k` rows from the end (`iloc[-k]`) was below the MA there. */
  predicate BelowAt(closes: seq<real>, ma: seq<Option<real>>, k: nat)
    requires |ma| == |closes|
  {
    1 <= k <= |closes| && Lt(Some(closes[|closes| - k]), ma[|closes| - k])
  }

  /** `any(close.iloc[-(i+1)] < ma.iloc[-(i+1)] for i in range(1, min(4, len)))`: one of
      the three closes before the last was below the MA. */
  predicate RecentBelow(closes: seq<real>, ma: seq<Option<real>>)
    requires |ma| == |closes|
  {
    BelowAt(closes, ma, 2) || BelowAt(closes, ma, 3) || BelowAt(closes, ma, 4)
  }

  /** The MA gate: the history is long enough, the MA column exists with a last value, and
      the price is above it after closing at or below it the day before (`Crossed`), or
      after a close below it on one of the three days before. */
  predicate Crossed(d: BottomEscapeInputs)
    requires |d.closes| >= 2 && ColumnFits(d.ma, |d.closes|) && d.ma.Some?
  {
    var n := |d.closes|;
    d.closes[n - 1] > d.ma.value[n - 1].value && Le(Some(d.closes[n - 2]), d.ma.value[n - 2])
  }

  predicate BottomEscapeGate(d: BottomEscapeInputs)
    requires ColumnFits(d.ma, |d.closes|)
  {
    var n := |d.closes|;
    n >= 30 && d.ma.Some? &&
    (Crossed(d) || (d.closes[n - 1] > d.ma.value[n - 1].value && RecentBelow(d.closes, d.ma.value)))
  }

  function BottomEscapeEval(ticker: string, name: string, d: BottomEscapeInputs, p: BottomEscapeParams, mult: real): Signal
    requires ColumnFits(d.ma, |d.closes|)
  {
    var init := Initial(ticker, name, BottomEscape);
    var n := |d.closes|;
    if n < 30 then init
    else if !BottomEscapeGate(d) then init.(currentPrice := d.closes[n - 1])
    else
      var ma := d.ma.value[n - 1].value;
      BottomEscapeScored(init.(currentPrice := d.closes[n - 1],
                               reasons := [if Crossed(d) then MaBreakout(Trunc(ma)) else RecentMaBreakout(Trunc(ma))]),
                         d, mult)
  }

  /** Steps 2-4 of `check_bottom_escape` once the MA gate has passed. */
  function BottomEscapeScored(s0: Signal, d: BottomEscapeInputs, mult: real): Signal
    requires ColumnFits(d.ma, |d.closes|) && BottomEscapeGate(d)
  {
    var n := |d.closes|;
    var cur := d.closes[n - 1];
    var ma := d.ma.value[n - 1].value;
    var noWall := !d.wall.wall;
    var accum := |d.accumulation| > 0;
    var reasons := s0.reasons
                   + [if noWall then NoResistanceWall else ResistanceWallWarning(d.wall.ratioPct)]
                   + (if accum then [AccumulationSeen(|d.accumulation|, d.accumulation[0].multiple)] else []);
    var score := 40 + (if noWall then 30 else 10) + Weight(accum, 30);
    Scored(s0.(reasons := reasons), score, 60,
           PlanOf(RoundHalfEven(ma), RoundHalfEven(ma * 0.98), d.targets, cur, 1.07, 1.15, d.atr, mult),
           MinI(score, 100) >= 70 && noWall)
  }

  /** `check_bottom_escape`, building the signal step by step. */
  method CheckBottomEscape(ticker: string, name: string, d: BottomEscapeInputs, p: BottomEscapeParams, mult: real)
    returns (s: Signal)
    requires ColumnFits(d.ma, |d.closes|)
    ensures s == BottomEscapeEval(ticker, name, d, p, mult)
  {
    s := Initial(ticker, name, BottomEscape);
    var n := |d.closes|;
    if n < 30 {
      return;
    }
    var current := d.closes[n - 1];
    s := s.(currentPrice := current);
    if d.ma.None? {
      return;
    }
    var maToday := d.ma.value[n - 1].value;
    if Crossed(d) {
      s := s.(reasons := s.reasons + [MaBreakout(Trunc(maToday))]);
    } else {
      var recentBelow := RecentBelow(d.closes, d.ma.value);
      if current > maToday && recentBelow {
        s := s.(reasons := s.reasons + [RecentMaBreakout(Trunc(maToday))]);
      } else {
        return;
      }
    }
    s := ScoreBottomEscape(s, d, mult);
  }

  /** Steps 2-4 of `check_bottom_escape`: the wall and accumulation reasons, the score and the plan. */
  method ScoreBottomEscape(s0: Signal, d: BottomEscapeInputs, mult: real) returns (s: Signal)
    requires ColumnFits(d.ma, |d.closes|) && BottomEscapeGate(d)
    ensures s == BottomEscapeScored(s0, d, mult)
  {
    var n := |d.closes|;
    var current := d.closes[n - 1];
    var maToday := d.ma.value[n - 1].value;
    var breakout := true;
    s := s0;
    var noWall := !d.wall.wall;
    if noWall {
      s := s.(reasons := s.reasons + [NoResistanceWall]);
    } else {
      s := s.(reasons := s.reasons + [ResistanceWallWarning(d.wall.ratioPct)]);
    }
    var hasAccum := |d.accumulation| > 0;
    if hasAccum {
      s := s.(reasons := s.reasons + [AccumulationSeen(|d.accumulation|, d.accumulation[0].multiple)]);
    }
    var score := 0;
    if breakout {
      score := score + 40;
    }
    if noWall {
      score := score + 30;
    } else {
      score := score + 10;
    }
    if hasAccum {
      score := score + 30;
    }
    var plan := PlanOf(RoundHalfEven(maToday), RoundHalfEven(maToday * 0.98), d.targets, current, 1.07, 1.15, d.atr, mult);
    s := Finish(s, score, 60, plan, MinI(score, 100) >= 70 && noWall);
  }

  /** After the MA gate the score is 40 + (30 without a wall, 10 with one) + 30 for
      accumulation, so the signal triggers exactly when there is no wall or there is
      accumulation, and it is approved exactly when there is no wall. */
  lemma BottomEscapeDecision(ticker: string, name: string, d: BottomEscapeInputs, p: BottomEscapeParams, mult: real)
    requires ColumnFits(d.ma, |d.closes|)
    ensures var s := BottomEscapeEval(ticker, name, d, p, mult);
      var gate := BottomEscapeGate(d);
      var accum := |d.accumulation| > 0;
      Coherent(s) && s.ticker == ticker && s.name == name && s.strategy == BottomEscape &&
      (!gate ==> s.confidence == 0 && s.reasons == []) &&
      (gate ==> s.confidence == 40 + (if !d.wall.wall then 30 else 10) + Weight(accum, 30) &&
                |s.reasons| == 2 + Weight(accum, 1)) &&
      (s.triggered <==> gate && (!d.wall.wall || accum)) &&
      (s.verdict == Approve <==> gate && !d.wall.wall)
  {
    var n := |d.closes|;
    if !BottomEscapeGate(d) {
      InitialCoherent(ticker, name, BottomEscape, if n < 30 then 0.0 else d.closes[n - 1]);
    } else {
      var cur := d.closes[n - 1];
      var ma := d.ma.value[n - 1].value;
      var noWall := !d.wall.wall;
      var accum := |d.accumulation| > 0;
      var reasons := [if Crossed(d) then MaBreakout(Trunc(ma)) else RecentMaBreakout(Trunc(ma))]
                     + [if noWall then NoResistanceWall else ResistanceWallWarning(d.wall.ratioPct)]
                     + (if accum then [AccumulationSeen(|d.accumulation|, d.accumulation[0].multiple)] else []);
      var score := 40 + (if noWall then 30 else 10) + Weight(accum, 30);
      ScoredCoherent(Initial(ticker, name, BottomEscape).(currentPrice := cur, reasons := reasons), score,
                     PlanOf(RoundHalfEven(ma), RoundHalfEven(ma * 0.98), d.targets, cur, 1.07, 1.15, d.atr, mult),
                     MinI(score, 100) >= 70 && noWall);
    }
  }

  /** A triggered bottom escape closed above the MA and enters at the rounded MA and at 98%
      of it, the second never higher for a non-negative MA. */
  lemma BottomEscapeEntries(ticker: string, name: string, d: BottomEscapeInputs, p: BottomEscapeParams, mult: real)
    requires ColumnFits(d.ma, |d.closes|)
    requires BottomEscapeEval(ticker, name, d, p, mult).triggered
    ensures var s := BottomEscapeEval(ticker, name, d, p, mult);
      var n := |d.closes|;
      d.ma.Some? && n >= 30 &&
      var ma := d.ma.value[n - 1].value;
      s.entry1 == RoundHalfEven(ma) as real && s.entry2 == RoundHalfEven(ma * 0.98) as real &&
      (ma >= 0.0 ==> s.entry2 <= s.entry1) && d.closes[n - 1] > ma
  {
    BottomEscapeDecision(ticker, name, d, p, mult);
    var n := |d.closes|;
    var ma := d.ma.value[n - 1].value;
    if ma >= 0.0 {
      RoundMonotone(ma * 0.98, ma);
    }
  }

  // ---------------------------------------------------------------
  // 3. Golden cross (strategies.py:281-403)
  // ---------------------------------------------------------------

  /** What `check_golden_cross` reads: the row count and last close of the 100-day history,
      its short and long MA columns (if `add_all_ma` added them), the RSI series of the
      closes, the calculated targets and the ATR. */
  datatype GoldenCrossInputs = GoldenCrossInputs(
    rows: nat, current: real, short: Option<seq<Option<real>>>, long: Option<seq<Option<real>>>,
    rsi: seq<Option<real>>, targets: Targets, atr: real)

  /** Golden-cross inputs whose MA columns are columns of the frame. */
  predicate GoldenCrossShaped(d: GoldenCrossInputs)
  {
    ColumnFits(d.short, d.rows) && ColumnFits(d.long, d.rows)
  }

  /** `rsi` computes the RSI series of a close series with a period; it is not part of this
      model and is passed in. */
  function GoldenCrossInputsOf(bars: seq<Bar>, rsi: (seq<real>, nat) -> seq<Option<real>>, p: GoldenCrossParams)
    : (d: GoldenCrossInputs)
    ensures d.rows == |bars| && GoldenCrossShaped(d)
  {
    var cur := if |bars| > 0 then bars[|bars| - 1].close else 0.0;
    GoldenCrossInputs(|bars|, cur, MaColumn(bars, DefaultMaPeriods, p.shortMa), MaColumn(bars, DefaultMaPeriods, p.longMa),
                      rsi(Closes(bars), p.rsiPeriod), TargetsOf(bars), AtrOrDefault(bars, cur))
  }

  /** The short MA was below the long MA `i` rows before the last and at or above it one row
      later, with `i + 1` rows to spare (the body of the three-day search). */
  predicate CrossAt(short: seq<Option<real>>, long: seq<Option<real>>, i: nat)
    requires |short| == |long|
  {
    var n := |short|;
    1 <= i && n > i + 1 && Lt(short[n - 1 - i], long[n - 1 - i]) && Le(long[n - i], short[n - i])
  }

  /** `detect_cross` reports a golden cross, or the search finds one within three days. */
  predicate GoldenWithin3(short: seq<Option<real>>, long: seq<Option<real>>)
    requires |short| == |long|
  {
    DetectCross(short, long).golden || CrossAt(short, long, 1) || CrossAt(short, long, 2) || CrossAt(short, long, 3)
  }

  /** NaN-aware comparisons with a constant. */
  predicate AboveLevel(a: Option<real>, x: real) { a.Some? && a.value > x }
  predicate AtMostLevel(a: Option<real>, x: real) { a.Some? && a.value <= x }

  /** The evaluator's result, or the exception it raised. */
  datatype Outcome = Returned(signal: Signal) | Raised

  predicate GoldenCrossGate(d: GoldenCrossInputs)
    requires GoldenCrossShaped(d)
  {
    d.rows >= 30 && d.short.Some? && d.long.Some? && GoldenWithin3(d.short.value, d.long.value)
  }

  /** RSI yesterday, 50 for a one-element series. */
  function RsiYesterday(rsi: seq<Option<real>>): Option<real>
  {
    if |rsi| >= 2 then rsi[|rsi| - 2] else Some(50.0)
  }

  function SlopeOk(slope: Option<real>, min: real): bool
  {
    slope.Some? && slope.value >= min
  }

  /** RSI crossed the threshold today. */
  predicate RsiCrossesUp(rsi: seq<Option<real>>, threshold: real)
    requires |rsi| > 0
  {
    AboveLevel(rsi[|rsi| - 1], threshold) && AtMostLevel(RsiYesterday(rsi), threshold)
  }

  /** RSI is above the threshold and higher than yesterday. */
  predicate RsiAboveRising(rsi: seq<Option<real>>, threshold: real)
    requires |rsi| > 0
  {
    AboveLevel(rsi[|rsi| - 1], threshold) && Lt(RsiYesterday(rsi), rsi[|rsi| - 1])
  }

  function RsiPoints(rsi: seq<Option<real>>, threshold: real): int
    requires |rsi| > 0
  {
    if RsiCrossesUp(rsi, threshold) then 35 else if RsiAboveRising(rsi, threshold) then 20 else 0
  }

  /** Steps 2-4 once the cross is found: the slope and RSI reasons, the score, and the
      trigger, plan and verdict; an RSI series with no value raises. */
  function GoldenCrossScored(s0: Signal, d: GoldenCrossInputs, p: GoldenCrossParams, mult: real): Outcome
    requires d.long.Some? && ColumnFits(d.long, d.rows)
  {
    if |d.rsi| == 0 then Raised
    else
      var long := d.long.value;
      var slope := MaSlopeDegree(long, 5);
      var slopeOk := SlopeOk(slope, p.maSlopeMin);
      var today := d.rsi[|d.rsi| - 1];
      var reasons := s0.reasons
                     + [if slopeOk then SlopeHealthy(slope) else SlopeWarning(slope)]
                     + (if RsiCrossesUp(d.rsi, p.rsiThreshold) then [RsiCrossUp(today)]
                        else if RsiAboveRising(d.rsi, p.rsiThreshold) then [RsiRising(today)] else []);
      var score := 40 + (if slopeOk then 25 else 5) + RsiPoints(d.rsi, p.rsiThreshold);
      Returned(Scored(s0.(reasons := reasons), score, 65,
                      PlanOf(RoundHalfEven(d.current), RoundHalfEven(long[d.rows - 1].value), d.targets,
                             d.current, 1.07, 1.15, d.atr, mult),
                      MinI(score, 100) >= 75 && slopeOk))
  }

  function GoldenCrossEval(ticker: string, name: string, d: GoldenCrossInputs, p: GoldenCrossParams, mult: real): Outcome
    requires GoldenCrossShaped(d)
  {
    var init := Initial(ticker, name, GoldenCross);
    if d.rows < 30 then Returned(init)
    else if !GoldenCrossGate(d) then Returned(init.(currentPrice := d.current))
    else GoldenCrossScored(init.(currentPrice := d.current, reasons := [GoldenCrossSeen(p.shortMa, p.longMa)]), d, p, mult)
  }

  /** The search of the last three days for a cross `detect_cross` missed. */
  method RecentCross(short: seq<Option<real>>, long: seq<Option<real>>) returns (found: bool)
    requires |short| == |long|
    ensures found <==> CrossAt(short, long, 1) || CrossAt(short, long, 2) || CrossAt(short, long, 3)
  {
    var n := |short|;
    found := false;
    var i := 1;
    while i < 4
      invariant 1 <= i <= 4
      invariant !found
      invariant forall k :: 1 <= k < i ==> !CrossAt(short, long, k)
    {
      if n > i + 1 {
        var prevShort, prevLong := short[n - 1 - i], long[n - 1 - i];
        var currShort, currLong := short[n - i], long[n - i];
        if Lt(prevShort, prevLong) && Le(currLong, currShort) {
          found := true;
          assert CrossAt(short, long, i);
          break;
        }
      }
      i := i + 1;
    }
  }

  /** `check_golden_cross`. */
  method CheckGoldenCross(ticker: string, name: string, d: GoldenCrossInputs, p: GoldenCrossParams, mult: real)
    returns (o: Outcome)
    requires GoldenCrossShaped(d)
    ensures o == GoldenCrossEval(ticker, name, d, p, mult)
  {
    var s := Initial(ticker, name, GoldenCross);
    if d.rows < 30 {
      return Returned(s);
    }
    var n := d.rows;
    s := s.(currentPrice := d.current);
    if d.short.None? || d.long.None? {
      return Returned(s);
    }
    var short, long := d.short.value, d.long.value;
    var isGolden := DetectCross(short, long).golden;
    if !isGolden {
      isGolden := RecentCross(short, long);
    }
    if isGolden {
      s := s.(reasons := s.reasons + [GoldenCrossSeen(p.shortMa, p.longMa)]);
    } else {
      return Returned(s);
    }
    o := ScoreGoldenCross(s, d, p, mult);
  }

  /** Steps 2-4 of `check_golden_cross` once the cross is found. */
  method ScoreGoldenCross(s0: Signal, d: GoldenCrossInputs, p: GoldenCrossParams, mult: real) returns (o: Outcome)
    requires d.long.Some? && ColumnFits(d.long, d.rows)
    ensures o == GoldenCrossScored(s0, d, p, mult)
  {
    var s := s0;
    var long := d.long.value;
    var slope := MaSlopeDegree(long, 5);
    var slopeOk := SlopeOk(slope, p.maSlopeMin);
    if slopeOk {
      s := s.(reasons := s.reasons + [SlopeHealthy(slope)]);
    } else {
      s := s.(reasons := s.reasons + [SlopeWarning(slope)]);
    }
    if |d.rsi| == 0 {
      return Raised;
    }
    var rsiToday := d.rsi[|d.rsi| - 1];
    var rsiCrossUp := RsiCrossesUp(d.rsi, p.rsiThreshold);
    var rsiAboveRising := RsiAboveRising(d.rsi, p.rsiThreshold);
    if rsiCrossUp {
      s := s.(reasons := s.reasons + [RsiCrossUp(rsiToday)]);
    } else if rsiAboveRising {
      s := s.(reasons := s.reasons + [RsiRising(rsiToday)]);
    }
    var score := 0;
    score := score + 40;
    if slopeOk {
      score := score + 25;
    } else {
      score := score + 5;
    }
    if rsiCrossUp {
      score := score + 35;
    } else if rsiAboveRising {
      score := score + 20;
    }
    var plan := PlanOf(RoundHalfEven(d.current), RoundHalfEven(long[d.rows - 1].value), d.targets, d.current, 1.07, 1.15, d.atr, mult);
    s := Finish(s, score, 65, plan, MinI(score, 100) >= 75 && slopeOk);
    return Returned(s);
  }

  /** Given a third row, the cross `detect_cross` tests is the one-day-back case of the
      three-day search, so the gate is exactly a cross completing on one of the last three
      rows. */
  lemma GoldenWithin3Means(short: seq<Option<real>>, long: seq<Option<real>>)
    requires |short| == |long| >= 3
    ensures DetectCross(short, long).golden <==> CrossAt(short, long, 1)
    ensures GoldenWithin3(short, long) <==> CrossAt(short, long, 1) || CrossAt(short, long, 2) || CrossAt(short, long, 3)
  {
    var n := |short|;
    assert n - 1 - 1 == n - 2 && n - 1 == n - 1;
  }

  /** Once the cross is found the score is 40 + (25 for a slope at or above the minimum,
      else 5) + (35 for an RSI cross of the threshold, else 20 for RSI above it and rising):
      the signal triggers exactly when the slope is fine or RSI helps, and it is approved
      exactly when both hold. An RSI series with no value makes the evaluator raise. */
  lemma GoldenCrossDecision(ticker: string, name: string, d: GoldenCrossInputs, p: GoldenCrossParams, mult: real)
    requires GoldenCrossShaped(d)
    ensures var o := GoldenCrossEval(ticker, name, d, p, mult);
      var gate := GoldenCrossGate(d);
      (o.Raised? <==> gate && |d.rsi| == 0) &&
      (o.Returned? ==>
        var s := o.signal;
        var slopeOk := gate && SlopeOk(MaSlopeDegree(d.long.value, 5), p.maSlopeMin);
        var rsiHelps := gate && RsiPoints(d.rsi, p.rsiThreshold) > 0;
        Coherent(s) && s.ticker == ticker && s.name == name && s.strategy == GoldenCross &&
        (!gate ==> s.confidence == 0 && s.reasons == []) &&
        (gate ==> s.confidence == 40 + (if slopeOk then 25 else 5) + RsiPoints(d.rsi, p.rsiThreshold)) &&
        (s.triggered <==> gate && (slopeOk || rsiHelps)) &&
        (s.verdict == Approve <==> slopeOk && rsiHelps))
  {
    if !GoldenCrossGate(d) {
      InitialCoherent(ticker, name, GoldenCross, if d.rows < 30 then 0.0 else d.current);
    } else if |d.rsi| > 0 {
      var long := d.long.value;
      var slope := MaSlopeDegree(long, 5);
      var slopeOk := SlopeOk(slope, p.maSlopeMin);
      var today := d.rsi[|d.rsi| - 1];
      var reasons := [GoldenCrossSeen(p.shortMa, p.longMa)]
                     + [if slopeOk then SlopeHealthy(slope) else SlopeWarning(slope)]
                     + (if RsiCrossesUp(d.rsi, p.rsiThreshold) then [RsiCrossUp(today)]
                        else if RsiAboveRising(d.rsi, p.rsiThreshold) then [RsiRising(today)] else []);
      var score := 40 + (if slopeOk then 25 else 5) + RsiPoints(d.rsi, p.rsiThreshold);
      ScoredCoherent(Initial(ticker, name, GoldenCross).(currentPrice := d.current, reasons := reasons), score,
                     PlanOf(RoundHalfEven(d.current), RoundHalfEven(long[d.rows - 1].value), d.targets,
                            d.current, 1.07, 1.15, d.atr, mult),
                     MinI(score, 100) >= 75 && slopeOk);
    }
  }

  /** A triggered golden cross buys first at the rounded price and second at the rounded
      long MA. */
  lemma GoldenCrossEntries(ticker: string, name: string, d: GoldenCrossInputs, p: GoldenCrossParams, mult: real)
    requires GoldenCrossShaped(d)
    requires GoldenCrossEval(ticker, name, d, p, mult).Returned? && GoldenCrossEval(ticker, name, d, p, mult).signal.triggered
    ensures var s := GoldenCrossEval(ticker, name, d, p, mult).signal;
      d.long.Some? && d.rows >= 30 &&
      s.entry1 == RoundHalfEven(d.current) as real && s.entry2 == RoundHalfEven(d.long.value[d.rows - 1].value) as real &&
      (d.atr >= 0.0 && mult >= 0.0 ==> s.stopLoss <= s.entry1)
  {
    GoldenCrossDecision(ticker, name, d, p, mult);
    var long := d.long.value;
    var slope := MaSlopeDegree(long, 5);
    var slopeOk := SlopeOk(slope, p.maSlopeMin);
    var today := d.rsi[|d.rsi| - 1];
    var reasons := [GoldenCrossSeen(p.shortMa, p.longMa)]
                   + [if slopeOk then SlopeHealthy(slope) else SlopeWarning(slope)]
                   + (if RsiCrossesUp(d.rsi, p.rsiThreshold) then [RsiCrossUp(today)]
                      else if RsiAboveRising(d.rsi, p.rsiThreshold) then [RsiRising(today)] else []);
    var score := 40 + (if slopeOk then 25 else 5) + RsiPoints(d.rsi, p.rsiThreshold);
    var plan := PlanOf(RoundHalfEven(d.current), RoundHalfEven(long[d.rows - 1].value), d.targets,
                       d.current, 1.07, 1.15, d.atr, mult);
    ScoredCoherent(Initial(ticker, name, GoldenCross).(currentPrice := d.current, reasons := reasons), score,
                   plan, MinI(score, 100) >= 75 && slopeOk);
    if d.atr >= 0.0 && mult >= 0.0 {
      PlanStopBelowEntry(RoundHalfEven(d.current), RoundHalfEven(long[d.rows - 1].value), d.targets,
                         d.current, 1.07, 1.15, d.atr, mult);
    }
  }

  // ---------------------------------------------------------------
  // 4. Box breakout (strategies.py:408-518)
  // ---------------------------------------------------------------

  /** What `check_breakout` reads: the row count and last close of the 120-day history,
      the box of `detect_box_range`, the 매도매수비율 of a non-empty order-book answer (0
      when the key is missing), the 프로그램순매수 of a non-empty program-trading answer
      (0 when missing), the last volume and the 20-row mean volume, and the ATR. */
  datatype BreakoutInputs = BreakoutInputs(
    rows: nat, current: real, box: Option<Box>, orderbookRatio: Option<real>, programNetBuy: Option<int>,
    lastVolume: real, avgVolume: real, atr: real)

  function BreakoutInputsOf(bars: seq<Bar>, orderbookRatio: Option<real>, programNetBuy: Option<int>, p: BreakoutParams)
    : (d: BreakoutInputs)
    requires p.boxLookback >= 1
    ensures d.rows == |bars|
  {
    var cur := if |bars| > 0 then bars[|bars| - 1].close else 0.0;
    BreakoutInputs(|bars|, cur, DetectBoxRange(bars, p.boxLookback, 0.05), orderbookRatio, programNetBuy,
                   if |bars| > 0 then bars[|bars| - 1].volume else 0.0,
                   if |bars| > 0 then Mean(Volumes(Tail(bars, 20))) else 0.0,
                   AtrOrDefault(bars, cur))
  }

  /** Last volume over the mean volume, the mean floored at 1. */
  function SurgeRatio(d: BreakoutInputs): real
  {
    d.lastVolume / MaxR(d.avgVolume, 1.0)
  }

  predicate AskBidOk(ratio: Option<real>, required: real)
  {
    ratio.Some? && ratio.value >= required
  }

  predicate ProgramOk(net: Option<int>)
  {
    net.Some? && net.value > 0
  }

  /** Breakout entries sit at the box top and 1% above it, the targets half a box and a
      full box above it, and the stop is the higher of the ATR stop and the box bottom. */
  function BoxPlan(box: Box, atr: real, mult: real): Plan
  {
    var e1 := RoundHalfEven(box.top);
    var h := box.top - box.bottom;
    Plan(e1, RoundHalfEven(box.top * 1.01),
         RoundHalfEven(box.top + h * 0.5) as real, RoundHalfEven(box.top + h) as real,
         MaxR(CalcStopLoss(e1, atr, mult).stop as real, box.bottom))
  }

  predicate BreakoutGate(d: BreakoutInputs)
  {
    d.rows >= 30 && d.box.Some? && (d.box.value.breakout || d.box.value.nearTop)
  }

  function OrderbookReasons(ratio: Option<real>, required: real): seq<Reason>
  {
    if ratio.None? then []
    else if AskBidOk(ratio, required) then [StrongAskBid(ratio.value)]
    else [WeakAskBid(ratio.value, required)]
  }

  /** The breakout score: 35 above the top or 15 near it, plus 25, 20 and 20 for the three
      confirmations. */
  function BreakoutScore(d: BreakoutInputs, p: BreakoutParams): int
    requires d.box.Some?
  {
    (if d.box.value.breakout then 35 else 15) + Weight(AskBidOk(d.orderbookRatio, p.askBidRatio), 25) +
    Weight(ProgramOk(d.programNetBuy), 20) + Weight(SurgeRatio(d) >= p.volumeSurgeRatio, 20)
  }

  /** Steps 2-5 once the price is at the box top: the order-book, program and volume
      reasons, the score, and the trigger, plan and verdict. */
  function BreakoutScored(s0: Signal, d: BreakoutInputs, p: BreakoutParams, mult: real): Signal
    requires d.box.Some?
  {
    var score := BreakoutScore(d, p);
    Scored(s0.(reasons := s0.reasons + ConfirmationReasons(d, p)), score, 55, BoxPlan(d.box.value, d.atr, mult),
           d.box.value.breakout && MinI(score, 100) >= 70)
  }

  /** The reasons of the order-book, program and volume checks, in that order. */
  function ConfirmationReasons(d: BreakoutInputs, p: BreakoutParams): seq<Reason>
  {
    OrderbookReasons(d.orderbookRatio, p.askBidRatio)
    + (if ProgramOk(d.programNetBuy) then [ProgramInflow(d.programNetBuy.value)] else [])
    + (if SurgeRatio(d) >= p.volumeSurgeRatio then [VolumeSurge(SurgeRatio(d))] else [])
  }

  function BreakoutEval(ticker: string, name: string, d: BreakoutInputs, p: BreakoutParams, mult: real): Signal
  {
    var init := Initial(ticker, name, Breakout);
    if d.rows < 30 then init
    else if !BreakoutGate(d) then init.(currentPrice := d.current)
    else
      var b := d.box.value;
      BreakoutScored(init.(currentPrice := d.current,
                           reasons := [if b.breakout then BoxTopBreakout(Trunc(b.top)) else BoxTopNear(Trunc(b.top))]),
                     d, p, mult)
  }

  /** `check_breakout`, building the signal step by step. */
  method CheckBreakout(ticker: string, name: string, d: BreakoutInputs, p: BreakoutParams, mult: real)
    returns (s: Signal)
    ensures s == BreakoutEval(ticker, name, d, p, mult)
  {
    s := Initial(ticker, name, Breakout);
    if d.rows < 30 {
      return;
    }
    s := s.(currentPrice := d.current);
    if d.box.None? {
      return;
    }
    var box := d.box.value;
    if box.breakout {
      s := s.(reasons := s.reasons + [BoxTopBreakout(Trunc(box.top))]);
    } else if box.nearTop {
      s := s.(reasons := s.reasons + [BoxTopNear(Trunc(box.top))]);
    } else {
      return;
    }
    ghost var init := Initial(ticker, name, Breakout);
    assert s == init.(currentPrice := d.current,
                      reasons := [if box.breakout then BoxTopBreakout(Trunc(box.top)) else BoxTopNear(Trunc(box.top))]);
    s := ScoreBreakout(s, d, p, mult);
  }

  /** Steps 2-5 of `check_breakout` once the price is at the box top. */
  method ScoreBreakout(s0: Signal, d: BreakoutInputs, p: BreakoutParams, mult: real) returns (s: Signal)
    requires d.box.Some? && (d.box.value.breakout || d.box.value.nearTop)
    ensures s == BreakoutScored(s0, d, p, mult)
  {
    var box := d.box.value;
    var reasons := s0.reasons;
    var askBidOk := false;
    if d.orderbookRatio.Some? {
      var ratio := d.orderbookRatio.value;
      askBidOk := AskBidOk(d.orderbookRatio, p.askBidRatio);
      if askBidOk {
        reasons := reasons + [StrongAskBid(ratio)];
      } else {
        reasons := reasons + [WeakAskBid(ratio, p.askBidRatio)];
      }
    }
    var progAccel := false;
    if d.programNetBuy.Some? {
      var netBuy := d.programNetBuy.value;
      progAccel := ProgramOk(d.programNetBuy);
      if progAccel {
        reasons := reasons + [ProgramInflow(netBuy)];
      }
    }
    var volSurge := SurgeRatio(d);
    if volSurge >= p.volumeSurgeRatio {
      reasons := reasons + [VolumeSurge(volSurge)];
    }
    assert reasons == s0.reasons + ConfirmationReasons(d, p);
    var score := 0;
    if box.breakout {
      score := score + 35;
    } else if box.nearTop {
      score := score + 15;
    }
    if askBidOk {
      score := score + 25;
    }
    if progAccel {
      score := score + 20;
    }
    if volSurge >= p.volumeSurgeRatio {
      score := score + 20;
    }
    assert score == BreakoutScore(d, p);
    s := Finish(s0.(reasons := reasons), score, 55, BoxPlan(box, d.atr, mult), box.breakout && MinI(score, 100) >= 70);
  }

  /** Number of the three confirmations (order book, program buying, volume surge) present. */
  function Confirmations(d: BreakoutInputs, p: BreakoutParams): nat
  {
    Weight(AskBidOk(d.orderbookRatio, p.askBidRatio), 1) + Weight(ProgramOk(d.programNetBuy), 1) +
    Weight(SurgeRatio(d) >= p.volumeSurgeRatio, 1)
  }

  /** Past the gate the confidence is the breakout score, the signal triggers at 55 and it
      is approved when the price broke out with a confidence of at least 70. */
  lemma BreakoutScoring(ticker: string, name: string, d: BreakoutInputs, p: BreakoutParams, mult: real)
    ensures var s := BreakoutEval(ticker, name, d, p, mult);
      Coherent(s) && s.ticker == ticker && s.name == name && s.strategy == Breakout &&
      (!BreakoutGate(d) ==> s.confidence == 0 && s.reasons == []) &&
      (BreakoutGate(d) ==> s.confidence == BreakoutScore(d, p) && (s.triggered <==> BreakoutScore(d, p) >= 55) &&
                           (s.verdict == Approve <==> d.box.value.breakout && BreakoutScore(d, p) >= 70) &&
                           (s.triggered ==> s.entry1 == RoundHalfEven(d.box.value.top) as real &&
                                            s.target1 == BoxPlan(d.box.value, d.atr, mult).target1 &&
                                            s.target2 == BoxPlan(d.box.value, d.atr, mult).target2 &&
                                            s.stopLoss == BoxPlan(d.box.value, d.atr, mult).stop))
  {
    if !BreakoutGate(d) {
      InitialCoherent(ticker, name, Breakout, if d.rows < 30 then 0.0 else d.current);
    } else {
      var b := d.box.value;
      var s0 := Initial(ticker, name, Breakout).(currentPrice := d.current,
                  reasons := [if b.breakout then BoxTopBreakout(Trunc(b.top)) else BoxTopNear(Trunc(b.top))]);
      var score := BreakoutScore(d, p);
      ScoredCoherent(s0.(reasons := s0.reasons + ConfirmationReasons(d, p)), score, BoxPlan(b, d.atr, mult), b.breakout && MinI(score, 100) >= 70);
    }
  }

  /** The score rule in terms of confirmations: above the top one confirmation reaches 55
      and two reach 70; near the top 55 needs two of them. */
  lemma ConfirmationRule(up: bool, ask: bool, prog: bool, surge: bool)
    ensures var score := (if up then 35 else 15) + Weight(ask, 25) + Weight(prog, 20) + Weight(surge, 20);
      var c := Weight(ask, 1) + Weight(prog, 1) + Weight(surge, 1);
      (up ==> (score >= 55 <==> c >= 1) && (score >= 70 <==> c >= 2)) &&
      (!up ==> (score >= 55 <==> c >= 2))
  {
  }

  /** A breakout above the box top triggers with one confirmation and is approved with two; a
      close merely near the top needs two confirmations and is never approved. */
  lemma BreakoutDecision(ticker: string, name: string, d: BreakoutInputs, p: BreakoutParams, mult: real)
    ensures var s := BreakoutEval(ticker, name, d, p, mult);
      var up := BreakoutGate(d) && d.box.value.breakout;
      var near := BreakoutGate(d) && !d.box.value.breakout;
      var c := Confirmations(d, p);
      (up ==> (s.triggered <==> c >= 1) && (s.verdict == Approve <==> c >= 2)) &&
      (near ==> s.verdict == Watch && (s.triggered <==> c >= 2))
  {
    BreakoutScoring(ticker, name, d, p, mult);
    if BreakoutGate(d) {
      ConfirmationRule(d.box.value.breakout, AskBidOk(d.orderbookRatio, p.askBidRatio), ProgramOk(d.programNetBuy),
                       SurgeRatio(d) >= p.volumeSurgeRatio);
    }
  }

  /** A triggered breakout enters at the rounded box top, its stop is at least the box
      bottom, and for a box whose top is not below its bottom the targets are ordered above
      the entry. */
  lemma BreakoutPlanOrder(ticker: string, name: string, d: BreakoutInputs, p: BreakoutParams, mult: real)
    requires BreakoutEval(ticker, name, d, p, mult).triggered
    ensures var s := BreakoutEval(ticker, name, d, p, mult);
      d.box.Some? &&
      var box := d.box.value;
      s.stopLoss >= box.bottom && s.entry1 == RoundHalfEven(box.top) as real &&
      (box.top >= box.bottom ==> s.entry1 <= s.target1 <= s.target2)
  {
    BreakoutScoring(ticker, name, d, p, mult);
    assert BreakoutGate(d);
    BoxPlanOrder(d.box.value, d.atr, mult);
  }

  /** The box plan enters at the rounded top, stops no lower than the bottom, and for a box
      whose top is not below its bottom puts its targets above the entry, in order. */
  lemma BoxPlanOrder(box: Box, atr: real, mult: real)
    ensures var plan := BoxPlan(box, atr, mult);
      plan.stop >= box.bottom && plan.entry1 == RoundHalfEven(box.top) &&
      (box.top >= box.bottom ==> plan.entry1 as real <= plan.target1 <= plan.target2)
  {
    var plan := BoxPlan(box, atr, mult);
    var h := box.top - box.bottom;
    if h >= 0.0 {
      var mid, high := box.top + h * 0.5, box.top + h;
      assert box.top <= mid <= high;
      RoundMonotone(mid, high);
      RoundMonotone(box.top, mid);
      assert plan.target1 == RoundHalfEven(mid) as real && plan.target2 == RoundHalfEven(high) as real;
    }
  }

  /** For well-formed bars the box breakout flag never rises (the last bar is inside the
      window), so a breakout signal gathered from the collector's history is never
      approved. */
  lemma BreakoutNeverApproved(ticker: string, name: string, bars: seq<Bar>, orderbookRatio: Option<real>,
                              programNetBuy: Option<int>, p: BreakoutParams, mult: real)
    requires p.boxLookback >= 1
    requires |bars| >= 1 && bars[|bars| - 1].close <= bars[|bars| - 1].high
    ensures BreakoutEval(ticker, name, BreakoutInputsOf(bars, orderbookRatio, programNetBuy, p), p, mult).verdict == Watch
  {
    var d := BreakoutInputsOf(bars, orderbookRatio, programNetBuy, p);
    BreakoutScoring(ticker, name, d, p, mult);
    if p.boxLookback <= |bars| {
      BoxBreakoutUnreachable(bars, p.boxLookback, 0.05);
    }
  }

  /** The inputs of `check_breakout` with the box taken over the bars before the last one. */
  function BreakoutInputsPrior(bars: seq<Bar>, orderbookRatio: Option<real>, programNetBuy: Option<int>, p: BreakoutParams)
    : BreakoutInputs
    requires p.boxLookback >= 1
  {
    BreakoutInputsOf(bars, orderbookRatio, programNetBuy, p).(box := DetectPriorBox(bars, p.boxLookback, 0.05))
  }

  /** With the box over the prior bars, a history of at least 30 bars is approved exactly
      when its last close clears the high of every bar of the box window and the score
      reaches 70. */
  lemma PriorBreakoutApproved(ticker: string, name: string, bars: seq<Bar>, orderbookRatio: Option<real>,
                              programNetBuy: Option<int>, p: BreakoutParams, mult: real)
    requires 1 <= p.boxLookback < |bars| && |bars| >= 30
    ensures var d := BreakoutInputsPrior(bars, orderbookRatio, programNetBuy, p);
      d.box.Some? &&
      (BreakoutEval(ticker, name, d, p, mult).verdict == Approve <==>
        (forall i :: |bars| - 1 - p.boxLookback <= i < |bars| - 1 ==> bars[i].high < bars[|bars| - 1].close) &&
        BreakoutScore(d, p) >= 70)
  {
    var d := BreakoutInputsPrior(bars, orderbookRatio, programNetBuy, p);
    PriorBoxBreakout(bars, p.boxLookback, 0.05);
    BreakoutScoring(ticker, name, d, p, mult);
  }

  // ---------------------------------------------------------------
  // 5. Early alignment: MA convergence then divergence (strategies.py:523-617)
  // ---------------------------------------------------------------

  /** What `check_convergence` reads: the row count and last close of the 200-day history,
      the `ma_convergence` result over the configured MAs, the closes of the market index,
      the calculated targets and the ATR. */
  datatype AlignmentInputs = AlignmentInputs(
    rows: nat, current: real, conv: Convergence, indexCloses: seq<real>, targets: Targets, atr: real)

  predicate ValidConvergenceParams(p: ConvergenceParams)
  {
    |p.maPeriods| > 0 && forall i :: 0 <= i < |p.maPeriods| ==> p.maPeriods[i] >= 1
  }

  function AlignmentInputsOf(bars: seq<Bar>, indexCloses: seq<real>, p: ConvergenceParams): (d: AlignmentInputs)
    requires ValidConvergenceParams(p)
    ensures d.rows == |bars|
  {
    var cur := if |bars| > 0 then bars[|bars| - 1].close else 0.0;
    AlignmentInputs(|bars|, cur, ConvergenceOf(MaMap(bars, p.maPeriods), |bars|, p.maPeriods, p.convergencePct),
                    indexCloses, TargetsOf(bars), AtrOrDefault(bars, cur))
  }

  /** 15 when the index has a 5-day mean and its last close is above it, else 0. */
  function IndexBonus(closes: seq<real>): int
  {
    if |closes| >= 5 && closes[|closes| - 1] > Mean(closes[|closes| - 5..]) then 15 else 0
  }

  /** Not converged but a non-zero spread within 1.5 times the threshold (in percent). */
  predicate NearConvergence(c: Convergence, pct: real)
  {
    c.spreadPct.Some? && c.spreadPct.value != 0.0 && c.spreadPct.value <= pct * 100.0 * 1.5
  }

  predicate AlignmentGate(d: AlignmentInputs, p: ConvergenceParams)
  {
    d.rows >= 120 && (d.conv.converged || NearConvergence(d.conv, p.convergencePct))
  }

  function MaValueOr(mv: map<nat, real>, period: nat, fallback: real): real
  {
    if period in mv then mv[period] else fallback
  }

  /** Entry at the price and at MA20, stop the higher of the ATR stop and 97% of MA120. */
  function AlignmentPlan(d: AlignmentInputs, mult: real): Plan
  {
    var mv := d.conv.maValues;
    var e1 := RoundHalfEven(d.current);
    var ma120 := MaValueOr(mv, 120, d.current * 0.95);
    Plan(e1, RoundHalfEven(MaValueOr(mv, 20, d.current * 0.98)),
         TargetOr(d.targets.target1, d.current * 1.08), TargetOr(d.targets.target2, d.current * 1.15),
         MaxR(CalcStopLoss(e1, d.atr, mult).stop as real, RoundHalfEven(ma120 * 0.97) as real))
  }

  /** (30 converged | 15 near) + 25 aligned + 30 diverging + the index bonus. */
  function AlignmentScore(d: AlignmentInputs): int
  {
    (if d.conv.converged then 30 else 15) + Weight(d.conv.aligned, 25) + Weight(d.conv.diverging, 30) +
    IndexBonus(d.indexCloses)
  }

  /** The reason naming the convergence, then those of the alignment, divergence and index checks. */
  function AlignmentReasons(d: AlignmentInputs): seq<Reason>
  {
    [if d.conv.converged then MasConverged(d.conv.spreadPct) else MasNearConvergence(d.conv.spreadPct)]
    + AlignmentConfirmations(d)
  }

  function AlignmentConfirmations(d: AlignmentInputs): seq<Reason>
  {
    (if d.conv.aligned then [MasAligned] else [])
    + (if d.conv.diverging then [MasDiverging] else [])
    + (if IndexBonus(d.indexCloses) > 0 then [MarketAboveMa5] else [])
  }

  /** Steps 2-5 applied to a signal that already names the convergence. */
  function AlignmentScored(s0: Signal, d: AlignmentInputs, mult: real): Signal
  {
    var score := AlignmentScore(d);
    Scored(s0.(reasons := s0.reasons + AlignmentConfirmations(d)), score, 55, AlignmentPlan(d, mult),
           MinI(score, 100) >= 70 && d.conv.aligned && d.conv.diverging)
  }

  function AlignmentEval(ticker: string, name: string, d: AlignmentInputs, p: ConvergenceParams, mult: real): Signal
  {
    var init := Initial(ticker, name, EarlyAlignment);
    if d.rows < 120 then init
    else if !AlignmentGate(d, p) then init.(currentPrice := d.current)
    else
      AlignmentScored(init.(currentPrice := d.current,
                            reasons := [if d.conv.converged then MasConverged(d.conv.spreadPct)
                                        else MasNearConvergence(d.conv.spreadPct)]), d, mult)
  }

  /** `check_convergence`, building the signal step by step. */
  method CheckConvergence(ticker: string, name: string, d: AlignmentInputs, p: ConvergenceParams, mult: real)
    returns (s: Signal)
    ensures s == AlignmentEval(ticker, name, d, p, mult)
  {
    s := Initial(ticker, name, EarlyAlignment);
    if d.rows < 120 {
      return;
    }
    s := s.(currentPrice := d.current);
    var conv := d.conv;
    if conv.converged {
      s := s.(reasons := s.reasons + [MasConverged(conv.spreadPct)]);
    } else if NearConvergence(conv, p.convergencePct) {
      s := s.(reasons := s.reasons + [MasNearConvergence(conv.spreadPct)]);
    } else {
      return;
    }
    s := ScoreAlignment(s, d, p, mult);
  }

  /** Steps 2-5 of `check_convergence` once the moving averages are (nearly) converged. */
  method ScoreAlignment(s0: Signal, d: AlignmentInputs, p: ConvergenceParams, mult: real) returns (s: Signal)
    requires d.conv.converged || NearConvergence(d.conv, p.convergencePct)
    ensures s == AlignmentScored(s0, d, mult)
  {
    var conv := d.conv;
    var reasons := s0.reasons;
    if conv.aligned {
      reasons := reasons + [MasAligned];
    }
    if conv.diverging {
      reasons := reasons + [MasDiverging];
    }
    var sectorBonus := 0;
    var idx := d.indexCloses;
    if |idx| >= 5 {
      var aboveMa5 := idx[|idx| - 1] > Mean(idx[|idx| - 5..]);
      if aboveMa5 {
        sectorBonus := 15;
        reasons := reasons + [MarketAboveMa5];
      }
    }
    assert sectorBonus == IndexBonus(idx);
    assert reasons == s0.reasons + AlignmentConfirmations(d);
    var score := 0;
    if conv.converged {
      score := score + 30;
    } else if NearConvergence(conv, p.convergencePct) {
      score := score + 15;
    }
    if conv.aligned {
      score := score + 25;
    }
    if conv.diverging {
      score := score + 30;
    }
    score := score + sectorBonus;
    assert score == AlignmentScore(d);
    s := Finish(s0.(reasons := reasons), score, 55, AlignmentPlan(d, mult),
                MinI(score, 100) >= 70 && conv.aligned && conv.diverging);
  }

  /** After the convergence gate the score is (30 converged | 15 near) + 25 aligned + 30
      diverging + 15 for the index above its MA5; the signal triggers at 55, approval needs
      alignment and divergence, and a triggered signal's stop is never below
      round(0.97 * MA120). */
  lemma AlignmentDecision(ticker: string, name: string, d: AlignmentInputs, p: ConvergenceParams, mult: real)
    ensures var s := AlignmentEval(ticker, name, d, p, mult);
      var gate := AlignmentGate(d, p);
      Coherent(s) && s.ticker == ticker && s.name == name && s.strategy == EarlyAlignment &&
      (!gate ==> s.confidence == 0 && s.reasons == []) &&
      (gate ==> s.confidence == AlignmentScore(d) && s.reasons == AlignmentReasons(d)) &&
      (s.triggered <==> gate && AlignmentScore(d) >= 55) &&
      (s.verdict == Approve <==> gate && d.conv.aligned && d.conv.diverging) &&
      (s.triggered ==> s.stopLoss >= RoundHalfEven(MaValueOr(d.conv.maValues, 120, d.current * 0.95) * 0.97) as real)
  {
    if !AlignmentGate(d, p) {
      InitialCoherent(ticker, name, EarlyAlignment, if d.rows < 120 then 0.0 else d.current);
    } else {
      var score := AlignmentScore(d);
      assert 15 <= score <= 100;
      ScoredCoherent(Initial(ticker, name, EarlyAlignment).(currentPrice := d.current, reasons := AlignmentReasons(d)),
                     score, AlignmentPlan(d, mult), MinI(score, 100) >= 70 && d.conv.aligned && d.conv.diverging);
    }
  }

  /** An aligned and diverging set of MAs past the gate always triggers: 15 + 25 + 30 is
      already 70, so such a signal is approved. */
  lemma AlignedDivergingApproved(ticker: string, name: string, d: AlignmentInputs, p: ConvergenceParams, mult: real)
    requires AlignmentGate(d, p) && d.conv.aligned && d.conv.diverging
    ensures AlignmentEval(ticker, name, d, p, mult).triggered
    ensures AlignmentEval(ticker, name, d, p, mult).verdict == Approve
  {
    AlignmentDecision(ticker, name, d, p, mult);
  }

  // ---------------------------------------------------------------
  // 6. The engine: scan_all_strategies and get_best_signal (strategies.py:620-647)
  // ---------------------------------------------------------------

  /** What the collector answers about one ticker: its name, its daily history for a number
      of days, the institution column of its investor data (when present), its 60-day volume
      profile, the RSI series it computes, its order-book ratio and program net buying, and
      the closes of the KOSPI index over 30 days. */
  datatype Market = Market(
    name: string, ohlcv: nat -> seq<Bar>, institution: Option<seq<real>>, volumeProfile: seq<ProfileBin>,
    rsi: (seq<real>, nat) -> seq<Option<real>>, orderbookRatio: Option<real>, programNetBuy: Option<int>,
    indexCloses: seq<real>)

  /** The parameters the evaluators need to be well defined: look-backs of at least one row
      and a non-empty list of positive MA periods. */
  predicate ValidStrategyConfig(cfg: StrategyConfig)
  {
    cfg.pullback.referenceCandleLookback >= 1 && cfg.breakout.boxLookback >= 1 &&
    ValidConvergenceParams(cfg.convergence)
  }

  lemma DefaultStrategyConfigValid()
    ensures ValidStrategyConfig(DefaultStrategyConfig)
  {
    var periods := DefaultStrategyConfig.convergence.maPeriods;
    assert periods == [5, 20, 60, 120];
    assert forall i :: 0 <= i < |periods| ==> periods[i] >= 1;
  }

  /** The sub-check results each evaluator reads for one ticker. */
  datatype Readings = Readings(
    pullback: PullbackInputs, bottomEscape: BottomEscapeInputs, goldenCross: GoldenCrossInputs,
    breakout: BreakoutInputs, alignment: AlignmentInputs)

  /** The MA columns the bottom-escape and golden-cross checks index have one value per row. */
  predicate Shaped(r: Readings)
  {
    ColumnFits(r.bottomEscape.ma, |r.bottomEscape.closes|) && GoldenCrossShaped(r.goldenCross)
  }

  /** What each `check_*` reads: 100 days of history for the first three, 120 for the
      breakout and 200 for the early alignment, with the collector's other answers. */
  function ReadingsOf(m: Market, cfg: StrategyConfig): (r: Readings)
    requires ValidStrategyConfig(cfg)
    ensures Shaped(r)
    ensures r.pullback.rows == |m.ohlcv(100)| && r.goldenCross.rows == |m.ohlcv(100)| &&
            |r.bottomEscape.closes| == |m.ohlcv(100)| &&
            r.breakout.rows == |m.ohlcv(120)| && r.alignment.rows == |m.ohlcv(200)|
  {
    Readings(PullbackInputsOf(m.ohlcv(100), m.institution, cfg.pullback),
             BottomEscapeInputsOf(m.ohlcv(100), m.volumeProfile, cfg.bottomEscape),
             GoldenCrossInputsOf(m.ohlcv(100), m.rsi, cfg.goldenCross),
             BreakoutInputsOf(m.ohlcv(120), m.orderbookRatio, m.programNetBuy, cfg.breakout),
             AlignmentInputsOf(m.ohlcv(200), m.indexCloses, cfg.convergence))
  }

  /** One evaluator's decision on its readings; only the golden cross can raise. */
  function Evaluate(t: StrategyType, ticker: string, name: string, r: Readings, cfg: StrategyConfig, mult: real)
    : Outcome
    requires Shaped(r)
  {
    match t
    case Pullback => Returned(PullbackEval(ticker, name, r.pullback, cfg.pullback, mult))
    case BottomEscape => Returned(BottomEscapeEval(ticker, name, r.bottomEscape, cfg.bottomEscape, mult))
    case GoldenCross => GoldenCrossEval(ticker, name, r.goldenCross, cfg.goldenCross, mult)
    case Breakout => Returned(BreakoutEval(ticker, name, r.breakout, cfg.breakout, mult))
    case EarlyAlignment => Returned(AlignmentEval(ticker, name, r.alignment, cfg.convergence, mult))
  }

  /** Every evaluator returns a coherent signal for the ticker, its name and its own strategy,
      and only the golden cross can raise. */
  lemma EvaluateFacts(t: StrategyType, ticker: string, name: string, r: Readings, cfg: StrategyConfig, mult: real)
    requires Shaped(r)
    ensures var o := Evaluate(t, ticker, name, r, cfg, mult);
      (o.Raised? ==> t == GoldenCross) &&
      (o.Returned? ==> Coherent(o.signal) && o.signal.ticker == ticker && o.signal.name == name &&
                       o.signal.strategy == t &&
                       (o.signal.triggered <==> o.signal.confidence >= Threshold(t)))
  {
    match t
    case Pullback => PullbackDecision(ticker, name, r.pullback, cfg.pullback, mult);
    case BottomEscape => BottomEscapeDecision(ticker, name, r.bottomEscape, cfg.bottomEscape, mult);
    case GoldenCross => GoldenCrossDecision(ticker, name, r.goldenCross, cfg.goldenCross, mult);
    case Breakout => BreakoutScoring(ticker, name, r.breakout, cfg.breakout, mult);
    case EarlyAlignment => AlignmentDecision(ticker, name, r.alignment, cfg.convergence, mult);
  }

  /** Runs one `check_*` method on its readings. */
  method RunEvaluator(t: StrategyType, ticker: string, name: string, r: Readings, cfg: StrategyConfig, mult: real)
    returns (o: Outcome)
    requires Shaped(r)
    ensures o == Evaluate(t, ticker, name, r, cfg, mult)
  {
    match t
    case Pullback =>
      var s := CheckPullback(ticker, name, r.pullback, cfg.pullback, mult);
      o := Returned(s);
    case BottomEscape =>
      var s := CheckBottomEscape(ticker, name, r.bottomEscape, cfg.bottomEscape, mult);
      o := Returned(s);
    case GoldenCross =>
      o := CheckGoldenCross(ticker, name, r.goldenCross, cfg.goldenCross, mult);
    case Breakout =>
      var s := CheckBreakout(ticker, name, r.breakout, cfg.breakout, mult);
      o := Returned(s);
    case EarlyAlignment =>
      var s := CheckConvergence(ticker, name, r.alignment, cfg.convergence, mult);
      o := Returned(s);
  }

  /** The five outcomes, in the order of the engine's list. */
  function Outcomes(ticker: string, name: string, r: Readings, cfg: StrategyConfig, mult: real): (os: seq<Outcome>)
    requires Shaped(r)
    ensures |os| == |EngineOrder|
  {
    [Evaluate(Pullback, ticker, name, r, cfg, mult), Evaluate(BottomEscape, ticker, name, r, cfg, mult),
     Evaluate(GoldenCross, ticker, name, r, cfg, mult), Evaluate(Breakout, ticker, name, r, cfg, mult),
     Evaluate(EarlyAlignment, ticker, name, r, cfg, mult)]
  }

  lemma OutcomesAt(ticker: string, name: string, r: Readings, cfg: StrategyConfig, mult: real, i: nat)
    requires Shaped(r) && i < |EngineOrder|
    ensures Outcomes(ticker, name, r, cfg, mult)[i] == Evaluate(EngineOrder[i], ticker, name, r, cfg, mult)
    ensures Rank(EngineOrder[i]) == i
  {
  }

  /** The signals kept by the scan: the returned ones that triggered, in order; a raised
      evaluator is logged and skipped. */
  function Fired(os: seq<Outcome>): seq<Signal>
  {
    if |os| == 0 then []
    else
      var o := os[|os| - 1];
      Fired(os[..|os| - 1]) + (if o.Returned? && o.signal.triggered then [o.signal] else [])
  }

  /** A signal is kept exactly when some evaluator returned it triggered. */
  lemma {:induction false} FiredMeaning(os: seq<Outcome>, s: Signal)
    ensures s in Fired(os) <==> exists i :: 0 <= i < |os| && os[i] == Returned(s) && s.triggered
  {
    if |os| > 0 {
      var init := os[..|os| - 1];
      FiredMeaning(init, s);
      if exists i :: 0 <= i < |init| && init[i] == Returned(s) && s.triggered {
        var i :| 0 <= i < |init| && init[i] == Returned(s) && s.triggered;
        assert os[i] == Returned(s);
      }
      if exists i :: 0 <= i < |os| && os[i] == Returned(s) && s.triggered {
        var i :| 0 <= i < |os| && os[i] == Returned(s) && s.triggered;
        if i < |init| {
          assert init[i] == Returned(s);
        }
      }
    }
  }

  /** Each returned outcome at position `k` comes from the `k`-th evaluator. */
  predicate Ranked(os: seq<Outcome>)
  {
    forall k :: 0 <= k < |os| && os[k].Returned? ==> Rank(os[k].signal.strategy) == k
  }

  /** The kept signals come from distinct evaluators, in the engine's order. */
  lemma {:induction false} FiredInEngineOrder(os: seq<Outcome>)
    requires Ranked(os)
    ensures forall i :: 0 <= i < |Fired(os)| ==> Rank(Fired(os)[i].strategy) < |os|
    ensures forall i, j :: 0 <= i < j < |Fired(os)| ==> Rank(Fired(os)[i].strategy) < Rank(Fired(os)[j].strategy)
  {
    if |os| > 0 {
      var init := os[..|os| - 1];
      assert Ranked(init) by {
        forall k | 0 <= k < |init| && init[k].Returned?
          ensures Rank(init[k].signal.strategy) == k
        {
          assert init[k] == os[k];
        }
      }
      FiredInEngineOrder(init);
    }
  }

  /** The five outcomes of a ticker are ranked in the engine's order. */
  lemma OutcomesRanked(ticker: string, name: string, r: Readings, cfg: StrategyConfig, mult: real)
    requires Shaped(r)
    ensures Ranked(Outcomes(ticker, name, r, cfg, mult))
  {
    var os := Outcomes(ticker, name, r, cfg, mult);
    forall k | 0 <= k < |os| && os[k].Returned?
      ensures Rank(os[k].signal.strategy) == k
    {
      OutcomesAt(ticker, name, r, cfg, mult, k);
      EvaluateFacts(EngineOrder[k], ticker, name, r, cfg, mult);
    }
  }

  /** `scan_all_strategies`: runs the five evaluators in order and keeps the triggered
      signals. */
  method ScanAllStrategies(ticker: string, name: string, r: Readings, cfg: StrategyConfig, mult: real) returns (signals: seq<Signal>)
    requires Shaped(r)
    ensures signals == Fired(Outcomes(ticker, name, r, cfg, mult))
  {
    ghost var os := Outcomes(ticker, name, r, cfg, mult);
    signals := [];
    var i := 0;
    while i < |EngineOrder|
      invariant 0 <= i <= |EngineOrder|
      invariant signals == Fired(os[..i])
    {
      var o := RunEvaluator(EngineOrder[i], ticker, name, r, cfg, mult);
      OutcomesAt(ticker, name, r, cfg, mult, i);
      if o.Returned? && o.signal.triggered {
        signals := signals + [o.signal];
      }
      assert os[..i + 1][..i] == os[..i];
      i := i + 1;
    }
    assert os[..i] == os;
  }

  /** Every kept signal is a coherent, triggered signal of this ticker; the kept signals
      are in the engine's order, one per strategy at most. */
  lemma ScanFacts(ticker: string, name: string, r: Readings, cfg: StrategyConfig, mult: real)
    requires Shaped(r)
    ensures var sigs := Fired(Outcomes(ticker, name, r, cfg, mult));
      (forall i :: 0 <= i < |sigs| ==>
         sigs[i].triggered && Coherent(sigs[i]) && sigs[i].ticker == ticker && sigs[i].name == name &&
         sigs[i].confidence >= Threshold(sigs[i].strategy)) &&
      (forall i, j :: 0 <= i < j < |sigs| ==> Rank(sigs[i].strategy) < Rank(sigs[j].strategy))
  {
    var os := Outcomes(ticker, name, r, cfg, mult);
    var sigs := Fired(os);
    OutcomesRanked(ticker, name, r, cfg, mult);
    FiredInEngineOrder(os);
    forall i | 0 <= i < |sigs|
      ensures sigs[i].triggered && Coherent(sigs[i]) && sigs[i].ticker == ticker && sigs[i].name == name
    {
      FiredMeaning(os, sigs[i]);
      var k :| 0 <= k < |os| && os[k] == Returned(sigs[i]) && sigs[i].triggered;
      OutcomesAt(ticker, name, r, cfg, mult, k);
      EvaluateFacts(EngineOrder[k], ticker, name, r, cfg, mult);
    }
  }

  /** Python's `max(signals, key=confidence)`: the first signal of highest confidence. */
  function BestIndex(sigs: seq<Signal>): (k: nat)
    requires |sigs| > 0
    ensures k < |sigs|
  {
    if |sigs| == 1 then 0
    else
      var k := BestIndex(sigs[..|sigs| - 1]);
      if sigs[|sigs| - 1].confidence > sigs[k].confidence then |sigs| - 1 else k
  }

  /** The chosen signal has the highest confidence and every earlier one is strictly lower. */
  lemma {:induction false} BestIndexIsFirstMax(sigs: seq<Signal>)
    requires |sigs| > 0
    ensures forall j :: 0 <= j < |sigs| ==> sigs[j].confidence <= sigs[BestIndex(sigs)].confidence
    ensures forall j :: 0 <= j < BestIndex(sigs) ==> sigs[j].confidence < sigs[BestIndex(sigs)].confidence
  {
    if |sigs| > 1 {
      var init := sigs[..|sigs| - 1];
      BestIndexIsFirstMax(init);
      var k := BestIndex(init);
      assert forall j :: 0 <= j < |init| ==> init[j] == sigs[j];
    }
  }

  function BestSignal(sigs: seq<Signal>): Option<Signal>
  {
    if |sigs| == 0 then None else Some(sigs[BestIndex(sigs)])
  }

  /** `get_best_signal`: None when nothing triggered, else the most confident signal. */
  method GetBestSignal(ticker: string, m: Market, cfg: StrategyConfig, mult: real) returns (best: Option<Signal>)
    requires ValidStrategyConfig(cfg)
    ensures best == BestSignal(Fired(Outcomes(ticker, m.name, ReadingsOf(m, cfg), cfg, mult)))
  {
    var signals := ScanAllStrategies(ticker, m.name, ReadingsOf(m, cfg), cfg, mult);
    if |signals| == 0 {
      return None;
    }
    best := Some(signals[BestIndex(signals)]);
  }

  /** There is a best signal exactly when some evaluator returned a triggered signal; it is
      then one of those, and none of them has a higher confidence. */
  lemma BestSignalMeaning(os: seq<Outcome>)
    ensures var best := BestSignal(Fired(os));
      (best.None? <==> forall i :: 0 <= i < |os| ==> !(os[i].Returned? && os[i].signal.triggered)) &&
      (best.Some? ==> best.value.triggered && (exists i :: 0 <= i < |os| && os[i] == Returned(best.value)) &&
                      forall i :: 0 <= i < |os| && os[i].Returned? && os[i].signal.triggered ==>
                        os[i].signal.confidence <= best.value.confidence)
  {
    var sigs := Fired(os);
    forall i | 0 <= i < |os| && os[i].Returned? && os[i].signal.triggered
      ensures os[i].signal in sigs
    {
      FiredMeaning(os, os[i].signal);
    }
    if |sigs| > 0 {
      var b := sigs[BestIndex(sigs)];
      BestIndexIsFirstMax(sigs);
      FiredMeaning(os, b);
    }
  }
}
