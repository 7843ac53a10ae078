// The technical-indicator library (TechnicalIndicators in indicators.py).
// A price history is a sequence of daily bars, oldest first; pandas NaN is
// `None`.  Rolling windows, crosses, Fibonacci tables, MA convergence and the
// candle/box/volume/resistance detectors used by the five strategies.

module Indicators {
  import opened Common

  /** One daily row: 시가, 고가, 저가, 종가, 거래량. */
  datatype Bar = Bar(open: real, high: real, low: real, close: real, volume: real)

  predicate WellFormed(b: Bar)
  {
    b.low <= b.open <= b.high && b.low <= b.close <= b.high && b.volume >= 0.0
  }

  function Closes(bars: seq<Bar>): (xs: seq<real>)
    ensures |xs| == |bars|
  {
    if |bars| == 0 then [] else [bars[0].close] + Closes(bars[1..])
  }

  function Highs(bars: seq<Bar>): (xs: seq<real>)
    ensures |xs| == |bars|
  {
    if |bars| == 0 then [] else [bars[0].high] + Highs(bars[1..])
  }

  function Lows(bars: seq<Bar>): (xs: seq<real>)
    ensures |xs| == |bars|
  {
    if |bars| == 0 then [] else [bars[0].low] + Lows(bars[1..])
  }

  function Volumes(bars: seq<Bar>): (xs: seq<real>)
    ensures |xs| == |bars|
  {
    if |bars| == 0 then [] else [bars[0].volume] + Volumes(bars[1..])
  }

  /** Each column lists its field bar by bar. */
  lemma {:induction false} Columns(bars: seq<Bar>)
    ensures forall i :: 0 <= i < |bars| ==>
      Closes(bars)[i] == bars[i].close && Highs(bars)[i] == bars[i].high &&
      Lows(bars)[i] == bars[i].low && Volumes(bars)[i] == bars[i].volume
  {
    if |bars| > 0 {
      Columns(bars[1..]);
    }
  }

  /** The last `k` rows (pandas `tail(k)`). */
  function Tail<T>(s: seq<T>, k: nat): (t: seq<T>)
    ensures |t| == if k <= |s| then k else |s|
  {
    if k <= |s| then s[|s| - k..] else s
  }

  // ---------------------------------------------------------------
  // Rolling means: sma and atr (indicators.py:22-24, 63-74)
  // ---------------------------------------------------------------

  /** `rolling(window=period, min_periods=period).mean()`. */
  function Sma(xs: seq<real>, period: nat): (r: seq<Option<real>>)
    requires period >= 1
    ensures |r| == |xs|
    ensures forall i :: 0 <= i < |xs| ==> (r[i].Some? <==> i + 1 >= period)
  {
    seq(|xs|, i requires 0 <= i < |xs| =>
      if i + 1 < period then None else Some(Mean(xs[i + 1 - period..i + 1])))
  }

  /** From index period-1 on, the rolling value is the mean of the last `period`
      entries and lies between their smallest and largest. */
  lemma SmaWindow(xs: seq<real>, period: nat, i: nat)
    requires period >= 1 && period <= i + 1 <= |xs|
    ensures var w := xs[i + 1 - period..i + 1];
      Sma(xs, period)[i] == Some(Sum(w) / period as real) &&
      MinOf(w) <= Sma(xs, period)[i].value <= MaxOf(w)
  {
    MeanBetweenExtremes(xs[i + 1 - period..i + 1]);
  }

  /** True range of row i; row 0 has no previous close, and pandas' row-wise max skips the NaNs. */
  function TrueRange(bars: seq<Bar>, i: nat): real
    requires i < |bars|
  {
    var b := bars[i];
    if i == 0 then b.high - b.low
    else
      var prev := bars[i - 1].close;
      MaxR(b.high - b.low, MaxR(Abs(b.high - prev), Abs(b.low - prev)))
  }

  function TrueRanges(bars: seq<Bar>): (tr: seq<real>)
    ensures |tr| == |bars| && forall i :: 0 <= i < |bars| ==> tr[i] == TrueRange(bars, i)
  {
    seq(|bars|, i requires 0 <= i < |bars| => TrueRange(bars, i))
  }

  function Atr(bars: seq<Bar>, period: nat): (r: seq<Option<real>>)
    requires period >= 1
    ensures |r| == |bars|
  {
    Sma(TrueRanges(bars), period)
  }

  /** ATR at row i (from row period-1 on) is at least any lower bound of the daily ranges
      high - low in its window, since each true range is at least its bar's range; in
      particular it is never negative for bars with low <= high. */
  lemma AtrAtLeast(bars: seq<Bar>, period: nat, i: nat, lo: real)
    requires 1 <= period <= i + 1 <= |bars|
    requires forall k :: i + 1 - period <= k <= i ==> bars[k].high - bars[k].low >= lo
    ensures Atr(bars, period)[i].Some? && Atr(bars, period)[i].value >= lo
  {
    var tr := TrueRanges(bars);
    var w := tr[i + 1 - period..i + 1];
    forall k | 0 <= k < |w|
      ensures lo <= w[k]
    {
      assert w[k] == TrueRange(bars, i + 1 - period + k);
    }
    MeanAtLeast(w, lo);
    assert Atr(bars, period)[i] == Some(Mean(w));
  }

  /** The last ATR value, or 2% of the price when the history is shorter than the window
      (`atr(df).iloc[-1] if len(atr(df).dropna()) > 0 else current * 0.02`). */
  function AtrOrDefault(bars: seq<Bar>, current: real): real
  {
    var a := Atr(bars, 14);
    if |a| > 0 && a[|a| - 1].Some? then a[|a| - 1].value else current * 0.02
  }

  // ---------------------------------------------------------------
  // add_all_ma: MA columns written into the caller's frame (36-40)
  // ---------------------------------------------------------------

  const DefaultMaPeriods: seq<nat> := [5, 10, 20, 60, 120]

  /** An OHLCV DataFrame: its rows never change, its MA{p} columns are added in place. */
  class Frame {
    const bars: seq<Bar>
    var ma: map<nat, seq<Option<real>>>

    /** Every column has one value per row. */
    ghost predicate Valid()
      reads this
    {
      forall p :: p in ma ==> |ma[p]| == |bars|
    }

    constructor (bars: seq<Bar>)
      ensures this.bars == bars && ma == map[] && Valid()
    {
      this.bars := bars;
      ma := map[];
    }
  }

  predicate Added(n: nat, periods: seq<nat>, p: nat)
  {
    p in periods && n >= p
  }

  /** Adds MA{p} for every listed period the frame is long enough for; other columns stay. */
  method AddAllMa(df: Frame, periods: seq<nat>)
    requires df.Valid()
    requires forall i :: 0 <= i < |periods| ==> periods[i] >= 1
    modifies df
    ensures df.Valid()
    ensures forall p :: p in df.ma <==> p in old(df.ma) || Added(|df.bars|, periods, p)
    ensures forall p :: Added(|df.bars|, periods, p) ==> df.ma[p] == Sma(Closes(df.bars), p)
    ensures forall p :: p in old(df.ma) && !Added(|df.bars|, periods, p) ==> df.ma[p] == old(df.ma[p])
  {
    var i := 0;
    while i < |periods|
      invariant 0 <= i <= |periods|
      invariant df.Valid()
      invariant forall p :: p in df.ma <==> p in old(df.ma) || Added(|df.bars|, periods[..i], p)
      invariant forall p :: Added(|df.bars|, periods[..i], p) ==> df.ma[p] == Sma(Closes(df.bars), p)
      invariant forall p :: p in old(df.ma) && !Added(|df.bars|, periods[..i], p) ==> df.ma[p] == old(df.ma[p])
    {
      var p := periods[i];
      assert periods[..i + 1] == periods[..i] + [p];
      if |df.bars| >= p {
        df.ma := df.ma[p := Sma(Closes(df.bars), p)];
      }
      i := i + 1;
    }
    assert periods[..i] == periods;
  }

  // ---------------------------------------------------------------
  // ma_slope_degree (85-90) and detect_cross (96-114)
  // ---------------------------------------------------------------

  /** Percent change from `series[-lookback]` to `series[-1]`, rounded to 4 places; 0.0 for a
      short series.  `None` stands for NaN (an undefined end point) and for the infinities
      numpy returns on a zero base. */
  function MaSlopeDegree(series: seq<Option<real>>, lookback: nat): (r: Option<real>)
    ensures |series| < lookback + 1 ==> r == Some(0.0)
  {
    if |series| < lookback + 1 then Some(0.0)
    else
      var last := series[|series| - 1];
      // `iloc[-0]` is the first element
      var base := series[if lookback == 0 then 0 else |series| - lookback];
      if last.Some? && base.Some? && base.value != 0.0 then
        Some(RoundTo((last.value - base.value) / base.value * 100.0, 4))
      else None
  }

  /** A positive base that has not fallen gives a non-negative slope. */
  lemma SlopeNonNegative(series: seq<Option<real>>, lookback: nat)
    requires 1 <= lookback && lookback + 1 <= |series|
    requires series[|series| - lookback].Some? && series[|series| - lookback].value > 0.0
    requires series[|series| - 1].Some? && series[|series| - 1].value >= series[|series| - lookback].value
    ensures MaSlopeDegree(series, lookback).Some? && MaSlopeDegree(series, lookback).value >= 0.0
  {
    var b := series[|series| - lookback].value;
    var a := series[|series| - 1].value;
    var q := (a - b) / b;
    assert q >= 0.0;
    RoundToSign(q * 100.0, 4);
  }

  /** A positive base that has fallen by at least one part in a million gives a negative slope. */
  lemma SlopeNegative(series: seq<Option<real>>, lookback: nat)
    requires 1 <= lookback && lookback + 1 <= |series|
    requires series[|series| - lookback].Some? && series[|series| - lookback].value > 0.0
    requires series[|series| - 1].Some?
    requires series[|series| - 1].value <= series[|series| - lookback].value * 0.999999
    ensures MaSlopeDegree(series, lookback).Some? && MaSlopeDegree(series, lookback).value < 0.0
  {
    var b := series[|series| - lookback].value;
    var a := series[|series| - 1].value;
    DropRatio(a, b);
    assert Pow10(4) == 10000.0;
    RoundToSign((a - b) / b * 100.0, 4);
  }

  lemma DropRatio(a: real, b: real)
    requires b > 0.0 && a <= b * 0.999999
    ensures (a - b) / b * 100.0 <= -0.0001
  {
    var q := (a - b) / b;
    assert a - b == q * b;
    assert (q + 0.000001) * b <= 0.0;
  }

  /** NaN-aware comparisons: any comparison with NaN is false. */
  predicate Lt(a: Option<real>, b: Option<real>) { a.Some? && b.Some? && a.value < b.value }
  predicate Le(a: Option<real>, b: Option<real>) { a.Some? && b.Some? && a.value <= b.value }

  datatype Cross = Cross(golden: bool, dead: bool)

  function DetectCross(short: seq<Option<real>>, long: seq<Option<real>>): (c: Cross)
    ensures (|short| < 2 || |long| < 2) ==> !c.golden && !c.dead
    ensures !(c.golden && c.dead)
    ensures c.golden ==> |short| >= 2 && Lt(short[|short| - 2], long[|long| - 2])
    ensures c.dead ==> |short| >= 2 && Lt(long[|long| - 2], short[|short| - 2])
  {
    if |short| < 2 || |long| < 2 then Cross(false, false)
    else
      var s1, l1 := short[|short| - 2], long[|long| - 2];
      var s0, l0 := short[|short| - 1], long[|long| - 1];
      Cross(Lt(s1, l1) && Le(l0, s0), Lt(l1, s1) && Le(s0, l0))
  }

  // ---------------------------------------------------------------
  // Fibonacci retracement / extension tables (120-150)
  // ---------------------------------------------------------------

  datatype FibKind = Retracement | Extension

  const DefaultRetracementLevels: seq<real> := [0.0, 0.236, 0.382, 0.5, 0.618, 0.786, 1.0]
  const DefaultExtensionLevels: seq<real> := [1.0, 1.272, 1.618, 2.0, 2.618]

  /** round(high - diff*level) for a retracement, round(low + diff*level) for an extension. */
  function FibLevelValue(kind: FibKind, high: real, low: real, level: real): real
  {
    var diff := high - low;
    if kind == Retracement then high - diff * level else low + diff * level
  }

  function FibPrice(kind: FibKind, high: real, low: real, level: real): int
  {
    RoundHalfEven(FibLevelValue(kind, high, low, level))
  }

  /** The dict built by the loop: one entry per distinct level, in first-insertion order. */
  function FibTable(kind: FibKind, high: real, low: real, levels: seq<real>): seq<(real, int)>
  {
    if |levels| == 0 then []
    else
      var l := levels[|levels| - 1];
      Put(FibTable(kind, high, low, levels[..|levels| - 1]), l, FibPrice(kind, high, low, l))
  }

  method FibonacciLevels(high: real, low: real, levels: seq<real>) returns (result: seq<(real, int)>)
    ensures result == FibTable(Retracement, high, low, levels)
  {
    var diff := high - low;
    result := [];
    var i := 0;
    while i < |levels|
      invariant 0 <= i <= |levels|
      invariant result == FibTable(Retracement, high, low, levels[..i])
    {
      var level := levels[i];
      assert levels[..i + 1][..i] == levels[..i];
      assert FibLevelValue(Retracement, high, low, level) == high - diff * level;
      result := Put(result, level, RoundHalfEven(high - diff * level));
      i := i + 1;
    }
    assert levels[..i] == levels;
  }

  method FibonacciExtension(high: real, low: real, levels: seq<real>) returns (result: seq<(real, int)>)
    ensures result == FibTable(Extension, high, low, levels)
  {
    var diff := high - low;
    result := [];
    var i := 0;
    while i < |levels|
      invariant 0 <= i <= |levels|
      invariant result == FibTable(Extension, high, low, levels[..i])
    {
      var level := levels[i];
      assert levels[..i + 1][..i] == levels[..i];
      assert FibLevelValue(Extension, high, low, level) == low + diff * level;
      result := Put(result, level, RoundHalfEven(low + diff * level));
      i := i + 1;
    }
    assert levels[..i] == levels;
  }

  /** Every listed level has its price in the table, and nothing else is in it. */
  lemma {:induction false} FibTableLookup(kind: FibKind, high: real, low: real, levels: seq<real>, q: real)
    ensures Lookup(FibTable(kind, high, low, levels), q) ==
      if q in levels then Some(FibPrice(kind, high, low, q)) else None
  {
    if |levels| > 0 {
      var l := levels[|levels| - 1];
      var init := levels[..|levels| - 1];
      FibTableLookup(kind, high, low, init, q);
      LookupPut(FibTable(kind, high, low, init), l, FibPrice(kind, high, low, l), q);
      assert levels == init + [l];
      assert q in levels <==> q in init || q == l;
    }
  }

  /** With distinct levels the table lists every level once, in the given order. */
  lemma {:induction false} FibTableDistinct(kind: FibKind, high: real, low: real, levels: seq<real>)
    requires Distinct(levels)
    ensures |FibTable(kind, high, low, levels)| == |levels|
    ensures forall i :: 0 <= i < |levels| ==>
      FibTable(kind, high, low, levels)[i] == (levels[i], FibPrice(kind, high, low, levels[i]))
  {
    if |levels| > 0 {
      var l := levels[|levels| - 1];
      var init := levels[..|levels| - 1];
      FibTableDistinct(kind, high, low, init);
      FibTableLookup(kind, high, low, init, l);
      assert l !in init;
      PutFresh(FibTable(kind, high, low, init), l, FibPrice(kind, high, low, l));
    }
  }

  /** Retracement prices fall and extension prices rise as the level grows (for high >= low). */
  lemma FibMonotone(high: real, low: real, l1: real, l2: real)
    requires low <= high && l1 <= l2
    ensures FibPrice(Retracement, high, low, l2) <= FibPrice(Retracement, high, low, l1)
    ensures FibPrice(Extension, high, low, l1) <= FibPrice(Extension, high, low, l2)
  {
    FibLevelMonotone(high, low, l1, l2);
    RoundMonotone(FibLevelValue(Retracement, high, low, l2), FibLevelValue(Retracement, high, low, l1));
    RoundMonotone(FibLevelValue(Extension, high, low, l1), FibLevelValue(Extension, high, low, l2));
  }

  lemma FibLevelMonotone(high: real, low: real, l1: real, l2: real)
    requires low <= high && l1 <= l2
    ensures FibLevelValue(Retracement, high, low, l2) <= FibLevelValue(Retracement, high, low, l1)
    ensures FibLevelValue(Extension, high, low, l1) <= FibLevelValue(Extension, high, low, l2)
  {
    assert (high - low) * (l2 - l1) >= 0.0;
  }

  /** Level 0 of a retracement is the swing high, level 1 the swing low; level 1 of an
      extension is the swing high. */
  lemma FibEndpoints(high: real, low: real)
    ensures FibPrice(Retracement, high, low, 0.0) == RoundHalfEven(high)
    ensures FibPrice(Retracement, high, low, 1.0) == RoundHalfEven(low)
    ensures FibPrice(Extension, high, low, 1.0) == RoundHalfEven(high)
  {
    assert FibLevelValue(Retracement, high, low, 0.0) == high;
    assert FibLevelValue(Retracement, high, low, 1.0) == low;
    assert FibLevelValue(Extension, high, low, 1.0) == high;
  }

  // ---------------------------------------------------------------
  // ma_convergence (156-217)
  // ---------------------------------------------------------------

  datatype Convergence = Convergence(
    converged: bool,
    spreadPct: Option<real>,
    aligned: bool,
    diverging: bool,
    maValues: map<nat, real>)

  function LastValue(col: seq<Option<real>>): Option<real>
  {
    if |col| == 0 then None else col[|col| - 1]
  }

  predicate HasLast(ma: map<nat, seq<Option<real>>>, p: nat)
  {
    p in ma && LastValue(ma[p]).Some?
  }

  /** `ma_values`: every listed period whose column exists with a defined last value. */
  function MaValues(ma: map<nat, seq<Option<real>>>, periods: seq<nat>): map<nat, real>
  {
    map p | p in periods && HasLast(ma, p) :: LastValue(ma[p]).value
  }

  predicate AllPresent(ma: map<nat, seq<Option<real>>>, periods: seq<nat>)
  {
    Distinct(periods) && forall i :: 0 <= i < |periods| ==> HasLast(ma, periods[i])
  }

  /** The last values in period order (`list(ma_values.values())` once every period is present). */
  function LastValues(ma: map<nat, seq<Option<real>>>, periods: seq<nat>): (vs: seq<real>)
    requires forall i :: 0 <= i < |periods| ==> HasLast(ma, periods[i])
    ensures |vs| == |periods|
  {
    seq(|periods|, i requires 0 <= i < |periods| =>
      assert HasLast(ma, periods[i]);
      LastValue(ma[periods[i]]).value)
  }

  /** (max - min) / min, or 999 when the smallest MA is not positive. */
  function SpreadOf(mx: real, mn: real): real
  {
    if mn > 0.0 then (mx - mn) / mn else 999.0
  }

  function Spread(vs: seq<real>): real
    requires |vs| > 0
  {
    SpreadOf(MaxOf(vs), MinOf(vs))
  }

  predicate NonIncreasing(vs: seq<real>)
  {
    forall i :: 0 <= i < |vs| - 1 ==> vs[i] >= vs[i + 1]
  }

  /** The defined entries, in order. */
  function Defined(vals: seq<Option<real>>): (xs: seq<real>)
    ensures |xs| <= |vals|
  {
    if |vals| == 0 then []
    else (if vals[0].Some? then [vals[0].value] else []) + Defined(vals[1..])
  }

  /** Python's max()/min() over numpy floats keep a leading NaN (every comparison with it is
      false) and skip later ones; `min > 0` is false for NaN, so that spread is 0. */
  function PySpread(vals: seq<Option<real>>): real
    requires |vals| > 0
  {
    if vals[0].None? then 0.0
    else
      var xs := Defined(vals);
      assert xs[0] == vals[0].value;
      var mn := MinOf(xs);
      if mn > 0.0 then (MaxOf(xs) - mn) / mn else 0.0
  }

  /** The MA values `offset` rows before the last one, in period order. */
  function ValuesAt(ma: map<nat, seq<Option<real>>>, n: nat, periods: seq<nat>, offset: nat): (vals: seq<Option<real>>)
    requires forall i :: 0 <= i < |periods| ==> periods[i] in ma && |ma[periods[i]]| == n
    requires offset < n
    ensures |vals| == |periods|
  {
    seq(|periods|, i requires 0 <= i < |periods| => ma[periods[i]][n - 1 - offset])
  }

  predicate ColumnsOfLength(ma: map<nat, seq<Option<real>>>, n: nat)
  {
    forall p :: p in ma ==> |ma[p]| == n
  }

  function ConvergenceOf(ma: map<nat, seq<Option<real>>>, n: nat, periods: seq<nat>, threshold: real): Convergence
    requires |periods| > 0 && ColumnsOfLength(ma, n)
  {
    var mv := MaValues(ma, periods);
    if |mv| < |periods| then Convergence(false, None, false, false, map[])
    else
      GateMeansAllPresent(ma, periods);
      Summary(LastValues(ma, periods), threshold, Diverging(ma, n, periods), mv)
  }

  /** The result dict once every period is present. */
  function Summary(vs: seq<real>, threshold: real, diverging: bool, mv: map<nat, real>): Convergence
    requires |vs| > 0
  {
    var spread := Spread(vs);
    Convergence(spread <= threshold, Some(RoundTo(spread * 100.0, 2)), NonIncreasing(vs), diverging, mv)
  }

  /** With at least five rows, the spread strictly widened from two days ago to yesterday
      to today. */
  predicate Diverging(ma: map<nat, seq<Option<real>>>, n: nat, periods: seq<nat>)
    requires |periods| > 0 && ColumnsOfLength(ma, n) && AllPresent(ma, periods)
  {
    n >= 5 &&
    PySpread(ValuesAt(ma, n, periods, 0)) > PySpread(ValuesAt(ma, n, periods, 1)) > PySpread(ValuesAt(ma, n, periods, 2))
  }

  function PresentSet(ma: map<nat, seq<Option<real>>>, periods: seq<nat>): set<nat>
  {
    set p | p in periods && HasLast(ma, p)
  }

  /** Appending one period to the list. */
  lemma PresentSnoc(ma: map<nat, seq<Option<real>>>, init: seq<nat>, l: nat)
    ensures PresentSet(ma, init + [l]) == PresentSet(ma, init) + (if HasLast(ma, l) then {l} else {})
    ensures AllPresent(ma, init + [l]) <==> AllPresent(ma, init) && l !in init && HasLast(ma, l)
  {
    var s := init + [l];
    assert forall p :: p in s <==> p in init || p == l;
    if AllPresent(ma, s) {
      AllPresentPrefix(ma, init, l);
    }
    if AllPresent(ma, init) && l !in init && HasLast(ma, l) {
      AllPresentExtend(ma, init, l);
    }
  }

  lemma AllPresentPrefix(ma: map<nat, seq<Option<real>>>, init: seq<nat>, l: nat)
    requires AllPresent(ma, init + [l])
    ensures AllPresent(ma, init) && l !in init && HasLast(ma, l)
  {
    var s := init + [l];
    forall i | 0 <= i < |init|
      ensures HasLast(ma, init[i])
    {
      assert init[i] == s[i];
    }
    forall i, j | 0 <= i < j < |init|
      ensures init[i] != init[j]
    {
      assert init[i] == s[i] && init[j] == s[j];
    }
    forall i | 0 <= i < |init|
      ensures init[i] != l
    {
      assert init[i] == s[i] && l == s[|s| - 1];
    }
    assert HasLast(ma, s[|s| - 1]);
  }

  lemma AllPresentExtend(ma: map<nat, seq<Option<real>>>, init: seq<nat>, l: nat)
    requires AllPresent(ma, init) && l !in init && HasLast(ma, l)
    ensures AllPresent(ma, init + [l])
  {
    var s := init + [l];
    forall i, j | 0 <= i < j < |s|
      ensures s[i] != s[j]
    {
      if j == |s| - 1 {
        assert s[i] == init[i] && s[j] == l;
      } else {
        assert s[i] == init[i] && s[j] == init[j];
      }
    }
    forall i | 0 <= i < |s|
      ensures HasLast(ma, s[i])
    {
      if i < |init| {
        assert s[i] == init[i];
      }
    }
  }

  /** The present periods never outnumber the listed ones, and match them in number
      exactly when the periods are distinct and all present. */
  lemma {:induction false} PresentCount(ma: map<nat, seq<Option<real>>>, periods: seq<nat>)
    ensures |PresentSet(ma, periods)| <= |periods|
    ensures |PresentSet(ma, periods)| == |periods| <==> AllPresent(ma, periods)
  {
    if |periods| > 0 {
      var init := periods[..|periods| - 1];
      var l := periods[|periods| - 1];
      assert periods == init + [l];
      PresentCount(ma, init);
      PresentSnoc(ma, init, l);
      var s0 := PresentSet(ma, init);
      if HasLast(ma, l) && l !in s0 {
        assert |PresentSet(ma, periods)| == |s0| + 1;
      } else {
        assert PresentSet(ma, periods) == s0;
      }
      if AllPresent(ma, init) {
        assert l in init && HasLast(ma, l) ==> l in s0;
      }
    }
  }

  lemma GateMeansAllPresent(ma: map<nat, seq<Option<real>>>, periods: seq<nat>)
    ensures |MaValues(ma, periods)| >= |periods| ==> AllPresent(ma, periods)
    ensures AllPresent(ma, periods) ==> |MaValues(ma, periods)| == |periods|
  {
    assert MaValues(ma, periods).Keys == PresentSet(ma, periods);
    PresentCount(ma, periods);
  }

  lemma MaValuesSnoc(ma: map<nat, seq<Option<real>>>, init: seq<nat>, p: nat)
    ensures MaValues(ma, init + [p]) ==
      if HasLast(ma, p) then MaValues(ma, init)[p := LastValue(ma[p]).value] else MaValues(ma, init)
  {
    assert forall q :: q in init + [p] <==> q in init || q == p;
  }

  /** The spread of the MA values `offset` rows before the last one (one pass of the
      divergence loop). */
  method SpreadAt(ma: map<nat, seq<Option<real>>>, n: nat, periods: seq<nat>, offset: nat)
    returns (spread: real)
    requires |periods| > 0 && offset < n
    requires forall i :: 0 <= i < |periods| ==> periods[i] in ma && |ma[periods[i]]| == n
    ensures spread == PySpread(ValuesAt(ma, n, periods, offset))
  {
    var vals: seq<Option<real>> := [];
    var j := 0;
    while j < |periods|
      invariant 0 <= j <= |periods|
      invariant vals == ValuesAt(ma, n, periods, offset)[..j]
    {
      var col := ma[periods[j]];
      vals := vals + [col[n - 1 - offset]];
      j := j + 1;
    }
    assert vals == ValuesAt(ma, n, periods, offset);
    spread := PySpread(vals);
  }

  /** The loop that fills `ma_values`. */
  method CollectMaValues(ma: map<nat, seq<Option<real>>>, periods: seq<nat>) returns (maValues: map<nat, real>)
    ensures maValues == MaValues(ma, periods)
  {
    maValues := map[];
    var i := 0;
    while i < |periods|
      invariant 0 <= i <= |periods|
      invariant maValues == MaValues(ma, periods[..i])
    {
      var p := periods[i];
      assert periods[..i + 1] == periods[..i] + [p];
      MaValuesSnoc(ma, periods[..i], p);
      if p in ma && LastValue(ma[p]).Some? {
        maValues := maValues[p := LastValue(ma[p]).value];
      }
      i := i + 1;
    }
    assert periods[..i] == periods;
  }

  /** The divergence loop: spreads of today, yesterday and the day before. */
  method RecentSpreads(ma: map<nat, seq<Option<real>>>, n: nat, periods: seq<nat>) returns (spreads: seq<real>)
    requires |periods| > 0 && n >= 3 && ColumnsOfLength(ma, n) && AllPresent(ma, periods)
    ensures |spreads| == 3
    ensures forall k :: 0 <= k < 3 ==> spreads[k] == PySpread(ValuesAt(ma, n, periods, k))
  {
    spreads := [];
    var offset := 0;
    while offset < 3
      invariant 0 <= offset <= 3
      invariant |spreads| == offset
      invariant forall k :: 0 <= k < offset ==> spreads[k] == PySpread(ValuesAt(ma, n, periods, k))
    {
      var s := SpreadAt(ma, n, periods, offset);
      spreads := spreads + [s];
      offset := offset + 1;
    }
  }

  /** Collects the last MA values, applies the completeness gate, then measures the spread
      of today and the two previous days. */
  method MaConvergence(ma: map<nat, seq<Option<real>>>, n: nat, periods: seq<nat>, threshold: real)
    returns (c: Convergence)
    requires |periods| > 0 && ColumnsOfLength(ma, n)
    ensures c == ConvergenceOf(ma, n, periods, threshold)
  {
    var maValues := CollectMaValues(ma, periods);
    if |maValues| < |periods| {
      return Convergence(false, None, false, false, map[]);
    }
    GateMeansAllPresent(ma, periods);
    var values := LastValues(ma, periods);
    var diverging := false;
    if n >= 5 {
      var spreads := RecentSpreads(ma, n, periods);
      diverging := spreads[0] > spreads[1] > spreads[2];
    }
    assert diverging == Diverging(ma, n, periods);
    c := Summary(values, threshold, diverging, maValues);
  }

  /** A missing, undefined or repeated period yields the "not converged, no spread" answer. */
  lemma ConvergenceMissing(ma: map<nat, seq<Option<real>>>, n: nat, periods: seq<nat>, threshold: real)
    requires |periods| > 0 && ColumnsOfLength(ma, n)
    ensures var c := ConvergenceOf(ma, n, periods, threshold);
      !AllPresent(ma, periods) <==> (c.spreadPct.None? && !c.converged && !c.aligned && !c.diverging)
  {
    GateMeansAllPresent(ma, periods);
  }

  /** Converged MAs all lie within threshold * (smallest MA) of each other. */
  /** Converged means every period is present and the spread is within the threshold. */
  lemma ConvergedSpread(ma: map<nat, seq<Option<real>>>, n: nat, periods: seq<nat>, threshold: real)
    requires |periods| > 0 && ColumnsOfLength(ma, n)
    ensures ConvergenceOf(ma, n, periods, threshold).converged <==>
      AllPresent(ma, periods) && Spread(LastValues(ma, periods)) <= threshold
  {
    GateMeansAllPresent(ma, periods);
  }

  /** Within the threshold (below the 999 sentinel), the smallest MA `lo` is positive and
      every MA lies in [lo, lo * (1 + threshold)]. */
  lemma SpreadBand(vs: seq<real>, threshold: real, lo: real, hi: real)
    requires |vs| > 0 && lo == MinOf(vs) && hi == MaxOf(vs)
    requires threshold < 999.0 && Spread(vs) <= threshold
    ensures lo > 0.0
    ensures forall k :: 0 <= k < |vs| ==> lo <= vs[k] <= lo + threshold * lo
  {
    MinOfIsMin(vs);
    MaxOfIsMax(vs);
    SpreadOfWidth(hi, lo, threshold);
  }

  lemma SpreadOfWidth(mx: real, mn: real, threshold: real)
    requires threshold < 999.0 && SpreadOf(mx, mn) <= threshold
    ensures mn > 0.0 && mx - mn <= threshold * mn
  {
    QuotientAtMost(mx - mn, mn, threshold);
  }

  /** Alignment is the full ordering: every shorter MA is at least every longer one. */
  lemma {:induction false} AlignedOrdered(vs: seq<real>, i: nat, j: nat)
    requires NonIncreasing(vs) && i <= j < |vs|
    ensures vs[i] >= vs[j]
    decreases j - i
  {
    if i < j {
      AlignedOrdered(vs, i + 1, j);
    }
  }

  /** Divergence needs at least five rows. */
  lemma DivergingNeedsHistory(ma: map<nat, seq<Option<real>>>, n: nat, periods: seq<nat>, threshold: real)
    requires |periods| > 0 && ColumnsOfLength(ma, n)
    requires ConvergenceOf(ma, n, periods, threshold).diverging
    ensures n >= 5 && AllPresent(ma, periods)
  {
    GateMeansAllPresent(ma, periods);
  }

  // ---------------------------------------------------------------
  // reference_candle (223-247)
  // ---------------------------------------------------------------

  datatype RefCandle = RefCandle(high: real, low: real, center: real)

  /** `tail(lookback + 5).head(lookback)`. */
  function RefWindow(bars: seq<Bar>, lookback: nat): (w: seq<Bar>)
    requires lookback <= |bars|
    ensures |w| == lookback
  {
    var n := |bars|;
    if n >= lookback + 5 then bars[n - lookback - 5..n - 5] else bars[..lookback]
  }

  lemma RefWindowIn(bars: seq<Bar>, lookback: nat)
    requires lookback <= |bars|
    ensures forall b :: b in RefWindow(bars, lookback) ==> b in bars
  {
    var n := |bars|;
    var w := RefWindow(bars, lookback);
    forall b | b in w
      ensures b in bars
    {
      var i :| 0 <= i < |w| && w[i] == b;
      if n >= lookback + 5 {
        assert b == bars[n - lookback - 5 + i];
      } else {
        assert b == bars[i];
      }
    }
  }

  predicate IsBullish(b: Bar) { b.close > b.open }

  function Bullish(s: seq<Bar>): seq<Bar>
  {
    if |s| == 0 then []
    else (if IsBullish(s[0]) then [s[0]] else []) + Bullish(s[1..])
  }

  /** The bullish filter keeps exactly the bullish bars. */
  lemma {:induction false} BullishMeans(s: seq<Bar>)
    ensures forall b :: b in Bullish(s) <==> b in s && IsBullish(b)
  {
    if |s| > 0 {
      BullishMeans(s[1..]);
      assert s == [s[0]] + s[1..];
    }
  }

  function Range(b: Bar): real { b.high - b.low }

  /** pandas `idxmax`: the first bar of largest range. */
  function ArgMaxRange(s: seq<Bar>): (k: nat)
    requires |s| > 0
    ensures k < |s|
  {
    if |s| == 1 then 0
    else
      var k := ArgMaxRange(s[..|s| - 1]);
      if Range(s[|s| - 1]) > Range(s[k]) then |s| - 1 else k
  }

  /** The chosen bar has the largest range, and every bar before it a smaller one. */
  lemma {:induction false} ArgMaxRangeIsMax(s: seq<Bar>)
    requires |s| > 0
    ensures forall i :: 0 <= i < |s| ==> Range(s[i]) <= Range(s[ArgMaxRange(s)])
    ensures forall i :: 0 <= i < ArgMaxRange(s) ==> Range(s[i]) < Range(s[ArgMaxRange(s)])
  {
    if |s| > 1 {
      var front := s[..|s| - 1];
      assert forall i :: 0 <= i < |front| ==> front[i] == s[i];
      ArgMaxRangeIsMax(front);
    }
  }

  /** The bullish bars of the window, or the whole window when none is bullish. */
  function Candidates(w: seq<Bar>): seq<Bar>
  {
    var b := Bullish(w);
    if |b| > 0 then b else w
  }

  /** The first widest candidate. */
  function RefBar(w: seq<Bar>): Bar
    requires |w| > 0
  {
    var c := Candidates(w);
    assert |c| > 0 by {
      if |Bullish(w)| == 0 {
        assert c == w;
      }
    }
    c[ArgMaxRange(c)]
  }

  function ReferenceCandle(bars: seq<Bar>, lookback: nat): Option<RefCandle>
    requires lookback >= 1
  {
    if |bars| < lookback then None
    else
      var r := RefBar(RefWindow(bars, lookback));
      Some(RefCandle(r.high, r.low, (r.high + r.low) / 2.0))
  }

  /** A bar is a candidate exactly when it is in the window and is bullish, or when the
      window has no bullish bar at all. */
  lemma CandidatesMeaning(w: seq<Bar>)
    ensures forall x :: x in Candidates(w) <==>
      x in w && (IsBullish(x) || forall y :: y in w ==> !IsBullish(y))
  {
    var b := Bullish(w);
    BullishMeans(w);
    if |b| > 0 {
      assert b[0] in b;
    }
  }

  /** The reference bar belongs to the window, is bullish whenever the window has a bullish
      bar, and no candidate has a wider range. */
  lemma ReferenceCandleChoice(w: seq<Bar>)
    requires |w| > 0
    ensures RefBar(w) in w
    ensures (exists x :: x in w && IsBullish(x)) ==> IsBullish(RefBar(w))
    ensures forall x :: x in Candidates(w) ==> Range(x) <= Range(RefBar(w))
  {
    CandidatesMeaning(w);
    BullishMeans(w);
    var c := Candidates(w);
    ArgMaxRangeIsMax(c);
    assert w[0] in w;
    assert c[ArgMaxRange(c)] in c;
    if exists x :: x in w && IsBullish(x) {
      var x :| x in w && IsBullish(x);
      assert x in Bullish(w);
    }
    forall x | x in c
      ensures Range(x) <= Range(RefBar(w))
    {
      var i :| 0 <= i < |c| && c[i] == x;
    }
  }

  /** The centre lies between the reference bar's low and high. */
  lemma ReferenceCenter(bars: seq<Bar>, lookback: nat)
    requires 1 <= lookback <= |bars|
    requires forall i :: 0 <= i < |bars| ==> bars[i].low <= bars[i].high
    ensures var rc := ReferenceCandle(bars, lookback).value;
      rc.low <= rc.center <= rc.high
  {
    var w := RefWindow(bars, lookback);
    RefWindowIn(bars, lookback);
    ReferenceCandleChoice(w);
    var b := RefBar(w);
    assert b in bars;
  }

  // ---------------------------------------------------------------
  // detect_accumulation_candle (253-286)
  // ---------------------------------------------------------------

  /** A high-volume bar that is bullish or has a lower wick longer than half its body. */
  predicate IsAccumulation(b: Bar, avg: real, ratio: real)
  {
    var body := Abs(b.close - b.open);
    var lowerWick := MinR(b.open, b.close) - b.low;
    b.volume > avg * ratio && (IsBullish(b) || (body > 0.0 && lowerWick > body * 0.5))
  }

  /** One detected candle: its row, close, whole-share volume and volume multiple
      (`None` where numpy would divide by a zero average). */
  datatype AccumCandle = AccumCandle(row: nat, close: real, volume: int, multiple: Option<real>)

  function Candle(bars: seq<Bar>, row: nat, avg: real): AccumCandle
    requires row < |bars|
  {
    var b := bars[row];
    AccumCandle(row, b.close, Trunc(b.volume), if avg == 0.0 then None else Some(RoundTo(b.volume / avg, 2)))
  }

  /** The qualifying rows in [lo, hi), in row order. */
  function AccumulationIn(bars: seq<Bar>, lo: nat, hi: nat, avg: real, ratio: real): seq<AccumCandle>
    requires lo <= hi <= |bars|
    decreases hi - lo
  {
    if hi == lo then []
    else
      var extra: seq<AccumCandle> := if IsAccumulation(bars[hi - 1], avg, ratio) then [Candle(bars, hi - 1, avg)] else [];
      AccumulationIn(bars, lo, hi - 1, avg, ratio) + extra
  }

  function AccumulationCandles(bars: seq<Bar>, lookback: nat, ratio: real): seq<AccumCandle>
  {
    if |bars| < lookback || lookback == 0 then []
    else
      var lo := |bars| - lookback;
      AccumulationIn(bars, lo, |bars|, Mean(Volumes(bars[lo..])), ratio)
  }

  method DetectAccumulationCandle(bars: seq<Bar>, lookback: nat, ratio: real)
    returns (found: seq<AccumCandle>)
    ensures found == AccumulationCandles(bars, lookback, ratio)
  {
    found := [];
    if |bars| < lookback || lookback == 0 {
      return;
    }
    var lo := |bars| - lookback;
    var avg := Mean(Volumes(bars[lo..]));
    var row := lo;
    while row < |bars|
      invariant lo <= row <= |bars|
      invariant found == AccumulationIn(bars, lo, row, avg, ratio)
    {
      if IsAccumulation(bars[row], avg, ratio) {
        found := found + [Candle(bars, row, avg)];
      }
      row := row + 1;
    }
  }

  /** A row is reported exactly when it qualifies, and rows come out in order. */
  lemma {:induction false} AccumulationSound(bars: seq<Bar>, lo: nat, hi: nat, avg: real, ratio: real)
    requires lo <= hi <= |bars|
    ensures forall c :: c in AccumulationIn(bars, lo, hi, avg, ratio) ==>
      lo <= c.row < hi && IsAccumulation(bars[c.row], avg, ratio) && c == Candle(bars, c.row, avg)
    decreases hi - lo
  {
    if hi > lo {
      AccumulationSound(bars, lo, hi - 1, avg, ratio);
      var f0 := AccumulationIn(bars, lo, hi - 1, avg, ratio);
      var extra: seq<AccumCandle> := if IsAccumulation(bars[hi - 1], avg, ratio) then [Candle(bars, hi - 1, avg)] else [];
      assert AccumulationIn(bars, lo, hi, avg, ratio) == f0 + extra;
      forall c: AccumCandle | c in f0 + extra
        ensures lo <= c.row < hi && IsAccumulation(bars[c.row], avg, ratio) && c == Candle(bars, c.row, avg)
      {
        if c !in f0 {
          assert c in extra;
        }
      }
    }
  }

  lemma {:induction false} AccumulationComplete(bars: seq<Bar>, lo: nat, hi: nat, avg: real, ratio: real, r: nat)
    requires lo <= r < hi <= |bars| && IsAccumulation(bars[r], avg, ratio)
    ensures Candle(bars, r, avg) in AccumulationIn(bars, lo, hi, avg, ratio)
    decreases hi - lo
  {
    var f0 := AccumulationIn(bars, lo, hi - 1, avg, ratio);
    var extra: seq<AccumCandle> := if IsAccumulation(bars[hi - 1], avg, ratio) then [Candle(bars, hi - 1, avg)] else [];
    assert AccumulationIn(bars, lo, hi, avg, ratio) == f0 + extra;
    if r < hi - 1 {
      AccumulationComplete(bars, lo, hi - 1, avg, ratio, r);
    } else {
      assert Candle(bars, r, avg) in extra;
    }
  }

  predicate RowsIncreasing(f: seq<AccumCandle>)
  {
    forall i, j :: 0 <= i < j < |f| ==> f[i].row < f[j].row
  }

  lemma {:induction false} AccumulationOrdered(bars: seq<Bar>, lo: nat, hi: nat, avg: real, ratio: real)
    requires lo <= hi <= |bars|
    ensures RowsIncreasing(AccumulationIn(bars, lo, hi, avg, ratio))
    decreases hi - lo
  {
    if hi > lo {
      AccumulationOrdered(bars, lo, hi - 1, avg, ratio);
      AccumulationSound(bars, lo, hi - 1, avg, ratio);
      var f0 := AccumulationIn(bars, lo, hi - 1, avg, ratio);
      var extra: seq<AccumCandle> := if IsAccumulation(bars[hi - 1], avg, ratio) then [Candle(bars, hi - 1, avg)] else [];
      var f := f0 + extra;
      assert RowsIncreasing(f0);
      assert AccumulationIn(bars, lo, hi, avg, ratio) == f;
      forall i, j | 0 <= i < j < |f|
        ensures f[i].row < f[j].row
      {
        if j >= |f0| {
          assert |extra| <= 1 && j == |f0| && f[j] == extra[0];
          assert f[i] == f0[i] && f[i] in f0;
          assert f[i].row < hi - 1;
          assert f[j] == Candle(bars, hi - 1, avg);
          assert f[j].row == hi - 1;
        } else {
          assert f[i] == f0[i] && f[j] == f0[j];
          assert f0[i].row < f0[j].row;
        }
      }
    }
  }

  /** Accumulation is found exactly when some bar of the last `lookback` qualifies. */
  lemma AccumulationFound(bars: seq<Bar>, lookback: nat, ratio: real)
    requires 1 <= lookback <= |bars|
    ensures var lo := |bars| - lookback;
      var avg := Mean(Volumes(bars[lo..]));
      |AccumulationCandles(bars, lookback, ratio)| > 0 <==>
        exists r :: lo <= r < |bars| && IsAccumulation(bars[r], avg, ratio)
  {
    var lo := |bars| - lookback;
    var avg := Mean(Volumes(bars[lo..]));
    var f := AccumulationCandles(bars, lookback, ratio);
    AccumulationSound(bars, lo, |bars|, avg, ratio);
    if |f| > 0 {
      assert f[0] in f;
    }
    if exists r :: lo <= r < |bars| && IsAccumulation(bars[r], avg, ratio) {
      var r :| lo <= r < |bars| && IsAccumulation(bars[r], avg, ratio);
      AccumulationComplete(bars, lo, |bars|, avg, ratio, r);
    }
  }

  // ---------------------------------------------------------------
  // detect_box_range (292-318)
  // ---------------------------------------------------------------

  datatype Box = Box(top: real, bottom: real, nearTop: bool, breakout: bool)

  /** Top and bottom of the last `lookback` bars, whether the close is within `tolerance`
      below the top, and whether it is above it.  A zero close makes numpy divide by zero:
      +inf, NaN or -inf, so only a negative top counts as near. */
  function DetectBoxRange(bars: seq<Bar>, lookback: nat, tolerance: real): Option<Box>
    requires lookback >= 1
  {
    if |bars| < lookback then None
    else
      var recent := bars[|bars| - lookback..];
      var top := MaxOf(Highs(recent));
      var bottom := MinOf(Lows(recent));
      var current := bars[|bars| - 1].close;
      var near := if current == 0.0 then top < 0.0 else (top - current) / current <= tolerance;
      Some(Box(top, bottom, near, current > top))
  }

  /** The last bar lies inside the window, so a close at or below its own high never
      breaks out; the top and bottom bound every bar of the window. */
  lemma BoxBreakoutUnreachable(bars: seq<Bar>, lookback: nat, tolerance: real)
    requires 1 <= lookback <= |bars|
    requires bars[|bars| - 1].close <= bars[|bars| - 1].high
    ensures DetectBoxRange(bars, lookback, tolerance).Some?
    ensures !DetectBoxRange(bars, lookback, tolerance).value.breakout
  {
    var recent := bars[|bars| - lookback..];
    Columns(recent);
    MaxOfIsMax(Highs(recent));
    assert Highs(recent)[lookback - 1] == bars[|bars| - 1].high;
  }

  /** The box as evidently intended: over the `lookback` bars before the last one, so the
      last close is compared with the range it may break out of. */
  function DetectPriorBox(bars: seq<Bar>, lookback: nat, tolerance: real): Option<Box>
    requires lookback >= 1
  {
    if |bars| <= lookback then None
    else
      var prior := bars[|bars| - 1 - lookback..|bars| - 1];
      var top := MaxOf(Highs(prior));
      var bottom := MinOf(Lows(prior));
      var current := bars[|bars| - 1].close;
      var near := if current == 0.0 then top < 0.0 else (top - current) / current <= tolerance;
      Some(Box(top, bottom, near, current > top))
  }

  /** Over the prior window, a breakout is exactly a last close above the high of each of
      the `lookback` bars before it, and the box spans their highs and lows. */
  lemma PriorBoxBreakout(bars: seq<Bar>, lookback: nat, tolerance: real)
    requires 1 <= lookback < |bars|
    ensures DetectPriorBox(bars, lookback, tolerance).Some?
    ensures var box := DetectPriorBox(bars, lookback, tolerance).value;
      (box.breakout <==>
        forall i :: |bars| - 1 - lookback <= i < |bars| - 1 ==> bars[i].high < bars[|bars| - 1].close) &&
      (forall i :: |bars| - 1 - lookback <= i < |bars| - 1 ==> box.bottom <= bars[i].low && bars[i].high <= box.top)
  {
    var lo := |bars| - 1 - lookback;
    var prior := bars[lo..|bars| - 1];
    Columns(prior);
    MaxOfIsMax(Highs(prior));
    MinOfIsMin(Lows(prior));
    var top := MaxOf(Highs(prior));
    var close := bars[|bars| - 1].close;
    forall i | lo <= i < |bars| - 1
      ensures Highs(prior)[i - lo] == bars[i].high && Lows(prior)[i - lo] == bars[i].low
    {
      assert prior[i - lo] == bars[i];
    }
    if forall i :: lo <= i < |bars| - 1 ==> bars[i].high < close {
      var k :| 0 <= k < |prior| && Highs(prior)[k] == top;
      assert bars[lo + k].high == top;
    }
  }

  lemma BoxBounds(bars: seq<Bar>, lookback: nat, tolerance: real, i: nat)
    requires 1 <= lookback <= |bars| && |bars| - lookback <= i < |bars|
    ensures var box := DetectBoxRange(bars, lookback, tolerance).value;
      box.bottom <= bars[i].low && bars[i].high <= box.top
  {
    var recent := bars[|bars| - lookback..];
    Columns(recent);
    MaxOfIsMax(Highs(recent));
    MinOfIsMin(Lows(recent));
    assert Highs(recent)[i - (|bars| - lookback)] == bars[i].high;
    assert Lows(recent)[i - (|bars| - lookback)] == bars[i].low;
  }

  /** For a positive close, "near the top" means the top exceeds the close by at most
      `tolerance` times the close. */
  lemma NearTopMeans(bars: seq<Bar>, lookback: nat, tolerance: real)
    requires 1 <= lookback <= |bars| && bars[|bars| - 1].close > 0.0
    ensures var box := DetectBoxRange(bars, lookback, tolerance).value;
      box.nearTop <==> box.top - bars[|bars| - 1].close <= tolerance * bars[|bars| - 1].close
  {
    var box := DetectBoxRange(bars, lookback, tolerance).value;
    RatioAtMost(box.top - bars[|bars| - 1].close, bars[|bars| - 1].close, tolerance);
  }

  // ---------------------------------------------------------------
  // detect_volume_cliff (324-360)
  // ---------------------------------------------------------------

  datatype VolumeCliff = VolumeCliff(
    cliff: bool, ratio: Option<real>, decreasing: bool, declining: bool, exhaustion: bool)

  function CliffRatio(bars: seq<Bar>, lookback: nat): real
    requires 1 <= lookback <= |bars|
  {
    var avg := Mean(Volumes(bars[|bars| - lookback..]));
    if avg > 0.0 then bars[|bars| - 1].volume / avg else 1.0
  }

  /** Each of the last (up to three) volumes is at most the one before it. */
  predicate VolumesNonIncreasing(bars: seq<Bar>)
  {
    var t := Tail(bars, 3);
    (|t| >= 2 ==> t[1].volume <= t[0].volume) && (|t| >= 3 ==> t[2].volume <= t[1].volume)
  }

  function DetectVolumeCliff(bars: seq<Bar>, lookback: nat, threshold: real): (v: VolumeCliff)
    requires lookback >= 1
    ensures |bars| < lookback ==> v == VolumeCliff(false, None, false, false, false)
    ensures |bars| >= lookback ==>
      v.ratio.Some? && (v.declining <==> |bars| >= 3 && bars[|bars| - 1].close < bars[|bars| - 3].close)
    ensures v.exhaustion <==> v.cliff && v.declining
  {
    if |bars| < lookback then VolumeCliff(false, None, false, false, false)
    else
      var ratio := CliffRatio(bars, lookback);
      var decreasing := VolumesNonIncreasing(bars);
      var n := |bars|;
      var declining := n >= 3 && bars[n - 1].close < bars[n - 3].close;
      var cliff := ratio <= threshold && decreasing;
      VolumeCliff(cliff, Some(RoundTo(ratio, 3)), decreasing, declining, cliff && declining)
  }

  /** A cliff means exactly: the last volume is at most threshold times the average of the
      window (a ratio of 1.0 when that average is not positive), and the last three volumes
      never rose. */
  lemma CliffMeans(bars: seq<Bar>, lookback: nat, threshold: real)
    requires 1 <= lookback <= |bars|
    ensures var n := |bars|;
      var avg := Mean(Volumes(bars[n - lookback..]));
      DetectVolumeCliff(bars, lookback, threshold).cliff <==>
        (n >= 2 ==> bars[n - 1].volume <= bars[n - 2].volume) &&
        (n >= 3 ==> bars[n - 2].volume <= bars[n - 3].volume) &&
        (if avg > 0.0 then bars[n - 1].volume <= threshold * avg else 1.0 <= threshold)
  {
    var v := DetectVolumeCliff(bars, lookback, threshold);
    assert v.cliff == (CliffRatio(bars, lookback) <= threshold && VolumesNonIncreasing(bars));
    CliffRatioAtMost(bars, lookback, threshold);
    NonIncreasingMeans(bars);
  }

  lemma CliffRatioAtMost(bars: seq<Bar>, lookback: nat, threshold: real)
    requires 1 <= lookback <= |bars|
    ensures var avg := Mean(Volumes(bars[|bars| - lookback..]));
      CliffRatio(bars, lookback) <= threshold <==>
        if avg > 0.0 then bars[|bars| - 1].volume <= threshold * avg else 1.0 <= threshold
  {
    var avg := Mean(Volumes(bars[|bars| - lookback..]));
    if avg > 0.0 {
      RatioAtMost(bars[|bars| - 1].volume, avg, threshold);
    }
  }

  lemma NonIncreasingMeans(bars: seq<Bar>)
    ensures var n := |bars|;
      VolumesNonIncreasing(bars) <==>
        (n >= 2 ==> bars[n - 1].volume <= bars[n - 2].volume) &&
        (n >= 3 ==> bars[n - 2].volume <= bars[n - 3].volume)
  {
    var n := |bars|;
    var t := Tail(bars, 3);
    if n >= 3 {
      assert t[0] == bars[n - 3] && t[1] == bars[n - 2] && t[2] == bars[n - 1];
    } else {
      assert t == bars;
    }
  }

  // ---------------------------------------------------------------
  // check_resistance_wall (366-400)
  // ---------------------------------------------------------------

  /** One volume-profile bin: 가격대_하단, 가격대_상단, 중심가격, 거래량, 거래량비율. */
  datatype ProfileBin = ProfileBin(low: real, high: real, center: real, volume: real, share: real)

  predicate InBand(b: ProfileBin, price: real, pct: real)
  {
    price < b.center <= price * (1.0 + pct)
  }

  /** The bins whose centre lies in (price, price * (1 + pct)], in order. */
  function Band(profile: seq<ProfileBin>, price: real, pct: real): (r: seq<ProfileBin>)
    ensures forall b :: b in r <==> b in profile && InBand(b, price, pct)
  {
    if |profile| == 0 then []
    else (if InBand(profile[0], price, pct) then [profile[0]] else []) + Band(profile[1..], price, pct)
  }

  function Shares(bins: seq<ProfileBin>): (xs: seq<real>)
    ensures |xs| == |bins|
  {
    seq(|bins|, i requires 0 <= i < |bins| => bins[i].share)
  }

  datatype WallCheck = WallCheck(wall: bool, ratioPct: Option<real>)

  /** A wall is a band above the price that holds more than 15% of the traded volume.
      The three branches of the source collapse to one rule: an empty profile or band never
      holds a wall, because its share sum is zero. */
  function CheckResistanceWall(profile: seq<ProfileBin>, price: real, pct: real): (w: WallCheck)
    ensures w.wall <==> Sum(Shares(Band(profile, price, pct))) > 0.15
    ensures w.wall ==> exists b :: b in profile && InBand(b, price, pct)
    ensures |profile| > 0 && |Band(profile, price, pct)| == 0 ==> w.ratioPct == Some(0.0)
  {
    var above := Band(profile, price, pct);
    if |profile| == 0 then
      assert above == [];
      WallCheck(false, None)
    else if |above| == 0 then
      assert Shares(above) == [];
      WallCheck(false, Some(0.0))
    else
      assert above[0] in above;
      var r := Sum(Shares(above));
      WallCheck(r > 0.15, Some(RoundTo(r * 100.0, 2)))
  }

  // ---------------------------------------------------------------
  // calc_stop_loss (406-420) and calc_target_price (426-466)
  // ---------------------------------------------------------------

  datatype StopLevel = StopLevel(stop: int, atr: int)

  /** stop = round(entry - atr * multiplier). */
  function CalcStopLoss(entry: int, atr: real, multiplier: real): (s: StopLevel)
    ensures -0.5 <= s.stop as real - (entry as real - atr * multiplier) <= 0.5
    ensures atr * multiplier >= 0.0 ==> s.stop <= entry
  {
    var stop := entry as real - atr * multiplier;
    if atr * multiplier >= 0.0 then
      RoundBelowInteger(stop, entry);
      StopLevel(RoundHalfEven(stop), RoundHalfEven(atr))
    else StopLevel(RoundHalfEven(stop), RoundHalfEven(atr))
  }

  datatype Targets = Targets(target1: Option<int>, target2: Option<int>)

  function IntKey(v: int): SortKey { SortKey(v, 0.0) }

  /** The prices strictly above `current`, in their original order. */
  function Above(vs: seq<int>, current: real): seq<int>
  {
    if |vs| == 0 then []
    else (if vs[0] as real > current then [vs[0]] else []) + Above(vs[1..], current)
  }

  /** Filtering keeps exactly the entries above `current` and never adds repeats. */
  lemma {:induction false} AboveMeans(vs: seq<int>, current: real)
    ensures multiset(Above(vs, current)) <= multiset(vs)
    ensures forall v :: v in Above(vs, current) <==> v in vs && v as real > current
  {
    if |vs| > 0 {
      var v0, rest := vs[0], vs[1..];
      var h := if v0 as real > current then [v0] else [];
      var r := Above(rest, current);
      assert Above(vs, current) == h + r;
      AboveMeans(rest, current);
      assert vs == [v0] + rest;
      assert multiset(vs) == multiset{v0} + multiset(rest);
      assert multiset(h) <= multiset{v0};
      assert multiset(h + r) == multiset(h) + multiset(r);
      forall v
        ensures v in h + r <==> v in vs && v as real > current
      {
        assert v in h + r <==> v in h || v in r;
        assert v in vs <==> v == v0 || v in rest;
      }
    }
  }

  /** The swing window: the last 60 rows, or all rows when fewer. */
  function SwingWindow(bars: seq<Bar>): (w: seq<Bar>)
    requires |bars| >= 1
    ensures |w| >= 1
  {
    if |bars| >= 60 then bars[|bars| - 60..] else bars
  }

  /** The sorted extension prices strictly above the last close. */
  function UpsideTargets(bars: seq<Bar>): seq<int>
    requires |bars| >= 1
  {
    var recent := SwingWindow(bars);
    var ext := FibTable(Extension, MaxOf(Highs(recent)), MinOf(Lows(recent)), DefaultExtensionLevels);
    SortBy(Above(Values(ext), bars[|bars| - 1].close), IntKey)
  }

  function CalcTargetPrice(bars: seq<Bar>): Option<Targets>
  {
    if |bars| < 20 then None
    else
      var ups := UpsideTargets(bars);
      Some(Targets(if |ups| > 0 then Some(ups[0]) else None, if |ups| > 1 then Some(ups[1]) else None))
  }

  /** The extension prices of the default levels over the swing window. */
  function ExtensionPrices(bars: seq<Bar>): (ps: seq<int>)
    requires |bars| >= 1
    ensures |ps| == |DefaultExtensionLevels|
  {
    var recent := SwingWindow(bars);
    var hi, lo := MaxOf(Highs(recent)), MinOf(Lows(recent));
    seq(|DefaultExtensionLevels|, i requires 0 <= i < |DefaultExtensionLevels| =>
      FibPrice(Extension, hi, lo, DefaultExtensionLevels[i]))
  }

  /** The first two entries of an ascending sort are the smallest and the next smallest
      value, counting repeats. */
  lemma SortedFront(up: seq<int>)
    ensures var ups := SortBy(up, IntKey);
      |ups| == |up| &&
      (|ups| > 0 ==> ups[0] in up && forall v :: v in up ==> ups[0] <= v) &&
      (|ups| > 1 ==> (ups[0] <= ups[1] && ups[1] in up &&
         forall v :: v in multiset(up) - multiset{ups[0]} ==> ups[1] <= v))
  {
    var ups := SortBy(up, IntKey);
    SortByProperties(up, IntKey);
    if |ups| > 0 {
      assert ups[0] in multiset(up);
      forall v | v in up
        ensures ups[0] <= v
      {
        assert v in multiset(ups);
        var k :| 0 <= k < |ups| && ups[k] == v;
        if k > 0 {
          assert KeyLe(IntKey(ups[0]), IntKey(ups[k]));
        }
      }
    }
    if |ups| > 1 {
      assert KeyLe(IntKey(ups[0]), IntKey(ups[1]));
      assert ups[1] in multiset(up);
      assert ups == [ups[0]] + ups[1..];
      assert multiset(ups) == multiset{ups[0]} + multiset(ups[1..]);
      forall v | v in multiset(up) - multiset{ups[0]}
        ensures ups[1] <= v
      {
        assert v in multiset(ups[1..]);
        var k :| 0 <= k < |ups[1..]| && ups[1..][k] == v;
        if k > 0 {
          assert KeyLe(IntKey(ups[1]), IntKey(ups[k + 1]));
        }
      }
    }
  }

  /** The table's values are the extension prices of the five default levels. */
  lemma UpsideTargetsOfPrices(bars: seq<Bar>)
    requires |bars| >= 1
    ensures UpsideTargets(bars) == SortBy(Above(ExtensionPrices(bars), bars[|bars| - 1].close), IntKey)
  {
    var recent := SwingWindow(bars);
    var hi, lo := MaxOf(Highs(recent)), MinOf(Lows(recent));
    var t := FibTable(Extension, hi, lo, DefaultExtensionLevels);
    assert Distinct(DefaultExtensionLevels);
    FibTableDistinct(Extension, hi, lo, DefaultExtensionLevels);
    ValuesIndex(t);
    assert Values(t) == ExtensionPrices(bars);
  }

  /** Target 1 is the smallest extension price above the close, target 2 the next one
      (counting repeats), both strictly above the close and in ascending order; there is no
      target 1 exactly when no extension price exceeds the close. */
  lemma TargetsAreNextExtensions(bars: seq<Bar>)
    requires |bars| >= 20
    ensures var t := CalcTargetPrice(bars).value;
      var cur := bars[|bars| - 1].close;
      var up := Above(ExtensionPrices(bars), cur);
      (t.target1.None? <==> forall i :: 0 <= i < |DefaultExtensionLevels| ==> ExtensionPrices(bars)[i] as real <= cur) &&
      (t.target1.Some? ==> t.target1.value in up && forall v :: v in up ==> t.target1.value <= v) &&
      (t.target2.Some? ==> (t.target1.Some? && t.target1.value <= t.target2.value &&
         t.target2.value in up && forall v :: v in multiset(up) - multiset{t.target1.value} ==> t.target2.value <= v))
  {
    var cur := bars[|bars| - 1].close;
    var prices := ExtensionPrices(bars);
    var up := Above(prices, cur);
    UpsideTargetsOfPrices(bars);
    AboveMeans(prices, cur);
    SortedFront(up);
    if |up| == 0 {
      forall i | 0 <= i < |prices|
        ensures prices[i] as real <= cur
      {
        assert prices[i] in prices;
      }
    } else {
      assert up[0] in up;
    }
  }
}
