// The scan orchestrator of scanner.py (`QuantScanner.run_scan`): the market
// condition, the ticker universe with its manual fallback, the strategy
// subset, the ticker-by-strategy loop keeping triggered signals, the sort by
// confidence, the signal reports and the summary, with the `progress` field
// rewritten at every step.  The collector and the evaluators are parameters:
// `filter` answers `filter_stocks`, `check` runs one `check_*` method on a
// ticker (an exception is `Raised`).

module Scanner {
  import opened Common
  import opened Strategies
  import opened RiskManager
  import opened Report

  /** The `progress` dictionary: a percentage and a message. */
  datatype Progress = Progress(percent: int, message: string)

  const Idle := Progress(0, "대기 중...")
  const Done := Progress(100, "✅ 분석 완료")
  const MarketStep := Progress(5, "📊 증시 상황 분석 중...")
  const FilterStep := Progress(15, "📋 우량 종목 필터링 중...")

  /** The tickers scanned when the filter returns nothing. */
  const ManualTickers: seq<string> := ["005930", "000660", "373220", "207940", "005380"]

  /** The `strategy_map` of the loop: each key with its evaluator, in order. */
  const StrategyMap: seq<(string, StrategyType)> := [
    ("pullback", Pullback), ("bottom_escape", BottomEscape), ("golden_cross", GoldenCross),
    ("breakout", Breakout), ("convergence", EarlyAlignment)]

  /** The keys `scan_params` may carry; the cap and rank go to the stock filter. */
  datatype ScanParams = ScanParams(minMarketCap: Option<int>, topRank: Option<int>, strategies: Option<seq<string>>)

  /** `check_fn(ticker)` for each strategy. */
  type Check = (StrategyType, string) -> Outcome

  /** The tickers scanned: the filtered universe, or the manual list when it is empty. */
  function Universe(filtered: seq<string>): (tickers: seq<string>)
    ensures |tickers| > 0
  {
    if |filtered| == 0 then ManualTickers else filtered
  }

  /** The strategy keys run: the requested ones when given (even an empty list), else
      those the market condition allows. */
  function AllowedKeys(params: ScanParams, condition: MarketCondition): seq<string>
  {
    if params.strategies.Some? then params.strategies.value else condition.allowedStrategies
  }

  // ---------------------------------------------------------------
  // Progress (scanner.py:84, 96, 129-131, 211)
  // ---------------------------------------------------------------

  /** `20 + int(idx / total * 75)` for the idx-th ticker (from 1), on exact fractions. */
  function Percent(idx: nat, total: nat): int
    requires total > 0
  {
    20 + (idx * 75) / total
  }

  function TickerMessage(ticker: string, idx: nat, total: nat): string
  {
    "🔍 " + ticker + " 분석 중 (" + IntToString(idx) + "/" + IntToString(total) + ")"
  }

  /** The percentages of the first `n` tickers of `total`. */
  function Percents(n: nat, total: nat): (ps: seq<int>)
    requires total > 0
    ensures |ps| == n
  {
    seq(n, i requires 0 <= i < n => Percent(i + 1, total))
  }

  /** Every percentage a scan of `total` tickers shows, in order. */
  function Trail(total: nat): seq<int>
    requires total > 0
  {
    [5, 15] + Percents(total, total) + [100]
  }

  /** The trail of a scan, appended step by step. */
  lemma TrailAppend(start: seq<int>, ps: seq<int>)
    ensures start + [5] + [15] + ps + [100] == start + ([5, 15] + ps + [100])
  {
  }

  lemma PositiveFactor(y: int, d: int)
    requires d > 0 && y * d > 0
    ensures y > 0
  {
  }

  lemma DivMonotone(a: nat, b: nat, d: nat)
    requires a <= b && d > 0
    ensures a / d <= b / d
  {
    var q, r := a / d, b / d;
    assert (r - q + 1) * d == b - b % d - a + a % d + d;
    PositiveFactor(r - q + 1, d);
  }

  /** A ticker's percentage lies in [20, 95], grows with its position and is 95 at the last. */
  lemma PercentBounds(i: nat, j: nat, total: nat)
    requires 1 <= i <= j <= total
    ensures 20 <= Percent(i, total) <= Percent(j, total) <= 95
    ensures Percent(total, total) == 95
  {
    DivMonotone(i * 75, j * 75, total);
    DivMonotone(j * 75, total * 75, total);
    assert (total * 75) / total == 75;
  }

  /** The progress runs 5, 15, one step per ticker between 20 and 95 ending at 95, then
      100, never going back. */
  lemma TrailShape(total: nat)
    requires total > 0
    ensures var t := Trail(total);
      |t| == total + 3 && t[0] == 5 && t[1] == 15 && t[total + 1] == 95 && t[total + 2] == 100 &&
      (forall i :: 2 <= i < total + 2 ==> 20 <= t[i] <= 95) &&
      (forall i, j :: 0 <= i < j < |t| ==> t[i] <= t[j])
  {
    var t := Trail(total);
    forall i, j | 0 <= i < j < |t|
      ensures t[i] <= t[j]
    {
      if 2 <= i && j < total + 2 {
        PercentBounds(i - 1, j - 1, total);
      } else if 2 <= i < total + 2 {
        PercentBounds(i - 1, total, total);
      } else if 2 <= j < total + 2 {
        PercentBounds(1, j - 1, total);
      }
    }
    forall i | 2 <= i < total + 2
      ensures 20 <= t[i] <= 95
    {
      PercentBounds(i - 1, total, total);
    }
    PercentBounds(total, total, total);
  }

  // ---------------------------------------------------------------
  // The ticker-by-strategy loop (scanner.py:129-153)
  // ---------------------------------------------------------------

  /** The triggered signals the allowed entries of `entries` return for one ticker, in order;
      an evaluator that raises is skipped. */
  function KeptOver(ticker: string, allowed: seq<string>, check: Check, entries: seq<(string, StrategyType)>)
    : seq<Signal>
  {
    if |entries| == 0 then []
    else
      var (key, t) := entries[|entries| - 1];
      var o := check(t, ticker);
      KeptOver(ticker, allowed, check, entries[..|entries| - 1]) +
      (if key in allowed && o.Returned? && o.signal.triggered then [o.signal] else [])
  }

  function Kept(ticker: string, allowed: seq<string>, check: Check): seq<Signal>
  {
    KeptOver(ticker, allowed, check, StrategyMap)
  }

  /** The signals kept over a list of tickers, ticker by ticker. */
  function Collected(tickers: seq<string>, allowed: seq<string>, check: Check): seq<Signal>
  {
    if |tickers| == 0 then []
    else Collected(tickers[..|tickers| - 1], allowed, check) + Kept(tickers[|tickers| - 1], allowed, check)
  }

  /** One ticker's pass over the strategy map. */
  method ScanTicker(ticker: string, allowed: seq<string>, check: Check) returns (kept: seq<Signal>)
    ensures kept == Kept(ticker, allowed, check)
  {
    kept := ScanEntries(ticker, allowed, check, StrategyMap);
  }

  /** The pass over a list of strategy entries, in order. */
  method ScanEntries(ticker: string, allowed: seq<string>, check: Check, entries: seq<(string, StrategyType)>)
    returns (kept: seq<Signal>)
    ensures kept == KeptOver(ticker, allowed, check, entries)
  {
    kept := [];
    var j := 0;
    while j < |entries|
      invariant 0 <= j <= |entries|
      invariant kept == KeptOver(ticker, allowed, check, entries[..j])
    {
      var (key, t) := entries[j];
      if key in allowed {
        var o := check(t, ticker);
        if o.Returned? && o.signal.triggered {
          kept := kept + [o.signal];
        }
      }
      PrefixSnoc(entries, j + 1);
      j := j + 1;
    }
    assert entries[..j] == entries;
  }

  /** A signal is kept for a ticker exactly when an allowed entry returned it triggered. */
  lemma {:induction false} KeptMeaning(ticker: string, allowed: seq<string>, check: Check,
                                       entries: seq<(string, StrategyType)>, s: Signal)
    ensures s in KeptOver(ticker, allowed, check, entries) <==>
      exists j :: 0 <= j < |entries| && entries[j].0 in allowed &&
                  check(entries[j].1, ticker) == Returned(s) && s.triggered
  {
    if |entries| > 0 {
      var init := entries[..|entries| - 1];
      KeptMeaning(ticker, allowed, check, init, s);
      if exists j :: 0 <= j < |init| && init[j].0 in allowed && check(init[j].1, ticker) == Returned(s) && s.triggered {
        var j :| 0 <= j < |init| && init[j].0 in allowed && check(init[j].1, ticker) == Returned(s) && s.triggered;
        assert entries[j] == init[j];
      }
      if exists j :: 0 <= j < |entries| && entries[j].0 in allowed &&
                     check(entries[j].1, ticker) == Returned(s) && s.triggered {
        var j :| 0 <= j < |entries| && entries[j].0 in allowed &&
                 check(entries[j].1, ticker) == Returned(s) && s.triggered;
        if j < |init| {
          assert init[j] == entries[j];
        }
      }
    }
  }

  /** The scan keeps a signal exactly when it is kept for one of the tickers. */
  lemma {:induction false} CollectedHas(tickers: seq<string>, allowed: seq<string>, check: Check, s: Signal)
    ensures s in Collected(tickers, allowed, check) <==>
      exists i :: 0 <= i < |tickers| && s in Kept(tickers[i], allowed, check)
  {
    if |tickers| > 0 {
      var init := tickers[..|tickers| - 1];
      CollectedHas(init, allowed, check, s);
      if exists i :: 0 <= i < |init| && s in Kept(init[i], allowed, check) {
        var i :| 0 <= i < |init| && s in Kept(init[i], allowed, check);
        assert tickers[i] == init[i];
      }
      if exists i :: 0 <= i < |tickers| && s in Kept(tickers[i], allowed, check) {
        var i :| 0 <= i < |tickers| && s in Kept(tickers[i], allowed, check);
        if i < |init| {
          assert init[i] == tickers[i];
        }
      }
    }
  }

  /** The scan keeps a signal exactly when, for some scanned ticker, an allowed strategy
      returned it triggered. */
  lemma CollectedMeaning(tickers: seq<string>, allowed: seq<string>, check: Check, s: Signal)
    ensures s in Collected(tickers, allowed, check) <==>
      exists i, j :: 0 <= i < |tickers| && 0 <= j < |StrategyMap| && StrategyMap[j].0 in allowed &&
                     check(StrategyMap[j].1, tickers[i]) == Returned(s) && s.triggered
  {
    CollectedHas(tickers, allowed, check, s);
    forall i | 0 <= i < |tickers|
      ensures s in Kept(tickers[i], allowed, check) <==>
        exists j :: 0 <= j < |StrategyMap| && StrategyMap[j].0 in allowed &&
                    check(StrategyMap[j].1, tickers[i]) == Returned(s) && s.triggered
    {
      KeptMeaning(tickers[i], allowed, check, StrategyMap, s);
    }
  }

  /** Two evaluators that agree on the allowed strategies give the same signals for a ticker:
      a strategy outside the allowed keys is never run. */
  lemma {:induction false} KeptIgnoresDisallowed(ticker: string, allowed: seq<string>, c1: Check, c2: Check,
                                                 entries: seq<(string, StrategyType)>)
    requires forall j :: 0 <= j < |entries| && entries[j].0 in allowed ==>
               c1(entries[j].1, ticker) == c2(entries[j].1, ticker)
    ensures KeptOver(ticker, allowed, c1, entries) == KeptOver(ticker, allowed, c2, entries)
  {
    if |entries| > 0 {
      var init := entries[..|entries| - 1];
      assert forall j :: 0 <= j < |init| ==> init[j] == entries[j];
      KeptIgnoresDisallowed(ticker, allowed, c1, c2, init);
    }
  }

  /** The scan's signals do not depend on what a disallowed strategy would answer. */
  lemma {:induction false} CollectedIgnoresDisallowed(tickers: seq<string>, allowed: seq<string>, c1: Check, c2: Check)
    requires forall j, x :: 0 <= j < |StrategyMap| && StrategyMap[j].0 in allowed ==>
               c1(StrategyMap[j].1, x) == c2(StrategyMap[j].1, x)
    ensures Collected(tickers, allowed, c1) == Collected(tickers, allowed, c2)
  {
    if |tickers| > 0 {
      CollectedIgnoresDisallowed(tickers[..|tickers| - 1], allowed, c1, c2);
      KeptIgnoresDisallowed(tickers[|tickers| - 1], allowed, c1, c2, StrategyMap);
    }
  }

  /** The check the engine performs: the evaluator on the collector's answers for the ticker. */
  function EngineCheck(markets: string -> Market, cfg: Config.StrategyConfig, mult: real): Check
    requires ValidStrategyConfig(cfg)
  {
    (t: StrategyType, ticker: string) =>
      Evaluate(t, ticker, markets(ticker).name, ReadingsOf(markets(ticker), cfg), cfg, mult)
  }

  /** An evaluator whose every returned signal is coherent and about the ticker asked. */
  ghost predicate CoherentCheck(check: Check)
  {
    forall t, x :: check(t, x).Returned? ==> Coherent(check(t, x).signal) && check(t, x).signal.ticker == x
  }

  /** The engine's evaluators return coherent signals about the ticker asked. */
  lemma EngineCheckCoherent(markets: string -> Market, cfg: Config.StrategyConfig, mult: real)
    requires ValidStrategyConfig(cfg)
    ensures CoherentCheck(EngineCheck(markets, cfg, mult))
  {
    var check := EngineCheck(markets, cfg, mult);
    forall t, x | check(t, x).Returned?
      ensures Coherent(check(t, x).signal) && check(t, x).signal.ticker == x
    {
      var m := markets(x);
      EvaluateFacts(t, x, m.name, ReadingsOf(m, cfg), cfg, mult);
    }
  }

  /** Every kept signal is one an evaluator returned: triggered, about a scanned ticker, and
      coherent when the evaluators are. */
  lemma CollectedFacts(tickers: seq<string>, allowed: seq<string>, check: Check)
    ensures var sigs := Collected(tickers, allowed, check);
      forall k :: 0 <= k < |sigs| ==>
        sigs[k].triggered &&
        (CoherentCheck(check) ==> Coherent(sigs[k]) && sigs[k].ticker in tickers)
  {
    var sigs := Collected(tickers, allowed, check);
    forall k | 0 <= k < |sigs|
      ensures sigs[k].triggered && (CoherentCheck(check) ==> Coherent(sigs[k]) && sigs[k].ticker in tickers)
    {
      CollectedMeaning(tickers, allowed, check, sigs[k]);
      var i, j :| 0 <= i < |tickers| && 0 <= j < |StrategyMap| && StrategyMap[j].0 in allowed &&
                  check(StrategyMap[j].1, tickers[i]) == Returned(sigs[k]) && sigs[k].triggered;
    }
  }

  // ---------------------------------------------------------------
  // Sort, reports and summary (scanner.py:159-198)
  // ---------------------------------------------------------------

  /** `sort(key=confidence, reverse=True)` is stable: an ascending sort on the negated key. */
  function ConfidenceKey(s: Signal): SortKey
  {
    SortKey(-s.confidence, 0.0)
  }

  function ByConfidence(sigs: seq<Signal>): seq<Signal>
  {
    SortBy(sigs, ConfidenceKey)
  }

  /** The sorted list holds the same signals, highest confidence first, and signals of
      equal confidence keep their scan order. */
  lemma ByConfidenceOrder(sigs: seq<Signal>)
    ensures var out := ByConfidence(sigs);
      multiset(out) == multiset(sigs) && |out| == |sigs| &&
      (forall i, j :: 0 <= i < j < |out| ==> out[i].confidence >= out[j].confidence) &&
      (forall k :: WithKey(out, ConfidenceKey, k) == WithKey(sigs, ConfidenceKey, k))
  {
    SortByProperties(sigs, ConfidenceKey);
    forall k
      ensures WithKey(ByConfidence(sigs), ConfidenceKey, k) == WithKey(sigs, ConfidenceKey, k)
    {
      SortByStable(sigs, ConfidenceKey, k);
    }
  }

  /** The signal dictionaries of the sorted signals. */
  function Records(sigs: seq<Signal>, detailsOf: Signal -> Value, now: string): seq<SignalRecord>
  {
    MapSeq((s: Signal) => SignalToDict(s, detailsOf(s), now), sigs)
  }

  /** The approved signals, in order: those a Telegram sender is given. */
  function ApprovedOnes(sigs: seq<Signal>): seq<Signal>
  {
    if |sigs| == 0 then []
    else ApprovedOnes(sigs[..|sigs| - 1]) + (if sigs[|sigs| - 1].verdict == Approve then [sigs[|sigs| - 1]] else [])
  }

  /** Reports each signal: its dictionary, and the Telegram message of an approved signal
      when a sender is configured. */
  method ReportSignals(sigs: seq<Signal>, telegram: bool, detailsOf: Signal -> Value, now: string)
    returns (records: seq<SignalRecord>, sent: seq<Signal>)
    ensures records == Records(sigs, detailsOf, now)
    ensures sent == if telegram then ApprovedOnes(sigs) else []
  {
    records := [];
    sent := [];
    var k := 0;
    while k < |sigs|
      invariant 0 <= k <= |sigs|
      invariant records == Records(sigs[..k], detailsOf, now)
      invariant sent == if telegram then ApprovedOnes(sigs[..k]) else []
    {
      var s := sigs[k];
      records := records + [SignalToDict(s, detailsOf(s), now)];
      if telegram && s.verdict == Approve {
        sent := sent + [s];
      }
      RecordsSnoc(sigs, k, detailsOf, now);
      k := k + 1;
    }
    assert sigs[..k] == sigs;
  }

  /** One more signal adds its dictionary at the end. */
  lemma RecordsSnoc(sigs: seq<Signal>, k: nat, detailsOf: Signal -> Value, now: string)
    requires k < |sigs|
    ensures sigs[..k + 1][..k] == sigs[..k] && sigs[..k + 1][k] == sigs[k]
    ensures Records(sigs[..k + 1], detailsOf, now) == Records(sigs[..k], detailsOf, now) + [SignalToDict(sigs[k], detailsOf(sigs[k]), now)]
  {
    PrefixSnoc(sigs, k + 1);
    MapSeqAppend((s: Signal) => SignalToDict(s, detailsOf(s), now), sigs[..k], [sigs[k]]);
  }

  /** `len([s for s in sigs if s.verdict == v])`. */
  function CountVerdict(sigs: seq<Signal>, v: string): nat
  {
    if |sigs| == 0 then 0
    else CountVerdict(sigs[..|sigs| - 1], v) + (if sigs[|sigs| - 1].verdict == v then 1 else 0)
  }

  /** With coherent signals every signal is approved or watched, never both. */
  lemma {:induction false} ApprovedPlusWatch(sigs: seq<Signal>)
    requires forall k :: 0 <= k < |sigs| ==> Coherent(sigs[k])
    ensures CountVerdict(sigs, Approve) + CountVerdict(sigs, Watch) == |sigs|
  {
    if |sigs| > 0 {
      ApprovedPlusWatch(sigs[..|sigs| - 1]);
      assert Approve[0] != Watch[0];
    }
  }

  /** The signals of each strategy value, counted: a dict in order of first appearance. */
  function Breakdown(sigs: seq<Signal>): seq<(string, nat)>
  {
    if |sigs| == 0 then []
    else
      var d := Breakdown(sigs[..|sigs| - 1]);
      var key := StrategyValue(sigs[|sigs| - 1].strategy);
      Put<string, nat>(d, key, Count(d, key) + 1)
  }

  /** `counts.get(key, 0)`. */
  function Count(d: seq<(string, nat)>, key: string): nat
  {
    match Lookup(d, key)
    case None => 0
    case Some(c) => c
  }

  /** `strategy_counts[key] = strategy_counts.get(key, 0) + 1` over the signals. */
  method CountStrategies(sigs: seq<Signal>) returns (counts: seq<(string, nat)>)
    ensures counts == Breakdown(sigs)
  {
    counts := [];
    var k := 0;
    while k < |sigs|
      invariant 0 <= k <= |sigs|
      invariant counts == Breakdown(sigs[..k])
    {
      var key := StrategyValue(sigs[k].strategy);
      counts := Put<string, nat>(counts, key, Count(counts, key) + 1);
      PrefixSnoc(sigs, k + 1);
      k := k + 1;
    }
    assert sigs[..k] == sigs;
  }

  /** How many signals carry a strategy value. */
  function WithValue(sigs: seq<Signal>, key: string): nat
  {
    if |sigs| == 0 then 0
    else WithValue(sigs[..|sigs| - 1], key) + (if StrategyValue(sigs[|sigs| - 1].strategy) == key then 1 else 0)
  }

  function Total(d: seq<(string, nat)>): nat
  {
    if |d| == 0 then 0 else d[0].1 + Total(d[1..])
  }

  /** Replacing or adding one entry changes the total by the difference. */
  lemma {:induction false} TotalPut(d: seq<(string, nat)>, k: string, v: nat)
    ensures Total(Put(d, k, v)) == Total(d) + v - Count(d, k)
  {
    if |d| > 0 && d[0].0 != k {
      TotalPut(d[1..], k, v);
    }
  }

  /** Each strategy value counts exactly its signals, values without signals are absent, and
      the counts add up to the number of signals. */
  lemma {:induction false} BreakdownCounts(sigs: seq<Signal>)
    ensures Total(Breakdown(sigs)) == |sigs|
    ensures forall key :: Count(Breakdown(sigs), key) == WithValue(sigs, key)
    ensures forall key :: Lookup(Breakdown(sigs), key).Some? <==> WithValue(sigs, key) > 0
  {
    if |sigs| > 0 {
      var init := sigs[..|sigs| - 1];
      var d := Breakdown(init);
      var key := StrategyValue(sigs[|sigs| - 1].strategy);
      BreakdownCounts(init);
      TotalPut(d, key, Count(d, key) + 1);
      forall q
        ensures Count(Breakdown(sigs), q) == WithValue(sigs, q)
        ensures Lookup(Breakdown(sigs), q).Some? <==> WithValue(sigs, q) > 0
      {
        LookupPut<string, nat>(d, key, Count(d, key) + 1, q);
        assert Breakdown(sigs) == Put<string, nat>(d, key, Count(d, key) + 1);
        assert WithValue(sigs, q) == WithValue(init, q) + (if key == q then 1 else 0);
        assert Count(d, q) == WithValue(init, q);
      }
    }
  }

  /** The counts have one entry per strategy value. */
  lemma {:induction false} BreakdownDistinct(sigs: seq<Signal>)
    ensures DistinctKeys(Breakdown(sigs))
  {
    if |sigs| > 0 {
      var d := Breakdown(sigs[..|sigs| - 1]);
      var key := StrategyValue(sigs[|sigs| - 1].strategy);
      BreakdownDistinct(sigs[..|sigs| - 1]);
      if Lookup(d, key).None? {
        PutFresh<string, nat>(d, key, 1);
        LookupAbsent(d, key);
        assert Breakdown(sigs) == d + [(key, 1)];
      } else {
        PutPresent<string, nat>(d, key, Count(d, key) + 1);
        assert Breakdown(sigs) == Put<string, nat>(d, key, Count(d, key) + 1);
      }
    }
  }

  datatype Summary = Summary(
    totalScanned: nat, totalSignals: nat, approved: nat, watch: nat,
    strategyBreakdown: seq<(string, nat)>, elapsedSeconds: real, marketPhase: string)

  /** The dictionary `run_scan` returns (`scan_time` is the clock's ISO time). */
  datatype ScanResults = ScanResults(
    scanTime: string, marketCondition: ConditionRecord, signals: seq<SignalRecord>, summary: Summary)

  function SummaryOf(total: nat, sigs: seq<Signal>, elapsed: real, condition: MarketCondition): Summary
  {
    Summary(total, |sigs|, CountVerdict(sigs, Approve), CountVerdict(sigs, Watch), Breakdown(sigs),
            RoundTo(elapsed, 1), condition.marketPhase)
  }

  /** The signals a scan reports, sorted. */
  function ScanSignals(params: ScanParams, condition: MarketCondition,
                       filter: (Option<int>, Option<int>) -> seq<string>, check: Check): seq<Signal>
  {
    var tickers := Universe(filter(params.minMarketCap, params.topRank));
    ByConfidence(Collected(tickers, AllowedKeys(params, condition), check))
  }

  function ResultsOf(params: ScanParams, condition: MarketCondition,
                     filter: (Option<int>, Option<int>) -> seq<string>, check: Check,
                     detailsOf: Signal -> Value, now: string, elapsed: real): ScanResults
  {
    var tickers := Universe(filter(params.minMarketCap, params.topRank));
    var sigs := ScanSignals(params, condition, filter, check);
    ScanResults(now, ConditionToDict(condition), Records(sigs, detailsOf, now),
                SummaryOf(|tickers|, sigs, elapsed, condition))
  }

  /** The summary of coherent signals agrees with itself: approved plus watched and the
      per-strategy counts each add up to the number of signals. */
  lemma SummaryOfCounts(total: nat, sigs: seq<Signal>, elapsed: real, condition: MarketCondition)
    requires forall k :: 0 <= k < |sigs| ==> Coherent(sigs[k])
    ensures var r := SummaryOf(total, sigs, elapsed, condition);
      r.totalScanned == total && r.totalSignals == |sigs| &&
      r.approved + r.watch == r.totalSignals && Total(r.strategyBreakdown) == r.totalSignals &&
      DistinctKeys(r.strategyBreakdown)
  {
    ApprovedPlusWatch(sigs);
    BreakdownCounts(sigs);
    BreakdownDistinct(sigs);
  }

  /** Sorting keeps every signal coherent. */
  lemma SortedCoherent(all: seq<Signal>)
    requires forall k :: 0 <= k < |all| ==> Coherent(all[k])
    ensures forall k :: 0 <= k < |ByConfidence(all)| ==> Coherent(ByConfidence(all)[k])
  {
    var sigs := ByConfidence(all);
    ByConfidenceOrder(all);
    forall k | 0 <= k < |sigs|
      ensures Coherent(sigs[k])
    {
      assert sigs[k] in multiset(sigs);
      assert sigs[k] in multiset(all);
      var k' :| 0 <= k' < |all| && all[k'] == sigs[k];
    }
  }

  /** The end of a scan over sorted signals: each is reported, then counted in the summary. */
  method FinishScan(all: seq<Signal>, total: nat, condition: MarketCondition, telegram: bool,
                detailsOf: Signal -> Value, now: string, elapsed: real)
    returns (results: ScanResults, sent: seq<Signal>)
    ensures results == ScanResults(now, ConditionToDict(condition), Records(all, detailsOf, now),
                                   SummaryOf(total, all, elapsed, condition))
    ensures sent == if telegram then ApprovedOnes(all) else []
  {
    var records;
    records, sent := ReportSignals(all, telegram, detailsOf, now);
    var approved := CountVerdict(all, Approve);
    var watch := CountVerdict(all, Watch);
    var counts := CountStrategies(all);
    var summary := Summary(total, |all|, approved, watch, counts, RoundTo(elapsed, 1), condition.marketPhase);
    results := ScanResults(now, ConditionToDict(condition), records, summary);
  }

  /** With coherent evaluators a scan's summary counts the scanned tickers, and its signal
      counts add up to the number of signals reported. */
  lemma SummaryCounts(params: ScanParams, condition: MarketCondition,
                      filter: (Option<int>, Option<int>) -> seq<string>, check: Check,
                      detailsOf: Signal -> Value, now: string, elapsed: real)
    requires CoherentCheck(check)
    ensures var r := ResultsOf(params, condition, filter, check, detailsOf, now, elapsed);
      r.summary.totalScanned == |Universe(filter(params.minMarketCap, params.topRank))| &&
      r.summary.approved + r.summary.watch == r.summary.totalSignals == |r.signals| &&
      Total(r.summary.strategyBreakdown) == r.summary.totalSignals
  {
    var tickers := Universe(filter(params.minMarketCap, params.topRank));
    var allowed := AllowedKeys(params, condition);
    var all := Collected(tickers, allowed, check);
    var sigs := ByConfidence(all);
    forall k | 0 <= k < |all|
      ensures Coherent(all[k])
    {
      CollectedMeaning(tickers, allowed, check, all[k]);
      var i, j :| 0 <= i < |tickers| && 0 <= j < |StrategyMap| && StrategyMap[j].0 in allowed &&
                  check(StrategyMap[j].1, tickers[i]) == Returned(all[k]) && all[k].triggered;
      assert check(StrategyMap[j].1, tickers[i]).Returned?;
    }
    SortedCoherent(all);
    SummaryOfCounts(|tickers|, sigs, elapsed, condition);
  }

  // ---------------------------------------------------------------
  // signal_to_dict as written (scanner.py:165-172)
  // ---------------------------------------------------------------

  /** The report loop as written: the first `signal_to_dict` that raises ends the scan. */
  function RecordsAsWritten(sigs: seq<Signal>, detailsOf: Signal -> Value, now: string): Option<seq<SignalRecord>>
  {
    if |sigs| == 0 then Some([])
    else
      match SignalToDictAsWritten(sigs[0], detailsOf(sigs[0]), now)
      case AttributeError(_) => None
      case Built(r) =>
        match RecordsAsWritten(sigs[1..], detailsOf, now)
        case None => None
        case Some(rs) => Some([r] + rs)
  }

  /** As written, the report loop fails exactly when there is a signal to report. */
  lemma {:induction false} RecordsAsWrittenFail(sigs: seq<Signal>, detailsOf: Signal -> Value, now: string)
    ensures RecordsAsWritten(sigs, detailsOf, now).None? <==> |sigs| > 0
  {
    if |sigs| > 0 {
      SignalToDictAlwaysRaises(sigs[0], detailsOf(sigs[0]), now);
    }
  }

  /** The scan keeps some signal exactly when an allowed strategy triggered on a scanned ticker. */
  lemma CollectedNonEmpty(tickers: seq<string>, allowed: seq<string>, check: Check)
    ensures |Collected(tickers, allowed, check)| > 0 <==>
      exists i, j, s :: 0 <= i < |tickers| && 0 <= j < |StrategyMap| && StrategyMap[j].0 in allowed &&
                        check(StrategyMap[j].1, tickers[i]) == Returned(s) && s.triggered
  {
    var all := Collected(tickers, allowed, check);
    if exists i, j, s :: 0 <= i < |tickers| && 0 <= j < |StrategyMap| && StrategyMap[j].0 in allowed &&
                         check(StrategyMap[j].1, tickers[i]) == Returned(s) && s.triggered {
      var i, j, s :| 0 <= i < |tickers| && 0 <= j < |StrategyMap| && StrategyMap[j].0 in allowed &&
                     check(StrategyMap[j].1, tickers[i]) == Returned(s) && s.triggered;
      CollectedMeaning(tickers, allowed, check, s);
    }
    if |all| > 0 {
      CollectedMeaning(tickers, allowed, check, all[0]);
    }
  }

  /** As written, a scan fails exactly when some allowed strategy triggered on some scanned
      ticker; it completes only when there is nothing to report. */
  lemma ScanAsWrittenRaises(params: ScanParams, condition: MarketCondition,
                            filter: (Option<int>, Option<int>) -> seq<string>, check: Check,
                            detailsOf: Signal -> Value, now: string)
    ensures var tickers := Universe(filter(params.minMarketCap, params.topRank));
      RecordsAsWritten(ScanSignals(params, condition, filter, check), detailsOf, now).None? <==>
      exists i, j, s :: 0 <= i < |tickers| && 0 <= j < |StrategyMap| &&
                        StrategyMap[j].0 in AllowedKeys(params, condition) &&
                        check(StrategyMap[j].1, tickers[i]) == Returned(s) && s.triggered
  {
    var tickers := Universe(filter(params.minMarketCap, params.topRank));
    var all := Collected(tickers, AllowedKeys(params, condition), check);
    ByConfidenceOrder(all);
    RecordsAsWrittenFail(ByConfidence(all), detailsOf, now);
    CollectedNonEmpty(tickers, AllowedKeys(params, condition), check);
  }

  // ---------------------------------------------------------------
  // The scanner object (scanner.py:37-213)
  // ---------------------------------------------------------------

  class QuantScanner {
    var progress: Progress
    var scanResults: seq<SignalRecord>
    var marketCondition: Option<MarketCondition>
    /** Whether a Telegram sender was built (`telegram_config.enabled`). */
    const telegramEnabled: bool
    /** Every percentage `progress` has shown, in order. */
    ghost var progressTrail: seq<int>

    constructor(telegramEnabled: bool)
      ensures progress == Idle && scanResults == [] && marketCondition == None
      ensures this.telegramEnabled == telegramEnabled && progressTrail == [Idle.percent]
    {
      this.telegramEnabled := telegramEnabled;
      progress := Idle;
      scanResults := [];
      marketCondition := None;
      progressTrail := [Idle.percent];
    }

    /**
     * `run_scan`, with the signal dictionaries built as `SignalToDict`.  The
     * market condition is what `analyze_market_condition` answers (the source
     * asks twice and keeps the second answer); `sent` lists the signals given
     * to the Telegram sender.
     */
    method RunScan(params: ScanParams, condition: MarketCondition,
                   filter: (Option<int>, Option<int>) -> seq<string>, check: Check,
                   detailsOf: Signal -> Value, now: string, elapsed: real)
      returns (results: ScanResults, sent: seq<Signal>)
      modifies this
      ensures results == ResultsOf(params, condition, filter, check, detailsOf, now, elapsed)
      ensures sent == if telegramEnabled then ApprovedOnes(ScanSignals(params, condition, filter, check)) else []
      ensures scanResults == results.signals && marketCondition == Some(condition) && progress == Done
      ensures progressTrail == old(progressTrail) + Trail(|Universe(filter(params.minMarketCap, params.topRank))|)
    {
      BeginScan(condition);
      var filtered := filter(params.minMarketCap, params.topRank);
      var tickers := if |filtered| == 0 then ManualTickers else filtered;

      var allowed := if params.strategies.Some? then params.strategies.value else condition.allowedStrategies;
      assert tickers == Universe(filter(params.minMarketCap, params.topRank));
      assert allowed == AllowedKeys(params, condition);
      var all := ScanTickers(tickers, allowed, check);
      var total := |tickers|;

      all := ByConfidence(all);
      assert all == ScanSignals(params, condition, filter, check);
      results, sent := FinishScan(all, total, condition, telegramEnabled, detailsOf, now, elapsed);

      EndScan(results.signals);
      TrailAppend(old(progressTrail), Percents(total, total));
    }

    /** The market condition is recorded while the progress shows its two first steps. */
    method BeginScan(condition: MarketCondition)
      modifies this`marketCondition, this`progress, this`progressTrail
      ensures marketCondition == Some(condition) && progress == FilterStep
      ensures progressTrail == old(progressTrail) + [MarketStep.percent] + [FilterStep.percent]
    {
      marketCondition := Some(condition);
      progress := MarketStep;
      progressTrail := progressTrail + [MarketStep.percent];
      progress := FilterStep;
      progressTrail := progressTrail + [FilterStep.percent];
    }

    /** The reported signals are kept for `get_latest_results` and the progress shows 100. */
    method EndScan(records: seq<SignalRecord>)
      modifies this`scanResults, this`progress, this`progressTrail
      ensures scanResults == records && progress == Done
      ensures progressTrail == old(progressTrail) + [Done.percent]
    {
      scanResults := records;
      progress := Done;
      progressTrail := progressTrail + [Done.percent];
    }

    /** The per-ticker loop: the progress names each ticker in turn while its allowed
        strategies run. */
    method ScanTickers(tickers: seq<string>, allowed: seq<string>, check: Check) returns (all: seq<Signal>)
      requires |tickers| > 0
      modifies this`progress, this`progressTrail
      ensures all == Collected(tickers, allowed, check)
      ensures progressTrail == old(progressTrail) + Percents(|tickers|, |tickers|)
    {
      all := [];
      var total := |tickers|;
      var idx := 0;
      while idx < total
        invariant 0 <= idx <= total
        invariant all == Collected(tickers[..idx], allowed, check)
        invariant progressTrail == old(progressTrail) + Percents(idx, total)
      {
        var ticker := tickers[idx];
        progress := Progress(Percent(idx + 1, total), TickerMessage(ticker, idx + 1, total));
        progressTrail := progressTrail + [progress.percent];
        var kept := ScanTicker(ticker, allowed, check);
        all := all + kept;
        PrefixSnoc(tickers, idx + 1);
        assert Percents(idx + 1, total) == Percents(idx, total) + [Percent(idx + 1, total)];
        idx := idx + 1;
      }
      assert tickers[..idx] == tickers;
    }

    /** `get_latest_results`: the signal dictionaries of the last completed scan. */
    method GetLatestResults() returns (r: seq<SignalRecord>)
      ensures r == scanResults
    {
      r := scanResults;
    }
  }
}
