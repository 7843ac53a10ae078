// The three-stage intersection filter of the dashboard server
// (`analyze_intersections` in server.py): signals are grouped by ticker,
// each group passes or fails pattern overlap, supply synchronisation and
// the market stage, every signal of the group is graded S / A / B+ / B
// accordingly, and the list is sorted by grade and then by confidence.

module Server {
  import opened Common
  import DataCollector
  import RiskManager
  import Strategies

  datatype Grade = S | A | BPlus | B

  function GradeName(g: Grade): string
  {
    match g
    case S => "S"
    case A => "A"
    case BPlus => "B+"
    case B => "B"
  }

  /** The part of a supply/demand reply the grading reads: `buy_count`, `details` and the acceleration label. */
  datatype SupplyView = SupplyView(buyCount: int, details: seq<(string, int)>, accel: string)

  const Pending := "분석 중"

  /** The default kept when supply is not queried or the query raises. */
  const PendingSupply := SupplyView(0, [], Pending)

  const AccelPrefix := "🚀 수급 가속: "

  function View(sd: DataCollector.SupplyDemand): SupplyView
  {
    SupplyView(sd.buyCount, sd.details, sd.accelLabel)
  }

  datatype FilterResults = FilterResults(
    patternOverlap: bool, patternCount: nat, supplySync: bool, supplyBuyCount: int,
    supplyDetails: seq<(string, int)>, marketOk: bool, marketPhase: string)

  /** The keys the filter writes into every signal of a group. */
  datatype Graded = Graded(
    multiStrategyCount: nat, multiStrategies: set<string>, supplyAcceleration: string,
    filterResults: FilterResults, grade: Grade, gradeLabel: string)

  /**
   * A signal dictionary as the filter sees it; the keys the filter may add
   * are `None` until it has added them.
   */
  datatype SignalDict = SignalDict(
    ticker: string, name: string, strategy: string, confidence: real, verdict: string,
    reasons: Option<seq<string>>, graded: Option<Graded>,
    confidenceBonus: Option<int>, originalConfidence: Option<real>)

  /** The outcome of the three stages for one ticker. */
  datatype Stages = Stages(
    strategies: set<string>, overlap: bool, supply: SupplyView, sync: bool,
    marketOk: bool, phase: string)

  /** `collector.get_supply_demand` per ticker; `None` when the call raises. */
  type Supply = string -> Option<DataCollector.SupplyDemand>

  // ---------------------------------------------------------------
  // The stages and the grade of one group
  // ---------------------------------------------------------------

  function StrategySet(g: seq<SignalDict>): set<string>
  {
    set i | 0 <= i < |g| :: g[i].strategy
  }

  /** The market stage lets a group through: no condition known, or either index above its MA5. */
  predicate MarketAllows(condition: Option<RiskManager.MarketCondition>)
  {
    condition.None? || condition.value.kospiAboveMa5 || condition.value.kosdaqAboveMa5
  }

  /** Supply confirms a ticker: the query answers with at least two buying parties. */
  predicate SupplyConfirms(supply: Supply, t: string)
  {
    supply(t).Some? && supply(t).value.buyCount >= 2
  }

  function StagesOf(g: seq<SignalDict>, t: string, condition: Option<RiskManager.MarketCondition>,
                    supply: Supply): Stages
  {
    var names := StrategySet(g);
    var overlap := |names| >= 2;
    var reply := if overlap then supply(t) else None;
    var view := if reply.Some? then View(reply.value) else PendingSupply;
    var sync := reply.Some? && reply.value.buyCount >= 2;
    var marketOk := overlap && sync && MarketAllows(condition);
    var phase := if overlap && sync && condition.Some? then condition.value.marketPhase else "UNKNOWN";
    Stages(names, overlap, view, sync, marketOk, phase)
  }

  function GradeOf(st: Stages): Grade
  {
    var all := st.overlap && st.sync && st.marketOk;
    if all && |st.strategies| >= 3 then S
    else if all && |st.strategies| >= 2 then A
    else if st.overlap && !st.sync then BPlus
    else if st.overlap && st.sync && !st.marketOk then BPlus
    else B
  }

  function GradeLabel(st: Stages): string
  {
    var all := st.overlap && st.sync && st.marketOk;
    if all && |st.strategies| >= 3 then "S급 (3중 교집합 + 수급 + 시장)"
    else if all && |st.strategies| >= 2 then "A급 (교집합 AND 필터 통과)"
    else if st.overlap && !st.sync then "패턴 중첩 O / 수급 미달 (" + IntToString(st.supply.buyCount) + "/2)"
    else if st.overlap && st.sync && !st.marketOk then "패턴+수급 O / 시장 환경 미달 (하락장)"
    else "단일 전략"
  }

  function GradedFor(st: Stages): Graded
  {
    Graded(|st.strategies|, st.strategies, st.supply.accel,
           FilterResults(st.overlap, |st.strategies|, st.sync, st.supply.buyCount,
                         st.supply.details, st.marketOk, st.phase),
           GradeOf(st), GradeLabel(st))
  }

  /** Whether the acceleration label is reported as a reason. */
  predicate Reported(accel: string)
  {
    accel != "" && accel != DataCollector.Moderate
  }

  /** Writes the stage results of its group into one signal. */
  function Enrich(x: SignalDict, st: Stages): SignalDict
  {
    var accel := st.supply.accel;
    var reasons := if Reported(accel) then
      Some([AccelPrefix + accel] + (if x.reasons.Some? then x.reasons.value else []))
    else x.reasons;
    var grade := GradeOf(st);
    x.(verdict := if grade == S || grade == A then Strategies.Approve else x.verdict,
       reasons := reasons, graded := Some(GradedFor(st)),
       confidenceBonus := Some(0), originalConfidence := Some(x.confidence))
  }

  // ---------------------------------------------------------------
  // Grouping and the whole pass
  // ---------------------------------------------------------------

  /** The signals of ticker `t`, in input order. */
  function GroupOf(s: seq<SignalDict>, t: string): seq<SignalDict>
  {
    if |s| == 0 then []
    else GroupOf(s[..|s| - 1], t) + (if s[|s| - 1].ticker == t then [s[|s| - 1]] else [])
  }

  function Existing(d: seq<(string, seq<SignalDict>)>, t: string): seq<SignalDict>
  {
    match Lookup(d, t)
    case Some(g) => g
    case None => []
  }

  /** `defaultdict(list)` filled in input order: tickers in order of first appearance. */
  function GroupBy(s: seq<SignalDict>): seq<(string, seq<SignalDict>)>
  {
    if |s| == 0 then []
    else
      var d := GroupBy(s[..|s| - 1]);
      var x := s[|s| - 1];
      Put(d, x.ticker, Existing(d, x.ticker) + [x])
  }

  function Concat<K, V>(d: seq<(K, seq<V>)>): seq<V>
  {
    if |d| == 0 then [] else d[0].1 + Concat(d[1..])
  }

  function EnrichGroup(g: seq<SignalDict>, st: Stages): seq<SignalDict>
  {
    MapSeq((x: SignalDict) => Enrich(x, st), g)
  }

  /** The enriched list before sorting: group after group, each in its own order. */
  function Pass(d: seq<(string, seq<SignalDict>)>, condition: Option<RiskManager.MarketCondition>,
                supply: Supply): seq<SignalDict>
  {
    if |d| == 0 then []
    else
      var (t, g) := d[|d| - 1];
      Pass(d[..|d| - 1], condition, supply) + EnrichGroup(g, StagesOf(g, t, condition, supply))
  }

  /** S before A before B+ before B; a dictionary without a grade ranks with B. */
  function GradeRank(x: SignalDict): int
  {
    if x.graded.None? then 3
    else match x.graded.value.grade
      case S => 0
      case A => 1
      case BPlus => 2
      case B => 3
  }

  function RankKey(x: SignalDict): SortKey
  {
    SortKey(GradeRank(x), -x.confidence)
  }

  function Intersections(s: seq<SignalDict>, condition: Option<RiskManager.MarketCondition>,
                         supply: Supply): seq<SignalDict>
  {
    SortBy(Pass(GroupBy(s), condition, supply), RankKey)
  }

  /** A market condition passed in wins; otherwise the one analysed on the spot (`None` if that raises). */
  function EffectiveCondition(given: Option<RiskManager.MarketCondition>,
                              analysed: Option<RiskManager.MarketCondition>): Option<RiskManager.MarketCondition>
  {
    if given.Some? then given else analysed
  }

  method AnalyzeIntersections(signals: seq<SignalDict>, given: Option<RiskManager.MarketCondition>,
                              analysed: Option<RiskManager.MarketCondition>, supply: Supply)
    returns (enriched: seq<SignalDict>)
    ensures enriched == Intersections(signals, EffectiveCondition(given, analysed), supply)
  {
    var condition := if given.None? then analysed else given;
    var byTicker := GroupSignals(signals);
    enriched := [];
    var j := 0;
    while j < |byTicker|
      invariant 0 <= j <= |byTicker|
      invariant enriched == Pass(byTicker[..j], condition, supply)
    {
      var (ticker, group) := byTicker[j];
      var st := GroupStages(group, ticker, condition, supply);
      var graded := GradeGroup(group, st);
      enriched := enriched + graded;
      assert byTicker[..j + 1][..j] == byTicker[..j];
      j := j + 1;
    }
    assert byTicker[..j] == byTicker;
    enriched := SortBy(enriched, RankKey);
  }

  /** Groups the signals by ticker, appending each to its ticker's list. */
  method GroupSignals(signals: seq<SignalDict>) returns (byTicker: seq<(string, seq<SignalDict>)>)
    ensures byTicker == GroupBy(signals)
  {
    byTicker := [];
    var i := 0;
    while i < |signals|
      invariant 0 <= i <= |signals|
      invariant byTicker == GroupBy(signals[..i])
    {
      var x := signals[i];
      assert signals[..i + 1][..i] == signals[..i];
      byTicker := Put(byTicker, x.ticker, Existing(byTicker, x.ticker) + [x]);
      i := i + 1;
    }
    assert signals[..|signals|] == signals;
  }

  /** Writes the stage results into every signal of the group, in order. */
  method GradeGroup(group: seq<SignalDict>, st: Stages) returns (graded: seq<SignalDict>)
    ensures graded == EnrichGroup(group, st)
  {
    graded := [];
    var k := 0;
    while k < |group|
      invariant 0 <= k <= |group|
      invariant graded == EnrichGroup(group[..k], st)
    {
      assert group[..k + 1] == group[..k] + [group[k]];
      MapSeqAppend((x: SignalDict) => Enrich(x, st), group[..k], [group[k]]);
      graded := graded + [Enrich(group[k], st)];
      k := k + 1;
    }
    assert group[..k] == group;
  }

  /** The three stages of one group, computed stage by stage. */
  method GroupStages(group: seq<SignalDict>, ticker: string,
                     condition: Option<RiskManager.MarketCondition>, supply: Supply)
    returns (st: Stages)
    ensures st == StagesOf(group, ticker, condition, supply)
  {
    var names := StrategySet(group);
    var overlap := |names| >= 2;
    var view := PendingSupply;
    var sync := false;
    if overlap {
      match supply(ticker)
      case Some(sd) =>
        view := View(sd);
        sync := sd.buyCount >= 2;
      case None =>
        sync := false;
    }
    var marketOk := false;
    var phase := "UNKNOWN";
    if overlap && sync {
      match condition
      case Some(mc) =>
        phase := mc.marketPhase;
        marketOk := mc.kospiAboveMa5 || mc.kosdaqAboveMa5;
      case None =>
        marketOk := true;
    }
    st := Stages(names, overlap, view, sync, marketOk, phase);
  }

  // ---------------------------------------------------------------
  // The grade table and what enrichment writes
  // ---------------------------------------------------------------

  /**
   * S needs three strategies, A exactly two, both with supply confirmed and
   * the market allowing; two or more strategies short of that are B+, a
   * single strategy is B.
   */
  lemma GradeTable(g: seq<SignalDict>, t: string, condition: Option<RiskManager.MarketCondition>,
                   supply: Supply)
    ensures var grade := GradeOf(StagesOf(g, t, condition, supply));
      var n := |StrategySet(g)|;
      var passes := SupplyConfirms(supply, t) && MarketAllows(condition);
      && (grade == S <==> n >= 3 && passes)
      && (grade == A <==> n == 2 && passes)
      && (grade == BPlus <==> n >= 2 && !passes)
      && (grade == B <==> n < 2)
  {
  }

  /** The supply query and the market condition matter only for groups with overlapping patterns. */
  lemma StagesForSingleStrategy(g: seq<SignalDict>, t: string, condition: Option<RiskManager.MarketCondition>,
                                supply: Supply)
    requires |StrategySet(g)| < 2
    ensures StagesOf(g, t, condition, supply) == Stages(StrategySet(g), false, PendingSupply, false, false, "UNKNOWN")
  {
  }

  /** The recorded market phase is the condition's only once patterns and supply have passed. */
  lemma PhaseRecorded(g: seq<SignalDict>, t: string, condition: Option<RiskManager.MarketCondition>,
                      supply: Supply)
    ensures var st := StagesOf(g, t, condition, supply);
      && (st.phase != "UNKNOWN" ==> condition.Some? && st.overlap && st.sync && st.phase == condition.value.marketPhase)
      && (st.marketOk <==> st.overlap && st.sync && MarketAllows(condition))
      && (st.sync <==> st.overlap && SupplyConfirms(supply, t))
  {
  }

  /**
   * Enrichment approves S and A and leaves other verdicts alone, keeps the
   * confidence (recording it as the original, with no bonus) and the identity
   * of the signal, and records the group's grade.
   */
  lemma EnrichFacts(x: SignalDict, st: Stages)
    ensures var y := Enrich(x, st);
      && (GradeOf(st) in {S, A} ==> y.verdict == Strategies.Approve)
      && (GradeOf(st) !in {S, A} ==> y.verdict == x.verdict)
      && y.confidence == x.confidence && y.originalConfidence == Some(x.confidence)
      && y.confidenceBonus == Some(0)
      && y.ticker == x.ticker && y.name == x.name && y.strategy == x.strategy
      && y.graded.Some? && y.graded.value.grade == GradeOf(st)
      && y.graded.value.multiStrategyCount == |st.strategies|
  {
  }

  /**
   * A reported acceleration label becomes the first reason and the earlier
   * reasons follow; otherwise the reasons are untouched.
   */
  lemma AccelerationReason(x: SignalDict, st: Stages)
    ensures var y := Enrich(x, st);
      && (Reported(st.supply.accel) ==>
            y.reasons.Some? && |y.reasons.value| >= 1 && y.reasons.value[0] == AccelPrefix + st.supply.accel
            && y.reasons.value[1..] == (if x.reasons.Some? then x.reasons.value else []))
      && (!Reported(st.supply.accel) ==> y.reasons == x.reasons)
  {
  }

  /**
   * A group that is not queried for supply, or whose query raises, keeps
   * the placeholder label, and that label is reported as an acceleration.
   */
  lemma PendingLabelReported(x: SignalDict, g: seq<SignalDict>, t: string,
                             condition: Option<RiskManager.MarketCondition>, supply: Supply)
    requires |StrategySet(g)| < 2 || supply(t).None?
    ensures var y := Enrich(x, StagesOf(g, t, condition, supply));
      y.reasons.Some? && |y.reasons.value| >= 1 && y.reasons.value[0] == AccelPrefix + Pending
  {
    assert Reported(Pending);
  }

  /** Grading an already graded signal again puts a second acceleration reason in front. */
  lemma RegradingRepeatsReason(x: SignalDict, st: Stages)
    requires Reported(st.supply.accel)
    ensures var once := Enrich(x, st);
      var twice := Enrich(once, st);
      twice.reasons.Some? && |twice.reasons.value| == |once.reasons.value| + 1
      && twice.reasons.value[0] == twice.reasons.value[1]
  {
  }

  // ---------------------------------------------------------------
  // Grouping
  // ---------------------------------------------------------------

  lemma {:induction false} GroupOfTicker(s: seq<SignalDict>, t: string)
    ensures forall x :: x in GroupOf(s, t) ==> x.ticker == t
    ensures multiset(GroupOf(s, t)) <= multiset(s)
  {
    if |s| > 0 {
      GroupOfTicker(s[..|s| - 1], t);
      assert s == s[..|s| - 1] + [s[|s| - 1]];
    }
  }

  /** Every entry of `d` is the non-empty group of its ticker in `s`. */
  ghost predicate EntriesAreGroups(d: seq<(string, seq<SignalDict>)>, s: seq<SignalDict>)
  {
    forall i :: 0 <= i < |d| ==> d[i].1 == GroupOf(s, d[i].0) && |d[i].1| > 0
  }

  /** `d` has an entry for exactly the tickers present in `s`. */
  ghost predicate KeysArePresent(d: seq<(string, seq<SignalDict>)>, s: seq<SignalDict>)
  {
    forall t :: Lookup(d, t).Some? <==> |GroupOf(s, t)| > 0
  }

  /** `d` holds the groups of `s`: one entry per ticker present, each with its signals in order. */
  ghost predicate GroupsOf(d: seq<(string, seq<SignalDict>)>, s: seq<SignalDict>)
  {
    DistinctKeys(d) && EntriesAreGroups(d, s) && KeysArePresent(d, s)
  }

  lemma {:induction false} ConcatSnoc<K, V>(d: seq<(K, seq<V>)>, e: (K, seq<V>))
    ensures Concat(d + [e]) == Concat(d) + e.1
  {
    if |d| > 0 {
      assert (d + [e])[1..] == d[1..] + [e];
      ConcatSnoc(d[1..], e);
    }
  }

  lemma {:induction false} ConcatReplace<K, V>(d: seq<(K, seq<V>)>, d2: seq<(K, seq<V>)>, j: nat)
    requires |d| == |d2| && j < |d|
    requires forall i :: 0 <= i < |d| && i != j ==> d2[i] == d[i]
    ensures multiset(Concat(d2)) + multiset(d[j].1) == multiset(Concat(d)) + multiset(d2[j].1)
  {
    var m, m2 := multiset(Concat(d[1..])), multiset(Concat(d2[1..]));
    assert multiset(Concat(d)) == multiset(d[0].1) + m;
    assert multiset(Concat(d2)) == multiset(d2[0].1) + m2;
    if j == 0 {
      assert d2[1..] == d[1..];
    } else {
      assert d2[0] == d[0];
      assert d[1..][j - 1] == d[j] && d2[1..][j - 1] == d2[j];
      ConcatReplace(d[1..], d2[1..], j - 1);
      var h, a, b := multiset(d[0].1), multiset(d[j].1), multiset(d2[j].1);
      calc {
        multiset(Concat(d2)) + a;
        h + m2 + a;
        h + (m2 + a);
        h + (m + b);
        h + m + b;
        multiset(Concat(d)) + b;
      }
    }
  }

  lemma GroupOfSnoc(init: seq<SignalDict>, x: SignalDict, t: string)
    ensures GroupOf(init + [x], t) == GroupOf(init, t) + (if x.ticker == t then [x] else [])
  {
    assert (init + [x])[..|init|] == init;
  }

  lemma KeysAfterPut(d: seq<(string, seq<SignalDict>)>, init: seq<SignalDict>, x: SignalDict, v: seq<SignalDict>)
    requires KeysArePresent(d, init)
    ensures KeysArePresent(Put(d, x.ticker, v), init + [x])
  {
    forall t ensures Lookup(Put(d, x.ticker, v), t).Some? <==> |GroupOf(init + [x], t)| > 0 {
      LookupPut(d, x.ticker, v, t);
      GroupOfSnoc(init, x, t);
    }
  }

  lemma {:induction false} GroupStepPresent(d: seq<(string, seq<SignalDict>)>, init: seq<SignalDict>, x: SignalDict)
    requires GroupsOf(d, init) && Lookup(d, x.ticker).Some?
    ensures GroupsOf(Put(d, x.ticker, Existing(d, x.ticker) + [x]), init + [x])
  {
    var t0, s := x.ticker, init + [x];
    var w := Lookup(d, t0).value;
    LookupFound(d, t0);
    var j :| 0 <= j < |d| && d[j] == (t0, w);
    GroupOfSnoc(init, x, t0);
    var v := w + [x];
    assert Existing(d, t0) + [x] == v;
    var d2 := Put(d, t0, v);
    PutPresent(d, t0, v);
    forall i | 0 <= i < |d2| ensures d2[i].1 == GroupOf(s, d2[i].0) && |d2[i].1| > 0 {
      GroupOfSnoc(init, x, d[i].0);
    }
    assert DistinctKeys(d2) by {
      assert forall i :: 0 <= i < |d2| ==> d2[i].0 == d[i].0;
    }
    KeysAfterPut(d, init, x, v);
  }

  lemma {:induction false} ConcatStepPresent(d: seq<(string, seq<SignalDict>)>, init: seq<SignalDict>, x: SignalDict)
    requires GroupsOf(d, init) && Lookup(d, x.ticker).Some?
    ensures multiset(Concat(Put(d, x.ticker, Existing(d, x.ticker) + [x]))) == multiset(Concat(d)) + multiset{x}
  {
    var t0 := x.ticker;
    var w := Lookup(d, t0).value;
    LookupFound(d, t0);
    var j :| 0 <= j < |d| && d[j] == (t0, w);
    var v := w + [x];
    assert Existing(d, t0) + [x] == v;
    var d2 := Put(d, t0, v);
    PutPresent(d, t0, v);
    assert forall i :: 0 <= i < |d| && i != j ==> d2[i] == d[i] by {
      forall i | 0 <= i < |d| && i != j ensures d[i].0 != t0 {
        if i < j {
          assert d[i].0 != d[j].0;
        } else {
          assert d[j].0 != d[i].0;
        }
      }
    }
    ConcatReplace(d, d2, j);
    assert d2[j].1 == v;
    assert multiset(v) == multiset(w) + multiset{x};
    MultisetCancel(multiset(Concat(d)), multiset(Concat(d2)), multiset(w), multiset{x});
  }

  lemma {:induction false} GroupStepFresh(d: seq<(string, seq<SignalDict>)>, init: seq<SignalDict>, x: SignalDict)
    requires GroupsOf(d, init) && Lookup(d, x.ticker).None?
    ensures Put(d, x.ticker, Existing(d, x.ticker) + [x]) == d + [(x.ticker, [x])]
    ensures GroupsOf(d + [(x.ticker, [x])], init + [x])
  {
    var t0, s := x.ticker, init + [x];
    GroupOfSnoc(init, x, t0);
    assert Existing(d, t0) + [x] == [x];
    PutFresh(d, t0, [x]);
    LookupAbsent(d, t0);
    var d2 := d + [(t0, [x])];
    forall i | 0 <= i < |d2| ensures d2[i].1 == GroupOf(s, d2[i].0) && |d2[i].1| > 0 {
      if i < |d| {
        assert d2[i] == d[i];
        GroupOfSnoc(init, x, d[i].0);
      }
    }
    forall i, k | 0 <= i < k < |d2| ensures d2[i].0 != d2[k].0 {
      assert d2[i] == d[i];
      if k < |d| {
        assert d2[k] == d[k];
      }
    }
    KeysAfterPut(d, init, x, [x]);
  }

  /** Grouping keeps one entry per ticker present, each holding that ticker's signals in input order. */
  lemma {:induction false} GroupByGroups(s: seq<SignalDict>)
    ensures GroupsOf(GroupBy(s), s)
  {
    if |s| > 0 {
      var init, x := s[..|s| - 1], s[|s| - 1];
      GroupByGroups(init);
      assert init + [x] == s;
      if Lookup(GroupBy(init), x.ticker).Some? {
        GroupStepPresent(GroupBy(init), init, x);
      } else {
        GroupStepFresh(GroupBy(init), init, x);
      }
    }
  }

  /** Grouping loses and invents no signal. */
  lemma {:induction false} GroupByMultiset(s: seq<SignalDict>)
    ensures multiset(Concat(GroupBy(s))) == multiset(s)
  {
    if |s| > 0 {
      var init, x := s[..|s| - 1], s[|s| - 1];
      GroupByMultiset(init);
      GroupByGroups(init);
      assert init + [x] == s;
      if Lookup(GroupBy(init), x.ticker).Some? {
        ConcatStepPresent(GroupBy(init), init, x);
      } else {
        GroupStepFresh(GroupBy(init), init, x);
        ConcatSnoc(GroupBy(init), (x.ticker, [x]));
      }
    }
  }



  // ---------------------------------------------------------------
  // The whole pass
  // ---------------------------------------------------------------

  /** The stages of ticker `t`'s group among the signals `s`. */
  function TickerStages(s: seq<SignalDict>, t: string, condition: Option<RiskManager.MarketCondition>,
                        supply: Supply): Stages
  {
    StagesOf(GroupOf(s, t), t, condition, supply)
  }

  function EnrichIn(s: seq<SignalDict>, condition: Option<RiskManager.MarketCondition>,
                    supply: Supply): SignalDict -> SignalDict
  {
    (x: SignalDict) => Enrich(x, TickerStages(s, x.ticker, condition, supply))
  }

  lemma {:induction false} PassPrefix(d: seq<(string, seq<SignalDict>)>, s: seq<SignalDict>,
                                      condition: Option<RiskManager.MarketCondition>, supply: Supply, n: nat)
    requires EntriesAreGroups(d, s) && n <= |d|
    ensures Pass(d[..n], condition, supply) == MapSeq(EnrichIn(s, condition, supply), Concat(d[..n]))
  {
    if n > 0 {
      PassPrefix(d, s, condition, supply, n - 1);
      var (t, g) := d[n - 1];
      var f := EnrichIn(s, condition, supply);
      PrefixSnoc(d, n);
      ConcatSnoc(d[..n - 1], d[n - 1]);
      GroupOfTicker(s, t);
      var st := StagesOf(g, t, condition, supply);
      assert EnrichGroup(g, st) == MapSeq(f, g) by {
        forall k | 0 <= k < |g| ensures Enrich(g[k], st) == f(g[k]) {
          assert g[k] in GroupOf(s, t);
        }
      }
      MapSeqAppend(f, Concat(d[..n - 1]), g);
    }
  }

  /** Before sorting, the pass enriches each signal with the stages of its own ticker's group. */
  lemma PassIsMap(s: seq<SignalDict>, condition: Option<RiskManager.MarketCondition>, supply: Supply)
    ensures Pass(GroupBy(s), condition, supply) == MapSeq(EnrichIn(s, condition, supply), Concat(GroupBy(s)))
  {
    var d := GroupBy(s);
    GroupByGroups(s);
    PassPrefix(d, s, condition, supply, |d|);
    assert d[..|d|] == d;
  }

  /** The result holds every input signal exactly once, each enriched with its own ticker's stages. */
  lemma IntersectionsPermutation(s: seq<SignalDict>, condition: Option<RiskManager.MarketCondition>,
                                 supply: Supply)
    ensures multiset(Intersections(s, condition, supply)) == multiset(MapSeq(EnrichIn(s, condition, supply), s))
    ensures |Intersections(s, condition, supply)| == |s|
  {
    var f := EnrichIn(s, condition, supply);
    PassIsMap(s, condition, supply);
    GroupByMultiset(s);
    MapMultiset(f, Concat(GroupBy(s)), s);
    SortByProperties(Pass(GroupBy(s), condition, supply), RankKey);
    assert |multiset(MapSeq(f, s))| == |s|;
  }

  /**
   * The result runs S, A, B+, B, higher confidence first within a grade, and
   * signals that tie on both keep the order of the grouped pass.
   */
  lemma IntersectionsOrder(s: seq<SignalDict>, condition: Option<RiskManager.MarketCondition>, supply: Supply)
    ensures var out := Intersections(s, condition, supply);
      && (forall i, j :: 0 <= i < j < |out| ==>
            GradeRank(out[i]) < GradeRank(out[j])
            || (GradeRank(out[i]) == GradeRank(out[j]) && out[i].confidence >= out[j].confidence))
      && (forall k :: WithKey(out, RankKey, k) == WithKey(Pass(GroupBy(s), condition, supply), RankKey, k))
  {
    var p := Pass(GroupBy(s), condition, supply);
    SortByProperties(p, RankKey);
    forall k ensures WithKey(SortBy(p, RankKey), RankKey, k) == WithKey(p, RankKey, k) {
      SortByStable(p, RankKey, k);
    }
  }

  /** Every result record is an input signal enriched with the stages of its own ticker. */
  lemma IntersectionsRecords(s: seq<SignalDict>, condition: Option<RiskManager.MarketCondition>, supply: Supply)
    ensures var out := Intersections(s, condition, supply);
      forall i :: 0 <= i < |out| ==>
        exists j :: 0 <= j < |s| && out[i] == Enrich(s[j], TickerStages(s, s[j].ticker, condition, supply))
  {
    var out := Intersections(s, condition, supply);
    var m := MapSeq(EnrichIn(s, condition, supply), s);
    IntersectionsPermutation(s, condition, supply);
    forall i | 0 <= i < |out|
      ensures exists j :: 0 <= j < |s| && out[i] == Enrich(s[j], TickerStages(s, s[j].ticker, condition, supply))
    {
      assert out[i] in multiset(m);
      var j :| 0 <= j < |m| && m[j] == out[i];
      assert m[j] == EnrichIn(s, condition, supply)(s[j]);
    }
  }

  /** All result records of one ticker carry the same grade and filter results. */
  lemma SameTickerSameGrade(s: seq<SignalDict>, condition: Option<RiskManager.MarketCondition>, supply: Supply)
    ensures var out := Intersections(s, condition, supply);
      forall i, j :: 0 <= i < |out| && 0 <= j < |out| && out[i].ticker == out[j].ticker ==>
        out[i].graded.Some? && out[i].graded == out[j].graded
  {
    var out := Intersections(s, condition, supply);
    IntersectionsRecords(s, condition, supply);
    forall i | 0 <= i < |out|
      ensures out[i].graded == Some(GradedFor(TickerStages(s, out[i].ticker, condition, supply)))
    {
      var j :| 0 <= j < |s| && out[i] == Enrich(s[j], TickerStages(s, s[j].ticker, condition, supply));
    }
  }

  lemma StagesReadSupplyOnOverlap(g: seq<SignalDict>, t: string, condition: Option<RiskManager.MarketCondition>,
                                   supply1: Supply, supply2: Supply)
    requires |StrategySet(g)| >= 2 ==> supply1(t) == supply2(t)
    ensures StagesOf(g, t, condition, supply1) == StagesOf(g, t, condition, supply2)
  {
  }

  /** The supply query is consulted only for tickers with overlapping patterns. */
  lemma SupplyOnlyForOverlaps(s: seq<SignalDict>, condition: Option<RiskManager.MarketCondition>,
                              supply1: Supply, supply2: Supply)
    requires forall t :: |StrategySet(GroupOf(s, t))| >= 2 ==> supply1(t) == supply2(t)
    ensures Intersections(s, condition, supply1) == Intersections(s, condition, supply2)
  {
    var c := Concat(GroupBy(s));
    var f1, f2 := EnrichIn(s, condition, supply1), EnrichIn(s, condition, supply2);
    PassIsMap(s, condition, supply1);
    PassIsMap(s, condition, supply2);
    forall k | 0 <= k < |c| ensures f1(c[k]) == f2(c[k]) {
      var t := c[k].ticker;
      StagesReadSupplyOnOverlap(GroupOf(s, t), t, condition, supply1, supply2);
    }
    assert MapSeq(f1, c) == MapSeq(f2, c);
  }
}
