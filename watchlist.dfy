// The holdings watchlist of watchlist.py: `WatchlistManager` keeps the watched
// items in a dict keyed by ticker, computes each item's stop-loss price from its
// chart, and `check_all` re-prices every item, moves it through the status
// states and raises an alert only when the status turns into a danger state.
// `TelegramWatchBot._handle_message` routes a chat message to those operations.
// Quotes, charts, the name cache, the risk settings and the clock are given in
// an `Env`; the JSON file, the threads and the Telegram requests are not modelled.

module Watchlist {
  import opened Common
  import opened Config
  import opened Indicators
  import DataCollector
  import Report

  const StatusNormal: string := "정상"
  const StatusWarning: string := "경고"
  const StatusNear: string := "손절임박"
  const StatusReached: string := "손절도달"

  /** The statuses that raise an alert when an item enters them. */
  predicate IsDanger(status: string)
  {
    status in [StatusReached, StatusNear, StatusWarning]
  }

  /** The reasons `check_all` writes, one per check. */
  datatype Note =
    | LossReached(pnl: real)
    | NearStop(stop: int, price: int)
    | CrossedMa20(ma20: int, price: int)
    | UnderMa20(ma20: int)
    | Slipping(pnl: real)
    | InProfit(pnl: real)
    | SmallProfit(pnl: real)
    | SmallLoss(pnl: real)

  function NoteText(n: Note): string
  {
    match n
    case LossReached(p) => "🚨 매수가 대비 " + SignedFixed(p, 1) + "% 하락 (손절 기준 -3% 도달)"
    case NearStop(s, c) => "⚠\U{FE0F} 손절가(" + Grouped(s) + "원) 근접! 현재가 " + Grouped(c) + "원"
    case CrossedMa20(m, c) => "📉 20일선(" + Grouped(m) + "원) 하향 돌파! 현재가 " + Grouped(c) + "원"
    case UnderMa20(m) => "20일선(" + Grouped(m) + "원) 아래 위치"
    case Slipping(p) => "주의: 매수가 대비 " + SignedFixed(p, 1) + "% 하락 중"
    case InProfit(p) => "✅ 수익 구간 (" + SignedFixed(p, 1) + "%)"
    case SmallProfit(p) => "소폭 수익 (" + SignedFixed(p, 1) + "%)"
    case SmallLoss(p) => "소폭 하락 (" + SignedFixed(p, 1) + "%)"
  }

  /** A `WatchItem`. */
  datatype WatchItem = WatchItem(
    ticker: string, name: string, buyPrice: real, quantity: int, addedDate: string,
    stopLossPrice: real, ma20Price: real, currentPrice: real, pnlPct: real, pnlAmount: real,
    status: string, alertSent: bool, lastChecked: string, reasons: seq<Note>)

  /** What the manager reads from outside: the collector's name cache, its current price
      (`None` when `get_current_price` gives nothing or raises), its daily chart for a
      ticker and a number of days (`None` when reading or analysing it raises), the risk
      settings and the clock's ISO time. */
  datatype Env = Env(
    names: map<string, string>, quote: string -> Option<real>,
    chart: (string, nat) -> Option<seq<Bar>>, risk: RiskConfig, now: string)

  /** The item `add` stores: named from the collector when no name is given, with its stop
      analysed on a 100-day chart. */
  function AddedItem(ticker: string, buyPrice: real, name: string, quantity: int, env: Env): WatchItem
  {
    var n := if name == "" then DataCollector.NameOf(env.names, ticker) else name;
    Analyzed(NewItem(ticker, n, buyPrice, quantity, env.now), env.chart(ticker, 100), env.risk)
  }

  /** A new item with the dataclass defaults. */
  function NewItem(ticker: string, name: string, buyPrice: real, quantity: int, now: string): WatchItem
  {
    WatchItem(ticker, name, buyPrice, quantity, now, 0.0, 0.0, 0.0, 0.0, 0.0, StatusNormal, false, "", [])
  }

  // ---------------------------------------------------------------
  // _analyze_stop_loss (watchlist.py:123-160)
  // ---------------------------------------------------------------

  /** `round(x, 0)`. */
  function Round0(x: real): real
  {
    RoundHalfEven(x) as real
  }

  /** The default stop: 3% under the buy price. */
  function PctStop(buy: real): real
  {
    buy * 0.97
  }

  /** The chart-based stop of an item: the highest of the ATR stop, 2% under the 20-day MA
      and 3% under the buy price, rounded; with fewer than 20 bars or on an error only the
      3% stop.  The 20-day MA is recorded when the chart is long enough. */
  function Analyzed(item: WatchItem, chart: Option<seq<Bar>>, risk: RiskConfig): (r: WatchItem)
    ensures r == item.(stopLossPrice := r.stopLossPrice, ma20Price := r.ma20Price)
  {
    if chart.None? || |chart.value| < 20 then item.(stopLossPrice := Round0(PctStop(item.buyPrice)))
    else
      var bars := chart.value;
      var ma20 := Sma(Closes(bars), 20)[|bars| - 1];
      item.(stopLossPrice := Round0(ChartStop(item.buyPrice, Atr(bars, 14)[|bars| - 1], ma20, risk.atrMultiplier)),
            ma20Price := if ma20.Some? then ma20.value else 0.0)
  }

  /** The highest of the ATR stop, 2% under the MA and the 3% stop; a missing ATR or MA
      stands in as 5% under the buy price. */
  function ChartStop(buy: real, atr: Option<real>, ma20: Option<real>, multiplier: real): real
  {
    var atrStop := if atr.Some? then buy - atr.value * multiplier else buy * 0.95;
    var ma20Stop := if ma20.Some? then ma20.value * 0.98 else buy * 0.95;
    MaxR(atrStop, MaxR(ma20Stop, PctStop(buy)))
  }

  /** The stop is never under the rounded 3% stop; with a chart of 20 bars or more it is the
      rounded highest of the three stops (see `ChartStopOf`) on the chart's last ATR and last
      20-day mean, which is recorded as the MA; otherwise it is exactly the 3% stop and the
      MA is left as it was. */
  lemma StopLossRule(item: WatchItem, chart: Option<seq<Bar>>, risk: RiskConfig)
    ensures var r := Analyzed(item, chart, risk);
      r.stopLossPrice >= Round0(PctStop(item.buyPrice)) &&
      (chart.Some? && |chart.value| >= 20 ==>
        var bars := chart.value;
        var ma20 := Mean(Closes(bars)[|bars| - 20..]);
        Atr(bars, 14)[|bars| - 1].Some? && r.ma20Price == ma20 &&
        r.stopLossPrice == Round0(ChartStop(item.buyPrice, Atr(bars, 14)[|bars| - 1], Some(ma20), risk.atrMultiplier))) &&
      (chart.None? || |chart.value| < 20 ==>
        r.stopLossPrice == Round0(PctStop(item.buyPrice)) && r.ma20Price == item.ma20Price)
  {
    if chart.Some? && |chart.value| >= 20 {
      var bars := chart.value;
      LastWindows(bars);
      var a := Atr(bars, 14)[|bars| - 1];
      var m := Sma(Closes(bars), 20)[|bars| - 1];
      ChartStopAtLeast(item.buyPrice, a, m, risk.atrMultiplier);
    }
  }

  /** The chart stop is never under the 3% stop. */
  lemma ChartStopAtLeast(buy: real, atr: Option<real>, ma20: Option<real>, multiplier: real)
    ensures Round0(ChartStop(buy, atr, ma20, multiplier)) >= Round0(PctStop(buy))
  {
    RoundMonotone(PctStop(buy), ChartStop(buy, atr, ma20, multiplier));
  }

  lemma ChartStopOf(buy: real, atr: real, ma20: real, multiplier: real)
    ensures ChartStop(buy, Some(atr), Some(ma20), multiplier) ==
            MaxR(buy - atr * multiplier, MaxR(ma20 * 0.98, PctStop(buy)))
  {
  }

  /** On 20 bars or more the last ATR and the last 20-day MA are both defined. */
  lemma LastWindows(bars: seq<Bar>)
    requires |bars| >= 20
    ensures Atr(bars, 14)[|bars| - 1].Some?
    ensures Sma(Closes(bars), 20)[|bars| - 1] == Some(Mean(Closes(bars)[|bars| - 20..]))
  {
    var closes := Closes(bars);
    assert closes[|bars| - 20..|bars|] == closes[|bars| - 20..];
  }

  // ---------------------------------------------------------------
  // check_all, one item (watchlist.py:169-257)
  // ---------------------------------------------------------------

  /** `round((price - buy) / buy * 100, 2)`. */
  function PnlPct(price: real, buy: real): real
    requires buy != 0.0
  {
    RoundTo((price - buy) / buy * 100.0, 2)
  }

  /** `round((price - buy) * max(quantity, 1), 0)`: an item without a quantity counts one share. */
  function PnlAmount(price: real, buy: real, quantity: int): real
  {
    RoundTo((price - buy) * (if quantity >= 1 then quantity else 1) as real, 0)
  }

  /** The dictionary of a checked item and whether it needs an alert. */
  datatype CheckResult = CheckResult(item: WatchItem, alert: bool)

  /** An item after its check, and its result entry unless the item was skipped or raised. */
  datatype Checked = Checked(item: WatchItem, result: Option<CheckResult>)

  /** The status branch; `None` when the 20-day MA branch reads a chart that raises. */
  function Assess(item: WatchItem, chart: Option<seq<Bar>>): Option<WatchItem>
  {
    var pnl := item.pnlPct;
    var price := item.currentPrice;
    if pnl <= -3.0 then Some(item.(status := StatusReached, reasons := item.reasons + [LossReached(pnl)]))
    else if price <= item.stopLossPrice * 1.01 then
      Some(item.(status := StatusNear, reasons := item.reasons + [NearStop(Trunc(item.stopLossPrice), Trunc(price))]))
    else if item.ma20Price > 0.0 && price < item.ma20Price then
      if chart.None? then None
      else
        var bars := chart.value;
        if |bars| < 20 then Some(item)
        else
          var ma := Sma(Closes(bars), 20);
          var ma20 := ma[|bars| - 1].value;
          var crossed := ma[|bars| - 2].Some? && bars[|bars| - 2].close > ma[|bars| - 2].value;
          var note := if crossed then CrossedMa20(Trunc(ma20), Trunc(price)) else UnderMa20(Trunc(ma20));
          Some(item.(ma20Price := ma20, status := StatusWarning, reasons := item.reasons + [note]))
    else if pnl <= -1.0 then Some(item.(status := StatusWarning, reasons := item.reasons + [Slipping(pnl)]))
    else
      var note := if pnl > 5.0 then InProfit(pnl) else if pnl > 0.0 then SmallProfit(pnl) else SmallLoss(pnl);
      Some(item.(status := StatusNormal, reasons := item.reasons + [note]))
  }

  /** One item of `check_all`: no quote or a price that is not positive skips it; a zero buy
      price raises once the price is recorded; otherwise it is re-priced, assessed, and its
      alert latch set when it needs an alert. */
  function Step(key: string, item: WatchItem, env: Env): Checked
  {
    var quote := env.quote(key);
    if quote.None? || quote.value <= 0.0 then Checked(item, None)
    else
      var price := quote.value;
      if item.buyPrice == 0.0 then Checked(item.(currentPrice := price), None)
      else
        var priced := item.(currentPrice := price, pnlPct := PnlPct(price, item.buyPrice),
                            pnlAmount := PnlAmount(price, item.buyPrice, item.quantity),
                            lastChecked := env.now, reasons := []);
        var assessed := Assess(priced, env.chart(key, 30));
        if assessed.None? then Checked(priced, None)
        else
          var a := assessed.value;
          var alert := IsDanger(a.status) && item.status != a.status;
          Checked(a.(alertSent := a.alertSent || alert), Some(CheckResult(a, alert)))
  }

  /** The per-item body of `check_all`, field by field. */
  method CheckItem(key: string, item: WatchItem, env: Env) returns (c: Checked)
    ensures c == Step(key, item, env)
  {
    var quote := env.quote(key);
    if quote.None? {
      return Checked(item, None);
    }
    var price := quote.value;
    if price <= 0.0 {
      return Checked(item, None);
    }
    var it := item.(currentPrice := price);
    if it.buyPrice == 0.0 {
      return Checked(it, None);
    }
    it := it.(pnlPct := PnlPct(price, it.buyPrice));
    it := it.(pnlAmount := PnlAmount(price, it.buyPrice, it.quantity));
    it := it.(lastChecked := env.now, reasons := []);
    var oldStatus := it.status;
    var assessed := AssessStatus(it, key, env);
    if assessed.None? {
      return Checked(it, None);
    }
    it := assessed.value;
    var needAlert := IsDanger(it.status) && oldStatus != it.status;
    var result := CheckResult(it, needAlert);
    if needAlert {
      it := it.(alertSent := true);
    }
    c := Checked(it, Some(result));
  }

  /** The status branch of `check_all` on a priced item. */
  method AssessStatus(item: WatchItem, key: string, env: Env) returns (r: Option<WatchItem>)
    ensures r == Assess(item, env.chart(key, 30))
  {
    var it := item;
    if it.pnlPct <= -3.0 {
      it := it.(status := StatusReached, reasons := it.reasons + [LossReached(it.pnlPct)]);
    } else if it.currentPrice <= it.stopLossPrice * 1.01 {
      it := it.(status := StatusNear, reasons := it.reasons + [NearStop(Trunc(it.stopLossPrice), Trunc(it.currentPrice))]);
    } else if it.ma20Price > 0.0 && it.currentPrice < it.ma20Price {
      var chart := env.chart(key, 30);
      if chart.None? {
        return None;
      }
      var bars := chart.value;
      if |bars| >= 20 {
        var ma := Sma(Closes(bars), 20);
        it := it.(ma20Price := ma[|bars| - 1].value);
        if ma[|bars| - 2].Some? && bars[|bars| - 2].close > ma[|bars| - 2].value {
          it := it.(status := StatusWarning, reasons := it.reasons + [CrossedMa20(Trunc(it.ma20Price), Trunc(it.currentPrice))]);
        } else {
          it := it.(status := StatusWarning, reasons := it.reasons + [UnderMa20(Trunc(it.ma20Price))]);
        }
      }
    } else if it.pnlPct <= -1.0 {
      it := it.(status := StatusWarning, reasons := it.reasons + [Slipping(it.pnlPct)]);
    } else {
      var note := if it.pnlPct > 5.0 then InProfit(it.pnlPct) else if it.pnlPct > 0.0 then SmallProfit(it.pnlPct)
                  else SmallLoss(it.pnlPct);
      it := it.(status := StatusNormal, reasons := it.reasons + [note]);
    }
    r := Some(it);
  }

  /** An item without a usable quote is left as it was and reported nowhere. */
  lemma SkippedUnchanged(key: string, item: WatchItem, env: Env)
    requires env.quote(key).None? || env.quote(key).value <= 0.0
    ensures Step(key, item, env) == Checked(item, None)
  {
  }

  /** The status precedence of a priced item: a loss of 3% or more, then a price within 1%
      of the stop, then a price under the 20-day MA (which keeps the old status when the
      chart is shorter than 20 bars), then a loss of 1% or more, else normal. */
  lemma StatusPrecedence(key: string, item: WatchItem, env: Env)
    requires env.quote(key).Some? && env.quote(key).value > 0.0 && item.buyPrice != 0.0
    ensures var price := env.quote(key).value;
      var pnl := PnlPct(price, item.buyPrice);
      var c := Step(key, item, env);
      var chart := env.chart(key, 30);
      var maBranch := pnl > -3.0 && price > item.stopLossPrice * 1.01 && item.ma20Price > 0.0 && price < item.ma20Price;
      c.item.currentPrice == price && c.item.pnlPct == pnl &&
      c.item.pnlAmount == PnlAmount(price, item.buyPrice, item.quantity) &&
      (c.result.None? <==> maBranch && chart.None?) &&
      (pnl <= -3.0 ==> c.item.status == StatusReached) &&
      (pnl > -3.0 && price <= item.stopLossPrice * 1.01 ==> c.item.status == StatusNear) &&
      (maBranch && chart.Some? ==>
        c.item.status == (if |chart.value| >= 20 then StatusWarning else item.status)) &&
      (!maBranch && pnl > -3.0 && price > item.stopLossPrice * 1.01 ==>
        c.item.status == (if pnl <= -1.0 then StatusWarning else StatusNormal))
  {
  }

  /** An alert is raised exactly when the item enters a danger status it was not in, and the
      latch, once set, stays set; the reported dictionary still shows the latch as it was. */
  lemma AlertRule(key: string, item: WatchItem, env: Env)
    ensures var c := Step(key, item, env);
      (item.alertSent ==> c.item.alertSent) &&
      (c.result.Some? ==>
        (c.result.value.alert <==> IsDanger(c.item.status) && c.item.status != item.status) &&
        c.result.value.item == c.item.(alertSent := item.alertSent) &&
        (c.item.alertSent <==> item.alertSent || c.result.value.alert)) &&
      (c.result.None? ==> c.item.alertSent == item.alertSent && c.item.status == item.status)
  {
  }

  /** Checking never changes what identifies an item: ticker, name, buy price, quantity,
      date added and stop. */
  lemma StepKeepsIdentity(key: string, item: WatchItem, env: Env)
    ensures var c := Step(key, item, env);
      c.item.ticker == item.ticker && c.item.name == item.name && c.item.buyPrice == item.buyPrice &&
      c.item.quantity == item.quantity && c.item.addedDate == item.addedDate &&
      c.item.stopLossPrice == item.stopLossPrice
  {
  }

  /** A second check that lands in the same status raises no alert again. */
  lemma NoRepeatedAlert(key: string, item: WatchItem, env1: Env, env2: Env)
    requires Step(key, item, env1).result.Some?
    ensures var first := Step(key, item, env1).item;
      var second := Step(key, first, env2);
      second.result.Some? && second.item.status == first.status ==> !second.result.value.alert
  {
  }

  // ---------------------------------------------------------------
  // check_all over the dict (watchlist.py:165-263)
  // ---------------------------------------------------------------

  function CheckedItems(d: seq<(string, WatchItem)>, env: Env): (r: seq<(string, WatchItem)>)
    ensures |r| == |d|
  {
    seq(|d|, i requires 0 <= i < |d| => (d[i].0, Step(d[i].0, d[i].1, env).item))
  }

  function CheckResults(d: seq<(string, WatchItem)>, env: Env): seq<CheckResult>
  {
    if |d| == 0 then []
    else
      var r := Step(d[|d| - 1].0, d[|d| - 1].1, env).result;
      CheckResults(d[..|d| - 1], env) + (if r.Some? then [r.value] else [])
  }

  /** The results list the alerts in dict order: a result per item that was priced and
      assessed, and no more. */
  lemma {:induction false} CheckResultsCount(d: seq<(string, WatchItem)>, env: Env)
    ensures |CheckResults(d, env)| <= |d|
    ensures |CheckResults(d, env)| == |d| <==>
      forall i :: 0 <= i < |d| ==> Step(d[i].0, d[i].1, env).result.Some?
  {
    if |d| > 0 {
      var init := d[..|d| - 1];
      CheckResultsCount(init, env);
      if forall i :: 0 <= i < |d| ==> Step(d[i].0, d[i].1, env).result.Some? {
        forall i | 0 <= i < |init|
          ensures Step(init[i].0, init[i].1, env).result.Some?
        {
          assert init[i] == d[i];
        }
      }
      if |CheckResults(d, env)| == |d| {
        forall i | 0 <= i < |d|
          ensures Step(d[i].0, d[i].1, env).result.Some?
        {
          if i < |init| {
            assert init[i] == d[i];
          }
        }
      }
    }
  }

  /** Every alert of a check is an item entering a danger status. */
  lemma {:induction false} AlertsAreDangerChanges(d: seq<(string, WatchItem)>, env: Env)
    ensures forall r :: r in CheckResults(d, env) && r.alert ==> IsDanger(r.item.status)
  {
    if |d| > 0 {
      AlertsAreDangerChanges(d[..|d| - 1], env);
      AlertRule(d[|d| - 1].0, d[|d| - 1].1, env);
    }
  }

  /** The keys stay in place, every item keeps its identity, and no alert latch is cleared. */
  lemma CheckedItemsFacts(d: seq<(string, WatchItem)>, env: Env)
    ensures var r := CheckedItems(d, env);
      forall i :: 0 <= i < |d| ==>
        r[i].0 == d[i].0 && r[i].1.ticker == d[i].1.ticker && r[i].1.buyPrice == d[i].1.buyPrice &&
        (d[i].1.alertSent ==> r[i].1.alertSent)
  {
    forall i | 0 <= i < |d|
      ensures CheckedItems(d, env)[i].1.ticker == d[i].1.ticker &&
              (d[i].1.alertSent ==> CheckedItems(d, env)[i].1.alertSent)
    {
      StepKeepsIdentity(d[i].0, d[i].1, env);
      AlertRule(d[i].0, d[i].1, env);
    }
  }

  // ---------------------------------------------------------------
  // Dict helpers
  // ---------------------------------------------------------------

  /** `del d[k]`: the other entries keep their order. */
  function Without(d: seq<(string, WatchItem)>, k: string): (r: seq<(string, WatchItem)>)
    ensures |r| <= |d|
  {
    if |d| == 0 then []
    else (if d[0].0 == k then [] else [d[0]]) + Without(d[1..], k)
  }

  lemma {:induction false} LookupWithout(d: seq<(string, WatchItem)>, k: string, q: string)
    ensures Lookup(Without(d, k), q) == if q == k then None else Lookup(d, q)
  {
    if |d| > 0 {
      LookupWithout(d[1..], k, q);
      var w := Without(d[1..], k);
      if d[0].0 != k {
        assert Without(d, k) == [d[0]] + w;
        assert ([d[0]] + w)[1..] == w;
      } else {
        assert Without(d, k) == [] + w == w;
      }
    }
  }

  /** The manager's invariant: one entry per key, each under its own ticker. */
  predicate Keyed(d: seq<(string, WatchItem)>)
  {
    DistinctKeys(d) && forall i :: 0 <= i < |d| ==> d[i].1.ticker == d[i].0
  }

  lemma {:induction false} KeyedWithout(d: seq<(string, WatchItem)>, k: string)
    requires Keyed(d)
    ensures Keyed(Without(d, k))
    ensures forall i :: 0 <= i < |Without(d, k)| ==> Without(d, k)[i] in d
  {
    if |d| > 0 {
      var rest := d[1..];
      assert Keyed(rest) by {
        forall i, j | 0 <= i < j < |rest| ensures rest[i].0 != rest[j].0 {
          assert rest[i] == d[i + 1] && rest[j] == d[j + 1];
        }
      }
      KeyedWithout(rest, k);
      var w := Without(rest, k);
      if d[0].0 != k {
        forall j | 0 <= j < |w| ensures d[0].0 != w[j].0 {
          var m :| 0 <= m < |rest| && rest[m] == w[j];
          assert rest[m] == d[m + 1];
        }
        assert Without(d, k) == [d[0]] + w;
      }
    }
  }

  lemma KeyedPut(d: seq<(string, WatchItem)>, k: string, item: WatchItem)
    requires Keyed(d) && item.ticker == k
    ensures Keyed(Put(d, k, item))
  {
    if Lookup(d, k).None? {
      PutFresh(d, k, item);
      LookupAbsent(d, k);
    } else {
      PutPresent(d, k, item);
    }
  }

  // ---------------------------------------------------------------
  // WatchlistManager (watchlist.py:59-263)
  // ---------------------------------------------------------------

  class WatchlistManager {
    /** `self.items`, in insertion order. */
    var items: seq<(string, WatchItem)>

    ghost predicate Valid()
      reads this
    {
      Keyed(items)
    }

    /** A manager with an empty list (loading the saved file is not modelled). */
    constructor()
      ensures items == [] && Valid()
    {
      items := [];
    }

    /** `add`: the item, named from the collector when no name is given, is analysed and
        stored under its ticker, replacing any earlier entry. */
    method Add(ticker: string, buyPrice: real, name: string, quantity: int, env: Env) returns (item: WatchItem)
      requires Valid()
      modifies this
      ensures Valid()
      ensures item == AddedItem(ticker, buyPrice, name, quantity, env)
      ensures items == Put(old(items), ticker, item)
    {
      var n := name;
      if n == "" {
        n := DataCollector.NameOf(env.names, ticker);
      }
      item := NewItem(ticker, n, buyPrice, quantity, env.now);
      item := Analyzed(item, env.chart(ticker, 100), env.risk);
      KeyedPut(items, ticker, item);
      items := Put(items, ticker, item);
    }

    /** `remove`: true exactly when the ticker was listed; only its entry goes. */
    method Remove(ticker: string) returns (removed: bool)
      requires Valid()
      modifies this
      ensures Valid()
      ensures removed <==> Lookup(old(items), ticker).Some?
      ensures items == if removed then Without(old(items), ticker) else old(items)
    {
      if Lookup(items, ticker).Some? {
        KeyedWithout(items, ticker);
        items := Without(items, ticker);
        removed := true;
      } else {
        removed := false;
      }
    }

    /** `update_price`: a listed item gets the new buy price and a fresh stop analysis. */
    method UpdatePrice(ticker: string, buyPrice: real, env: Env) returns (r: Option<WatchItem>)
      requires Valid()
      modifies this
      ensures Valid()
      ensures Lookup(old(items), ticker).None? ==> r.None? && items == old(items)
      ensures Lookup(old(items), ticker).Some? ==>
        r == Some(Analyzed(Lookup(old(items), ticker).value.(buyPrice := buyPrice), env.chart(ticker, 100), env.risk)) &&
        items == Put(old(items), ticker, r.value)
    {
      var found := Lookup(items, ticker);
      if found.None? {
        return None;
      }
      LookupFound(items, ticker);
      var item := found.value.(buyPrice := buyPrice);
      item := Analyzed(item, env.chart(ticker, 100), env.risk);
      KeyedPut(items, ticker, item);
      items := Put(items, ticker, item);
      r := Some(item);
    }

    /** `get_all`. */
    function GetAll(): seq<WatchItem>
      reads this
    {
      Values(items)
    }

    /** `get`. */
    function Get(ticker: string): Option<WatchItem>
      reads this
    {
      Lookup(items, ticker)
    }

    /** `check_all`: every item in turn, each with its own quote and chart. */
    method CheckAll(env: Env) returns (results: seq<CheckResult>)
      requires Valid()
      modifies this
      ensures Valid()
      ensures items == CheckedItems(old(items), env)
      ensures results == CheckResults(old(items), env)
    {
      ghost var d := items;
      results := [];
      var i := 0;
      while i < |items|
        invariant |items| == |d| && 0 <= i <= |d|
        invariant forall j :: 0 <= j < i ==> items[j] == CheckedItems(d, env)[j]
        invariant items[i..] == d[i..]
        invariant results == CheckResults(d[..i], env)
      {
        var (key, item) := items[i];
        assert items[i] == d[i];
        var c := CheckItem(key, item, env);
        items := items[i := (key, c.item)];
        if c.result.Some? {
          results := results + [c.result.value];
        }
        assert d[..i + 1][..i] == d[..i];
        i := i + 1;
      }
      assert items == CheckedItems(d, env);
      assert d[..i] == d;
      CheckedItemsFacts(d, env);
      assert Keyed(items) by {
        forall j, k | 0 <= j < k < |items| ensures items[j].0 != items[k].0 {
          assert items[j].0 == d[j].0 && items[k].0 == d[k].0;
        }
      }
    }
  }

  // ---------------------------------------------------------------
  // TelegramWatchBot._handle_message and _parse_add (watchlist.py:511-609)
  // ---------------------------------------------------------------

  /** Length of the leading run of non-blank characters. */
  function TokenEnd(t: string): (n: nat)
    ensures n <= |t|
    ensures |t| > 0 && !Report.IsSpace(t[0]) ==> n > 0
  {
    if |t| == 0 || Report.IsSpace(t[0]) then 0 else 1 + TokenEnd(t[1..])
  }

  /** `s.split()`: the words between runs of whitespace. */
  function Words(s: string): seq<string>
    decreases |s|
  {
    var t := Report.StripStart(s);
    if |t| == 0 then []
    else
      var n := TokenEnd(t);
      [t[..n]] + Words(t[n..])
  }

  /** `s.replace(c, "")`. */
  function Erase(s: string, c: char): (r: string)
    ensures c !in r
  {
    if |s| == 0 then "" else (if s[0] == c then "" else [s[0]]) + Erase(s[1..], c)
  }

  /** `s.replace(" ", " / ", 1)`. */
  function SlashFirstSpace(s: string): string
  {
    if |s| == 0 then ""
    else if s[0] == ' ' then " / " + s[1..]
    else [s[0]] + SlashFirstSpace(s[1..])
  }

  predicate AllDigits(s: string)
  {
    forall i :: 0 <= i < |s| ==> '0' <= s[i] <= '9'
  }

  /** Decimal digits with at most one point and at least one digit. */
  function Unsigned(t: string): Option<real>
  {
    var parts := Split(t, '.');
    if |parts| == 1 then
      if IsDigits(t) then Some(DigitsValue(t) as real) else None
    else if |parts| == 2 && AllDigits(parts[0]) && AllDigits(parts[1]) && |parts[0]| + |parts[1]| > 0 then
      Some(DigitsValue(parts[0]) as real + DigitsValue(parts[1]) as real / Pow10(|parts[1]|))
    else None
  }

  /** `float(s)` on plain decimals: surrounding whitespace, an optional sign, digits with at
      most one point. */
  function ParseNumber(s: string): Option<real>
  {
    var t := Report.Strip(s);
    if |t| > 0 && (t[0] == '+' || t[0] == '-') then
      var v := Unsigned(t[1..]);
      if v.None? then None else Some(if t[0] == '-' then -v.value else v.value)
    else Unsigned(t)
  }

  /** The names `_parse_add` knows, with their tickers. */
  const KnownTickers: map<string, string> := map[
    "삼성전자" := "005930", "SK하이닉스" := "000660",
    "LG에너지솔루션" := "373220", "현대차" := "005380",
    "삼성바이오로직스" := "207940", "삼성SDI" := "006400",
    "NAVER" := "035420", "네이버" := "035420",
    "LG화학" := "051910", "셀트리온" := "068270",
    "삼성물산" := "028260", "카카오" := "035720",
    "KB금융" := "105560", "신한지주" := "055550",
    "LG전자" := "066570", "포스코퓨처엠" := "003670",
    "기아" := "000270", "현대모비스" := "012330",
    "SK이노베이션" := "096770", "SK" := "034730",
    "한국전력" := "015760"]

  /** What `_parse_add` makes of "name / price" or "ticker / price". */
  datatype AddPlan =
    | BadFormat
    | BadPrice(raw: string)
    | UnknownName(name: string)
    | Register(ticker: string, price: real, name: string)

  function ParseAdd(text: string): AddPlan
  {
    var parts := Parts(text);
    if |parts| < 2 then BadFormat else Planned(parts[0], parts[1])
  }

  /** The '/'-separated fields, stripped. */
  function Parts(text: string): (parts: seq<string>)
    ensures |parts| == |Split(text, '/')|
  {
    var split := Split(text, '/');
    seq(|split|, i requires 0 <= i < |split| => Report.Strip(split[i]))
  }

  /** The price field with thousands commas and the won sign removed. */
  function PriceOf(raw: string): Option<real>
  {
    ParseNumber(Erase(WithoutCommas(raw), '원'))
  }

  function Planned(first: string, second: string): AddPlan
  {
    var nameOrTicker := Report.Strip(first);
    var price := PriceOf(second);
    if price.None? then BadPrice(second)
    else if IsDigits(nameOrTicker) then Register(nameOrTicker, price.value, "")
    else if nameOrTicker in KnownTickers then Register(KnownTickers[nameOrTicker], price.value, nameOrTicker)
    else UnknownName(nameOrTicker)
  }

  /** A registration names a digit ticker as given, or a known name with its own ticker, at
      the price the text spells. */
  lemma ParseAddMeaning(text: string)
    ensures match ParseAdd(text)
      case Register(t, p, n) =>
        ((n == "" && IsDigits(t)) || (n in KnownTickers && KnownTickers[n] == t)) &&
        PriceOf(Parts(text)[1]) == Some(p)
      case BadFormat => '/' !in text
      case _ => true
  {
    var parts := Parts(text);
    if |parts| < 2 {
      SplitSingle(text, '/');
    } else {
      PlannedMeaning(parts[0], parts[1]);
    }
  }

  /** `Planned` registers a digit ticker as given or a known name with its own ticker, at
      the price of the second field. */
  lemma PlannedMeaning(first: string, second: string)
    ensures match Planned(first, second)
      case Register(t, p, n) =>
        ((n == "" && IsDigits(t)) || (n in KnownTickers && KnownTickers[n] == t)) && PriceOf(second) == Some(p)
      case BadPrice(raw) => raw == second && PriceOf(second) == None
      case UnknownName(n) => n !in KnownTickers && !IsDigits(n)
      case BadFormat => false
  {
    var n := Report.Strip(first);
    var price := PriceOf(second);
    if price.Some? && !IsDigits(n) && n !in KnownTickers {
      assert Planned(first, second) == UnknownName(n);
    }
  }

  /** A text that splits into one part has no separator. */
  lemma {:induction false} SplitSingle(s: string, sep: char)
    requires |Split(s, sep)| == 1
    ensures sep !in s
  {
    if |s| > 0 {
      var rest := Split(s[1..], sep);
      if s[0] != sep {
        SplitSingle(s[1..], sep);
      }
    }
  }

  /** The slash commands `_handle_message` recognises. */
  const ListCommands: seq<string> := ["/목록", "/list", "/리스트"]
  const ReportCommands: seq<string> := ["/보고", "/report", "/요약"]
  const RemoveCommands: seq<string> := ["/삭제", "/remove"]

  /** Where `_handle_message` sends a message. */
  datatype Command = ListItems | DailyReport | RemoveTicker(ticker: string) | AddEntry(text: string) | Usage

  function Route(raw: string): Command
  {
    var text := Report.Strip(raw);
    var words := Words(text);
    if text in ["/목록", "/list", "/리스트"] then ListItems
    else if text in ["/보고", "/report", "/요약"] then DailyReport
    else if (StartsWith(text, "/삭제") || StartsWith(text, "/remove")) && |words| >= 2 then
      RemoveTicker(Report.Strip(words[1]))
    else if '/' in text then AddEntry(text)
    else if |words| >= 2 && ParseNumber(WithoutCommas(words[|words| - 1])).Some? then AddEntry(SlashFirstSpace(text))
    else Usage
  }

  /** Erasing distributes over concatenation. */
  lemma {:induction false} EraseAppend(a: string, b: string, c: char)
    ensures Erase(a + b, c) == Erase(a, c) + Erase(b, c)
  {
    if |a| == 0 {
      assert a + b == b;
    } else {
      var h := if a[0] == c then "" else [a[0]];
      assert (a + b)[0] == a[0];
      assert (a + b)[1..] == a[1..] + b;
      EraseAppend(a[1..], b, c);
      calc {
        Erase(a + b, c);
        h + Erase(a[1..] + b, c);
        h + (Erase(a[1..], c) + Erase(b, c));
        (h + Erase(a[1..], c)) + Erase(b, c);
        Erase(a, c) + Erase(b, c);
      }
    }
  }

  lemma {:induction false} EraseAbsent(s: string, c: char)
    requires c !in s
    ensures Erase(s, c) == s
  {
    if |s| > 0 {
      EraseAbsent(s[1..], c);
    }
  }

  /** A text without the separator is one field. */
  lemma {:induction false} SplitAbsent(s: string, sep: char)
    requires sep !in s
    ensures Split(s, sep) == [s]
  {
    if |s| > 0 {
      SplitAbsent(s[1..], sep);
      assert [s[0]] + s[1..] == s;
    }
  }

  /** Splitting at a separator that only occurs once gives the two sides. */
  lemma {:induction false} SplitAround(a: string, sep: char, b: string)
    requires sep !in a && sep !in b
    ensures Split(a + [sep] + b, sep) == [a, b]
  {
    if |a| == 0 {
      assert a + [sep] + b == [sep] + b;
      assert ([sep] + b)[1..] == b;
      SplitAbsent(b, sep);
    } else {
      assert (a + [sep] + b)[1..] == a[1..] + [sep] + b;
      SplitAround(a[1..], sep, b);
      assert [a[0]] + a[1..] == a;
    }
  }

  /** Whitespace on the left of a text is dropped by stripping from the start. */
  lemma {:induction false} StripStartSpaces(w: string, s: string)
    requires forall i :: 0 <= i < |w| ==> Report.IsSpace(w[i])
    ensures Report.StripStart(w + s) == Report.StripStart(s)
  {
    if |w| == 0 {
      assert w + s == s;
    } else {
      assert (w + s)[1..] == w[1..] + s;
      StripStartSpaces(w[1..], s);
    }
  }

  /** A text that already begins and ends with a visible character strips to itself. */
  lemma StripVisible(s: string)
    requires |s| > 0 && !Report.IsSpace(s[0]) && !Report.IsSpace(s[|s| - 1])
    ensures Report.Strip(s) == s
  {
  }

  /** Digits read as `float` give their value. */
  lemma ParseNumberDigits(s: string)
    requires IsDigits(s)
    ensures ParseNumber(s) == Some(DigitsValue(s) as real)
  {
    StripVisible(s);
    SplitAbsent(s, '.');
  }

  /** The first character of `f"{n:,}"` is a digit. */
  lemma {:induction false} GroupedNatFirst(n: nat)
    ensures |GroupedNat(n)| > 0 && '0' <= GroupedNat(n)[0] <= '9'
  {
    if n >= 1000 {
      GroupedNatFirst(n / 1000);
    }
  }

  /** `f"{n:,}"` with the commas dropped is a digit string of value `n`. */
  lemma GroupedNatDigits(n: nat)
    ensures IsDigits(WithoutCommas(GroupedNat(n))) && DigitsValue(WithoutCommas(GroupedNat(n))) == n
  {
    GroupedNatValue(n);
    if n < 1000 {
      WithoutCommasDigits(NatToString(n));
    }
  }

  /** A price written as `f"{n:,}"`, with or without the won sign, reads back as `n`. */
  lemma PriceOfGrouped(n: nat)
    ensures PriceOf(GroupedNat(n)) == Some(n as real)
    ensures PriceOf(GroupedNat(n) + "원") == Some(n as real)
  {
    GroupedNatDigits(n);
    PriceOfDigits(GroupedNat(n));
    WonSuffixDropped(GroupedNat(n));
  }

  /** A text that is a digit string once its commas are dropped reads as that number. */
  lemma PriceOfDigits(g: string)
    requires IsDigits(WithoutCommas(g))
    ensures PriceOf(g) == Some(DigitsValue(WithoutCommas(g)) as real)
  {
    var d := WithoutCommas(g);
    ParseNumberDigits(d);
    assert '원' !in d;
    EraseAbsent(d, '원');
  }

  /** A trailing won sign is dropped before the number is read. */
  lemma WonSuffixDropped(g: string)
    ensures PriceOf(g + "원") == PriceOf(g)
  {
    var d := WithoutCommas(g);
    assert WithoutCommas(g + "원") == d + "원" by {
      assert "원"[..0] == "";
      WithoutCommasAppend(g, "원");
    }
    assert Erase(d + "원", '원') == Erase(d, '원') by {
      assert "원"[1..] == "";
      EraseAppend(d, "원", '원');
    }
  }

  /**
   * The entry format round trip: `first / f"{n:,}"원` registers the digits of `first` as a
   * ticker, or the ticker of a known name, at price `n`, and otherwise names the unknown
   * entry.
   */
  lemma ParseAddRoundTrip(first: string, n: nat)
    requires Report.Strip(first) == first && '/' !in first
    ensures ParseAdd(first + " / " + GroupedNat(n) + "원") ==
      if IsDigits(first) then Register(first, n as real, "")
      else if first in KnownTickers then Register(KnownTickers[first], n as real, first)
      else UnknownName(first)
  {
    var g := GroupedNat(n);
    GroupedNatFirst(n);
    assert '/' !in g by {
      GroupedNatDigitsOrCommas(n);
    }
    EntryParts(first, g);
    PriceOfGrouped(n);
    assert ParseAdd(first + " / " + g + "원") == Planned(first, g + "원");
    assert Report.Strip(first) == first;
  }

  /** The two fields of `first / g원`. */
  lemma EntryParts(first: string, g: string)
    requires Report.Strip(first) == first && '/' !in first
    requires |g| > 0 && '0' <= g[0] <= '9' && '/' !in g
    ensures var parts := Parts(first + " / " + g + "원");
      |parts| == 2 && parts[0] == first && parts[1] == g + "원"
  {
    var left, right := first + " ", " " + g + "원";
    assert first + " / " + g + "원" == left + ['/'] + right;
    SplitAround(left, '/', right);
    StripBlankAfter(first);
    StripPriced(g);
  }

  lemma StripBlankAfter(s: string)
    requires Report.Strip(s) == s
    ensures Report.Strip(s + " ") == s
  {
    assert (s + " ")[..|s|] == s;
  }

  lemma StripPriced(g: string)
    requires |g| > 0 && '0' <= g[0] <= '9'
    ensures Report.Strip(" " + g + "원") == g + "원"
  {
    var priced := g + "원";
    assert !Report.IsSpace(priced[0]) && !Report.IsSpace(priced[|priced| - 1]);
    StripLeadingBlank(priced);
    assert " " + priced == " " + g + "원";
  }

  lemma StripLeadingBlank(x: string)
    requires |x| > 0 && !Report.IsSpace(x[0]) && !Report.IsSpace(x[|x| - 1])
    ensures Report.Strip(" " + x) == x
  {
    var s := " " + x;
    assert s[|s| - 1] == x[|x| - 1];
    assert Report.StripEnd(s) == s;
    assert s[1..] == x;
  }

  /** `f"{n:,}"` is made of digits and commas. */
  lemma {:induction false} GroupedNatDigitsOrCommas(n: nat)
    ensures forall i :: 0 <= i < |GroupedNat(n)| ==> GroupedNat(n)[i] == ',' || '0' <= GroupedNat(n)[i] <= '9'
  {
    if n >= 1000 {
      GroupedNatDigitsOrCommas(n / 1000);
    }
  }

  /** A nonempty run of visible characters. */
  predicate IsWord(a: string)
  {
    |a| > 0 && forall i :: 0 <= i < |a| ==> !Report.IsSpace(a[i])
  }

  lemma {:induction false} TokenEndWord(a: string, rest: string)
    requires forall i :: 0 <= i < |a| ==> !Report.IsSpace(a[i])
    requires |rest| == 0 || Report.IsSpace(rest[0])
    ensures TokenEnd(a + rest) == |a|
  {
    if |a| == 0 {
      assert a + rest == rest;
    } else {
      assert (a + rest)[1..] == a[1..] + rest;
      TokenEndWord(a[1..], rest);
    }
  }

  lemma WordsOne(a: string)
    requires IsWord(a)
    ensures Words(a) == [a]
  {
    TokenEndWord(a, "");
    assert a + "" == a;
    assert a[|a|..] == "";
  }

  /** Two words with one blank between them split into those two words. */
  lemma WordsTwo(a: string, b: string)
    requires IsWord(a) && IsWord(b)
    ensures Words(a + " " + b) == [a, b]
  {
    var s := a + " " + b;
    assert s == a + (" " + b);
    assert Report.StripStart(s) == s;
    TokenEndWord(a, " " + b);
    assert s[..|a|] == a && s[|a|..] == " " + b;
    StripStartSpaces(" ", b);
    assert Report.StripStart(b) == b;
    WordsOne(b);
  }

  lemma {:induction false} SlashFirstSpaceWord(a: string, b: string)
    requires ' ' !in a
    ensures SlashFirstSpace(a + " " + b) == a + " / " + b
  {
    if |a| == 0 {
      assert a + " " + b == " " + b;
      assert (" " + b)[1..] == b;
    } else {
      assert (a + " " + b)[1..] == a[1..] + " " + b;
      SlashFirstSpaceWord(a[1..], b);
      assert [a[0]] + (a[1..] + " / " + b) == a + " / " + b;
    }
  }

  /** "name price" with a price written as `f"{n:,}"` is read as "name / price". */
  lemma RouteSpaced(name: string, n: nat)
    requires IsWord(name) && '/' !in name
    ensures Route(name + " " + GroupedNat(n)) == AddEntry(name + " / " + GroupedNat(n))
  {
    var g := GroupedNat(n);
    GroupedNatWord(n);
    GroupedNatDigits(n);
    ParseNumberDigits(WithoutCommas(g));
    RouteNamePrice(name, g);
  }

  /** `f"{n:,}"` is one word without a slash. */
  lemma GroupedNatWord(n: nat)
    ensures IsWord(GroupedNat(n)) && '/' !in GroupedNat(n)
  {
    GroupedNatFirst(n);
    GroupedNatDigitsOrCommas(n);
  }

  /** Two words, the second a number and neither holding a slash, are read as
      "first / second". */
  lemma RouteNamePrice(name: string, price: string)
    requires IsWord(name) && '/' !in name && IsWord(price) && '/' !in price
    requires ParseNumber(WithoutCommas(price)).Some?
    ensures Route(name + " " + price) == AddEntry(name + " / " + price)
  {
    var text := name + " " + price;
    assert text[0] == name[0] && text[|text| - 1] == price[|price| - 1];
    assert '/' !in text;
    StripVisible(text);
    WordsTwo(name, price);
    RoutePlain(text);
    SlashFirstSpaceWord(name, price);
  }

  /** A stripped text without a slash is an entry when it ends in a number and otherwise
      gets the usage help. */
  lemma RoutePlain(text: string)
    requires Report.Strip(text) == text && |text| > 0 && '/' !in text
    ensures var words := Words(text);
      Route(text) ==
        if |words| >= 2 && ParseNumber(WithoutCommas(words[|words| - 1])).Some? then AddEntry(SlashFirstSpace(text))
        else Usage
  {
    NoCommand(text);
  }

  /** A text that does not begin with a slash is none of the slash commands. */
  lemma NoCommand(text: string)
    requires |text| > 0 && text[0] != '/'
    ensures text !in ["/목록", "/list", "/리스트"] && text !in ["/보고", "/report", "/요약"]
    ensures !StartsWith(text, "/삭제") && !StartsWith(text, "/remove")
  {
    forall i | 0 <= i < |ListCommands|
      ensures ListCommands[i] != text
    {
      NotKeyword(text, ListCommands[i]);
    }
    forall i | 0 <= i < |ReportCommands|
      ensures ReportCommands[i] != text
    {
      NotKeyword(text, ReportCommands[i]);
    }
    NotKeyword(text, RemoveCommands[0]);
    NotKeyword(text, RemoveCommands[1]);
  }

  lemma NotKeyword(text: string, lit: string)
    requires |text| > 0 && text[0] != '/' && lit in ListCommands + ReportCommands + RemoveCommands
    ensures text != lit && !StartsWith(text, lit)
  {
    assert |lit| > 0 && lit[0] == '/';
    if |lit| <= |text| {
      assert text[..|lit|][0] == text[0];
    }
  }

  /** "/삭제" with no ticker is not a removal: it falls through to the entry parser, which
      reports the word after the slash as a bad price. */
  lemma BareRemoveIsEntry()
    ensures Route("/삭제") == AddEntry("/삭제")
    ensures ParseAdd("/삭제") == BadPrice("삭제")
  {
    BareRemoveRoute();
    BareRemoveParse();
  }

  lemma BareRemoveRoute()
    ensures Route("/삭제") == AddEntry("/삭제")
  {
    var s := "/삭제";
    assert IsWord(s);
    WordsOne(s);
    StripVisible(s);
  }

  lemma BareRemoveParse()
    ensures ParseAdd("/삭제") == BadPrice("삭제")
  {
    var s, w := "/삭제", "삭제";
    assert s == "" + ['/'] + w;
    SplitAround("", '/', w);
    StripVisible(w);
    assert Parts(s) == ["", w];
    NotANumber();
  }

  lemma NotANumber()
    ensures PriceOf("삭제") == None
  {
    var w := "삭제";
    assert ',' !in w && '원' !in w;
    WithoutCommasAbsent(w);
    EraseAbsent(w, '원');
    ParseNumberRejects(w);
  }

  /** A word that starts with neither a sign nor a digit and has no point is no number. */
  lemma ParseNumberRejects(w: string)
    requires |w| > 0 && !Report.IsSpace(w[0]) && !Report.IsSpace(w[|w| - 1]) && '.' !in w
    requires w[0] != '+' && w[0] != '-' && !('0' <= w[0] <= '9')
    ensures ParseNumber(w) == None
  {
    StripVisible(w);
    SplitAbsent(w, '.');
  }

  /** The answers of the bot. */
  datatype Reply =
    | EmptyList
    | Listing(items: seq<WatchItem>)
    | Report(items: seq<WatchItem>)
    | Removed(ticker: string)
    | NotFound(ticker: string)
    | FormatHelp
    | PriceHelp(raw: string)
    | NoTicker(name: string)
    | Registered(item: WatchItem)
    | Help

  /** The effect of a routed message on the list, and its reply. */
  function Handled(d: seq<(string, WatchItem)>, command: Command, env: Env): (seq<(string, WatchItem)>, Reply)
  {
    match command
    case ListItems => (d, if |d| == 0 then EmptyList else Listing(Values(d)))
    case DailyReport =>
      if |d| == 0 then (d, EmptyList) else (CheckedItems(d, env), Report(Values(CheckedItems(d, env))))
    case RemoveTicker(t) => if Lookup(d, t).Some? then (Without(d, t), Removed(t)) else (d, NotFound(t))
    case AddEntry(text) => HandledAdd(d, ParseAdd(text), env)
    case Usage => (d, Help)
  }

  /** The effect of a parsed "name / price" message. */
  function HandledAdd(d: seq<(string, WatchItem)>, plan: AddPlan, env: Env): (seq<(string, WatchItem)>, Reply)
  {
    match plan
    case BadFormat => (d, FormatHelp)
    case BadPrice(raw) => (d, PriceHelp(raw))
    case UnknownName(n) => (d, NoTicker(n))
    case Register(t, p, n) =>
      var item := AddedItem(t, p, n, 0, env);
      (Put(d, t, item), Registered(item))
  }

  /** The list changes only through a daily report's check, the removal of a listed ticker
      or a registration; every other message leaves it as it was. */
  lemma HandledChanges(d: seq<(string, WatchItem)>, command: Command, env: Env)
    ensures var (d', _) := Handled(d, command, env);
      d' != d ==>
        command == DailyReport ||
        (command.RemoveTicker? && Lookup(d, command.ticker).Some?) ||
        (command.AddEntry? && ParseAdd(command.text).Register?)
  {
    if command.AddEntry? && !ParseAdd(command.text).Register? {
      assert Handled(d, command, env).0 == d;
    }
  }

  /** A registration stores the item under its ticker and replies with it; every other
      plan leaves the list as it was. */
  lemma HandledRegister(d: seq<(string, WatchItem)>, plan: AddPlan, env: Env, q: string)
    ensures var (d', reply) := HandledAdd(d, plan, env);
      if plan.Register? then
        reply.Registered? && reply.item.ticker == plan.ticker && reply.item.buyPrice == plan.price &&
        Lookup(d', q) == if q == plan.ticker then Some(reply.item) else Lookup(d, q)
      else d' == d && !reply.Registered?
  {
    if plan.Register? {
      LookupPut(d, plan.ticker, AddedItem(plan.ticker, plan.price, plan.name, 0, env), q);
    }
  }

  /** The reply text; the daily report's text is not modelled. */
  function ReplyText(r: Reply): Option<string>
  {
    match r
    case EmptyList => Some("📋 관찰 리스트가 비어 있습니다.")
    case Listing(items) =>
      Some(Join(["📋 *관찰 리스트*\n"] + seq(|items|, i requires 0 <= i < |items| => ListLine(items[i])), "\n"))
    case Report(_) => None
    case Removed(t) => Some("🗑\U{FE0F} " + t + " 관찰 해제 완료")
    case NotFound(t) => Some("❌ " + t + "를 찾을 수 없습니다.")
    case FormatHelp => Some("❌ 형식: `종목명 / 매수가` (예: 삼성전자 / 78500)")
    case PriceHelp(raw) => Some("❌ 매수가를 숫자로 입력해주세요: `" + raw + "`")
    case NoTicker(n) => Some("❌ '" + n + "' 종목코드를 찾을 수 없습니다.")
    case Registered(item) =>
      Some("✅ 관찰 등록 완료!\n\n📌 " + item.name + "(" + item.ticker + ")\n💰 매수가: " +
           Grouped(Trunc(item.buyPrice)) + "원\n🛑 자동 손절가: " + Grouped(Trunc(item.stopLossPrice)) +
           "원\n📐 MA20: " + Grouped(Trunc(item.ma20Price)) + "원")
    case Help => Some(UsageText)
  }

  function ListLine(item: WatchItem): string
  {
    "• " + item.name + "(" + item.ticker + ") " + Grouped(Trunc(item.buyPrice)) + "원 " +
    (if item.pnlPct >= 0.0 then "🟢" else "🔴") + SignedFixed(item.pnlPct, 1) + "%"
  }

  const UsageText: string :=
    "📌 *관찰 리스트 사용법*\n\n종목 등록:\n `삼성전자 / 78500`\n `005930 / 78500`\n\n명령어:\n" +
    " /목록 — 관찰 리스트 보기\n /보고 — 일일 요약 보고\n /삭제 005930 — 종목 제거\n"

  /** `TelegramWatchBot`: answers chat messages on a watchlist (the polling loop is not
      modelled). */
  class WatchBot {
    const watchlist: WatchlistManager

    constructor(watchlist: WatchlistManager)
      ensures this.watchlist == watchlist
    {
      this.watchlist := watchlist;
    }

    /** Registers a parsed entry, or says what is wrong with it. */
    method HandleAdd(plan: AddPlan, env: Env) returns (reply: Reply)
      requires watchlist.Valid()
      modifies watchlist
      ensures watchlist.Valid()
      ensures (watchlist.items, reply) == HandledAdd(old(watchlist.items), plan, env)
    {
      match plan
      case BadFormat => reply := FormatHelp;
      case BadPrice(raw) => reply := PriceHelp(raw);
      case UnknownName(n) => reply := NoTicker(n);
      case Register(t, p, n) =>
        var item := watchlist.Add(t, p, n, 0, env);
        reply := Registered(item);
    }

    /** `_handle_message`: strips and routes the text, then acts on the command. */
    method HandleMessage(raw: string, env: Env) returns (reply: Reply)
      requires watchlist.Valid()
      modifies watchlist
      ensures watchlist.Valid()
      ensures (watchlist.items, reply) == Handled(old(watchlist.items), Route(raw), env)
    {
      reply := Dispatch(Route(raw), env);
    }

    /** The branches of `_handle_message`, with `_parse_add` and the manager's operations. */
    method Dispatch(command: Command, env: Env) returns (reply: Reply)
      requires watchlist.Valid()
      modifies watchlist
      ensures watchlist.Valid()
      ensures (watchlist.items, reply) == Handled(old(watchlist.items), command, env)
    {
      match command
      case ListItems =>
        var items := watchlist.GetAll();
        reply := if |items| == 0 then EmptyList else Listing(items);
      case DailyReport =>
        if |watchlist.items| == 0 {
          reply := EmptyList;
        } else {
          var _ := watchlist.CheckAll(env);
          reply := Report(watchlist.GetAll());
        }
      case RemoveTicker(t) =>
        var removed := watchlist.Remove(t);
        reply := if removed then Removed(t) else NotFound(t);
      case AddEntry(text) =>
        reply := HandleAdd(ParseAdd(text), env);
      case Usage =>
        reply := Help;
    }
  }
}
