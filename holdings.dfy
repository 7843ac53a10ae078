// The holdings table of supabase_client.py: a remote table of held positions,
// read and written over REST, and `check_and_update_all`, which re-prices every
// holding, keeps its highest price for a trailing stop, moves it through the
// status states and reports an alert only when the status turns into an alert
// state. The table is the `rows` field of a `HoldingStore`; whether the database
// answers a request is the parameter `ok`; quotes, charts, the system settings
// and the clock are given in an `Env`.

module Holdings {
  import opened Common
  import opened Config
  import opened Indicators
  import Watchlist

  const StatusNormal: string := "정상"
  const StatusStopHit: string := "손절도달"
  const StatusTrailingHit: string := "익절도달"
  const StatusWarning: string := "경고"

  /** The monitoring mode `add_holding` records by default. */
  const DefaultMode: string := "손절 중심"
  /** The trailing-stop percentage `add_holding` records, and `check_and_update_all` assumes
      for a row without one. */
  const DefaultTrailingPct: real := 5.0

  /** The statuses that raise an alert when a holding enters them. */
  predicate IsAlertStatus(status: string)
  {
    status == StatusStopHit || status == StatusTrailingHit || status == StatusWarning
  }

  /**
   * A row of the holdings table. The columns read with a default when the row lacks them
   * are options (`None` = absent); an absent ticker, buy price or quantity reads as "", 0
   * and 0 and is written as that.
   */
  datatype Row = Row(
    ticker: string, name: Option<string>, buyPrice: real, quantity: int, accountNote: string,
    currentPrice: real, pnlPct: real, pnlAmount: real, status: Option<string>,
    monitoringMode: string, highestPrice: Option<real>, trailingStopPct: Option<real>,
    stopLossPrice: real, ma20Price: real, lastReason: string, createdAt: string, updatedAt: string)

  /** The record `add_holding` inserts. */
  function NewRow(ticker: string, name: string, buyPrice: real, quantity: int, accountNote: string,
                  monitoringMode: string, trailingStopPct: real, now: string): Row
  {
    Row(ticker, Some(name), buyPrice, quantity, accountNote, buyPrice, 0.0, 0.0, Some(StatusNormal),
        monitoringMode, Some(buyPrice), Some(trailingStopPct), RoundTo(buyPrice * 0.97, 0), 0.0, "", now, now)
  }

  /** A new holding starts at its buy price, at its highest, normal and without profit or
      loss, with its stop within half a won of 97% of the buy price. */
  lemma NewRowFacts(ticker: string, name: string, buyPrice: real, quantity: int, accountNote: string,
                    monitoringMode: string, trailingStopPct: real, now: string)
    ensures var r := NewRow(ticker, name, buyPrice, quantity, accountNote, monitoringMode, trailingStopPct, now);
      r.currentPrice == buyPrice && r.highestPrice == Some(buyPrice) && r.status == Some(StatusNormal) &&
      r.pnlPct == 0.0 && r.pnlAmount == 0.0 &&
      -0.5 <= r.stopLossPrice - buyPrice * 0.97 <= 0.5
  {
    assert Pow10(0) == 1.0;
  }

  /** The status a row had before a check: "정상" when it has none. */
  function OldStatus(row: Row): string
  {
    if row.status.Some? then row.status.value else StatusNormal
  }

  /** The first reason a check writes. */
  datatype Reason =
    | FixedStop(pnl: real)
    | TrailingProfit(highest: real, drop: real)
    | MaBreak(period: nat)
    | Dropping(pnl: real)
    | Profit(pnl: real, highest: real)

  function ReasonText(r: Reason): string
  {
    match r
    case FixedStop(p) => "🚨 매수가 대비 " + SignedFixed(p, 1) + "% 하락 (고정 손절)"
    case TrailingProfit(h, d) => "💰 추적 익절: 고점(" + Grouped(Trunc(h)) + ") 대비 " + Fixed(d, 1) + "% 하락"
    case MaBreak(n) => "📉 " + NatToString(n) + "일선 이탈!"
    case Dropping(p) => "주의: " + SignedFixed(p, 1) + "% 하락 중"
    case Profit(p, h) => "수익 " + SignedFixed(p, 1) + "% (최고가 " + Grouped(Trunc(h)) + ")"
  }

  /** `reasons[0] if reasons else ""`. */
  function ReasonLine(r: Option<Reason>): string
  {
    if r.Some? then ReasonText(r.value) else ""
  }

  /** What the check reads from outside: the current price (`None` when the collector gives
      nothing or raises), the daily chart for a ticker and a number of days (`None` when it
      is empty or reading it raises), whether the write-back of a ticker succeeds (`False`
      from `update_holding`, which the check ignores), the system settings and the clock's
      ISO time. */
  datatype Env = Env(
    quote: string -> Option<real>, chart: (string, nat) -> Option<seq<Bar>>,
    written: string -> bool, sys: SystemConfig, now: string)

  // ---------------------------------------------------------------
  // One holding (supabase_client.py:193-260)
  // ---------------------------------------------------------------

  /** The price a holding is checked at; `None` when the check skips it: no ticker, no
      positive buy price, no quote or no positive quote. */
  function PriceFor(row: Row, env: Env): (p: Option<real>)
    ensures p.Some? ==> p.value > 0.0 && row.buyPrice > 0.0
  {
    if row.ticker == "" || row.buyPrice <= 0.0 then None
    else
      var q := env.quote(row.ticker);
      if q.None? || q.value <= 0.0 then None else q
  }

  /** `int(quantity) or 1`: a quantity of zero counts as one share. */
  function ShareCount(quantity: int): (n: int)
    ensures n != 0
    ensures quantity != 0 ==> n == quantity
  {
    if quantity == 0 then 1 else quantity
  }

  /** The MA of the stop period over the chart and whether the price has just broken under
      it: today's MA value (0 without a chart of that many bars) and whether yesterday's
      close stood over yesterday's MA while the price is under today's. */
  function MaReading(chart: Option<seq<Bar>>, period: nat, price: real): (real, bool)
  {
    if chart.None? || period == 0 || |chart.value| < period then (0.0, false)
    else
      var bars := chart.value;
      var n := |bars|;
      var ma := Sma(Closes(bars), period);
      var today := ma[n - 1].value;
      (today, n >= 2 && ma[n - 2].Some? && bars[n - 2].close > ma[n - 2].value && price < today)
  }

  /** The outcome of checking one holding at a price. */
  datatype Verdict = Verdict(
    pnlPct: real, pnlAmount: real, highest: real, drop: real, ma20: real,
    status: string, reason: Option<Reason>)

  /** The stored highest price, or the buy price when the row has none. */
  function StoredHighest(row: Row): real
  {
    if row.highestPrice.Some? then row.highestPrice.value else row.buyPrice
  }

  function TrailPct(row: Row): real
  {
    if row.trailingStopPct.Some? then row.trailingStopPct.value else DefaultTrailingPct
  }

  /** The drop from the highest price, in percent. */
  function DropPct(highest: real, price: real): real
    requires highest > 0.0
  {
    (highest - price) / highest * 100.0
  }

  /** `round((price - buy) * (int(quantity) or 1), 0)`. */
  function PnlAmount(price: real, buy: real, quantity: int): real
  {
    RoundTo((price - buy) * ShareCount(quantity) as real, 0)
  }

  /** The status and first reason from the profit and loss, the trailing hit and the MA
      break, in the order the source tests them. */
  function Judged(pnl: real, trailingHit: bool, broken: bool, highest: real, drop: real, sys: SystemConfig)
    : (string, Option<Reason>)
  {
    if pnl <= sys.stopLossPct then (StatusStopHit, Some(FixedStop(pnl)))
    else if trailingHit then (StatusTrailingHit, Some(TrailingProfit(highest, drop)))
    else if broken then (StatusWarning, Some(MaBreak(sys.maStopPeriod)))
    else if pnl <= -1.0 then (StatusWarning, Some(Dropping(pnl)))
    else (StatusNormal, if pnl > 0.0 then Some(Profit(pnl, highest)) else None)
  }

  /** The check of a holding at a positive price: profit and loss, the highest price so far,
      the drop from it, the MA reading and the status with its first reason. */
  function Evaluate(row: Row, price: real, chart: Option<seq<Bar>>, sys: SystemConfig): Verdict
    requires row.buyPrice > 0.0 && price > 0.0
  {
    var pnl := Watchlist.PnlPct(price, row.buyPrice);
    var highest := MaxR(StoredHighest(row), price);
    var drop := DropPct(highest, price);
    var reading := MaReading(chart, sys.maStopPeriod, price);
    var judged := Judged(pnl, drop >= TrailPct(row) && pnl > 0.0, reading.1, highest, drop, sys);
    Verdict(pnl, PnlAmount(price, row.buyPrice, row.quantity), highest, drop, reading.0, judged.0, judged.1)
  }

  /** The columns `check_and_update_all` writes back. */
  datatype Update = Update(
    currentPrice: real, pnlPct: real, pnlAmount: real, ma20Price: real, highestPrice: real,
    status: string, lastReason: string)

  function UpdateOf(v: Verdict, price: real): Update
  {
    Update(price, v.pnlPct, v.pnlAmount, v.ma20, v.highest, v.status, ReasonLine(v.reason))
  }

  /** A row after a patch, stamped with the time. */
  function Applied(row: Row, u: Update, now: string): Row
  {
    row.(currentPrice := u.currentPrice, pnlPct := u.pnlPct, pnlAmount := u.pnlAmount,
         ma20Price := u.ma20Price, highestPrice := Some(u.highestPrice), status := Some(u.status),
         lastReason := u.lastReason, updatedAt := now)
  }

  /** The table after `PATCH ?ticker=eq.<ticker>`: every row of that ticker patched, the
      others as they were. */
  function Patched(rows: seq<Row>, ticker: string, u: Update, now: string): (r: seq<Row>)
    ensures |r| == |rows|
    ensures forall i :: 0 <= i < |rows| ==>
      r[i] == if rows[i].ticker == ticker then Applied(rows[i], u, now) else rows[i]
  {
    seq(|rows|, i requires 0 <= i < |rows| =>
      if rows[i].ticker == ticker then Applied(rows[i], u, now) else rows[i])
  }

  /** The alert of a holding that entered an alert status. */
  datatype Alert = Alert(
    ticker: string, name: string, buyPrice: real, currentPrice: real, pnlPct: real,
    status: string, reason: string, highest: real)

  function AlertOf(row: Row, v: Verdict, price: real): Alert
  {
    Alert(row.ticker, if row.name.Some? then row.name.value else row.ticker, row.buyPrice, price,
          v.pnlPct, v.status, ReasonLine(v.reason), v.highest)
  }

  /** The alert a holding raises in a check, if any. */
  function AlertFor(row: Row, env: Env): Option<Alert>
  {
    var p := PriceFor(row, env);
    if p.None? then None
    else
      var v := Evaluate(row, p.value, env.chart(row.ticker, 30), env.sys);
      if IsAlertStatus(v.status) && OldStatus(row) != v.status then Some(AlertOf(row, v, p.value)) else None
  }

  /** The table after checking one holding of the snapshot: unchanged when the holding is
      skipped or its write-back fails. */
  function AfterCheck(rows: seq<Row>, row: Row, env: Env): seq<Row>
  {
    var p := PriceFor(row, env);
    if p.None? || !env.written(row.ticker) then rows
    else
      var v := Evaluate(row, p.value, env.chart(row.ticker, 30), env.sys);
      Patched(rows, row.ticker, UpdateOf(v, p.value), env.now)
  }

  // ---------------------------------------------------------------
  // Properties of one check
  // ---------------------------------------------------------------

  /** A skipped holding changes nothing and raises nothing. */
  lemma SkipRule(rows: seq<Row>, row: Row, env: Env)
    ensures PriceFor(row, env).None? <==>
      row.ticker == "" || row.buyPrice <= 0.0 || env.quote(row.ticker).None? || env.quote(row.ticker).value <= 0.0
    ensures PriceFor(row, env).None? ==> AfterCheck(rows, row, env) == rows && AlertFor(row, env).None?
  {
  }

  /** The highest price never decreases: it is the larger of the stored highest (or the buy
      price) and the current price. */
  lemma HighestNeverDecreases(row: Row, price: real, chart: Option<seq<Bar>>, sys: SystemConfig)
    requires row.buyPrice > 0.0 && price > 0.0
    ensures var v := Evaluate(row, price, chart, sys);
      v.highest >= StoredHighest(row) && v.highest >= price &&
      (v.highest == StoredHighest(row) || v.highest == price) &&
      0.0 <= v.drop < 100.0
  {
    var v := Evaluate(row, price, chart, sys);
    DropBounds(v.highest, price);
  }

  lemma DropBounds(highest: real, price: real)
    requires 0.0 < price <= highest
    ensures 0.0 <= (highest - price) / highest * 100.0 < 100.0
  {
    var q := (highest - price) / highest;
    assert highest - price == q * highest;
    assert q >= 0.0 by {
      RatioAtMost(price - highest, highest, 0.0);
      assert (price - highest) / highest == -q;
    }
    assert q < 1.0 by {
      RatioAtMost(highest - price, highest, 1.0);
      assert highest - price < highest;
      assert q != 1.0;
    }
  }

  /**
   * The status precedence: a loss at or under the stop-loss percentage; then a trailing
   * hit, a drop from the highest of at least the trailing percentage while in profit; then
   * a break under the MA; then a loss of 1% or more; otherwise normal.
   */
  lemma StatusPrecedence(row: Row, price: real, chart: Option<seq<Bar>>, sys: SystemConfig)
    requires row.buyPrice > 0.0 && price > 0.0
    ensures var v := Evaluate(row, price, chart, sys);
      var trailing := v.drop >= TrailPct(row) && v.pnlPct > 0.0;
      var broken := MaReading(chart, sys.maStopPeriod, price).1;
      (v.status == StatusStopHit <==> v.pnlPct <= sys.stopLossPct) &&
      (v.status == StatusTrailingHit <==> v.pnlPct > sys.stopLossPct && trailing) &&
      (v.status == StatusWarning <==> v.pnlPct > sys.stopLossPct && !trailing && (broken || v.pnlPct <= -1.0)) &&
      (v.status == StatusNormal <==> v.pnlPct > sys.stopLossPct && !trailing && !broken && v.pnlPct > -1.0) &&
      (v.reason.None? <==> v.status == StatusNormal && v.pnlPct <= 0.0)
  {
  }

  /** With a chart of at least `period` bars, today's MA is the mean of the last `period`
      closes (without one it reads 0 and nothing breaks). */
  lemma MaToday(bars: seq<Bar>, period: nat, price: real)
    requires 0 < period <= |bars|
    ensures var cs := Closes(bars);
      MaReading(Some(bars), period, price).0 == Mean(cs[|cs| - period..|cs|])
  {
    var cs := Closes(bars);
    var n := |cs|;
    assert Sma(cs, period)[n - 1] == Some(Mean(cs[n - period..n]));
  }

  /** A break means yesterday's close stood over the mean of the `period` closes up to
      yesterday while the price is under today's mean. */
  lemma {:induction false} MaBreakRule(bars: seq<Bar>, period: nat, price: real)
    requires 0 < period <= |bars|
    ensures var cs := Closes(bars);
      var n := |cs|;
      var reading := MaReading(Some(bars), period, price);
      reading.1 <==> n >= period + 1 && bars[n - 2].close > Mean(cs[n - 1 - period..n - 1]) && price < reading.0
  {
    var cs := Closes(bars);
    var n := |cs|;
    var ma := Sma(cs, period);
    var reading := MaReading(Some(bars), period, price);
    if n >= period + 1 {
      var yesterday := Mean(cs[n - 1 - period..n - 1]);
      SmaAt(cs, period, n - 2);
      assert ma[n - 2] == Some(yesterday);
      assert reading.1 == (bars[n - 2].close > yesterday && price < reading.0);
    } else {
      assert n < 2 || ma[n - 2].None?;
      assert !reading.1;
    }
  }

  /** The rolling mean at row `i`: none before the first full window, and the mean of the
      window ending at `i` after it. */
  lemma SmaAt(xs: seq<real>, period: nat, i: int)
    requires period >= 1 && i < |xs|
    ensures 0 <= i ==> (Sma(xs, period)[i].Some? <==> i + 1 >= period)
    ensures period <= i + 1 ==> Sma(xs, period)[i] == Some(Mean(xs[i + 1 - period..i + 1]))
  {
  }

  /** An alert is raised exactly when the new status is an alert status other than the old
      one, and it carries the new status and its first reason. */
  lemma AlertRule(row: Row, env: Env)
    requires PriceFor(row, env).Some?
    ensures var p := PriceFor(row, env).value;
      var v := Evaluate(row, p, env.chart(row.ticker, 30), env.sys);
      (AlertFor(row, env).Some? <==> IsAlertStatus(v.status) && OldStatus(row) != v.status) &&
      (AlertFor(row, env).Some? ==>
        AlertFor(row, env).value.status == v.status && AlertFor(row, env).value.ticker == row.ticker &&
        AlertFor(row, env).value.reason == ReasonLine(v.reason) && AlertFor(row, env).value.reason != "")
  {
    var p := PriceFor(row, env).value;
    var v := Evaluate(row, p, env.chart(row.ticker, 30), env.sys);
    if IsAlertStatus(v.status) {
      ReasonNonEmpty(v.reason.value);
    }
  }

  lemma ReasonNonEmpty(r: Reason)
    ensures ReasonText(r) != ""
  {
  }

  /** Checking a holding again at the same price and chart after its row was written back
      raises no second alert: the status it finds is the one stored. */
  lemma NoRepeatedAlert(rows: seq<Row>, row: Row, env: Env)
    requires PriceFor(row, env).Some?
    ensures var p := PriceFor(row, env).value;
      var v := Evaluate(row, p, env.chart(row.ticker, 30), env.sys);
      var again := Applied(row, UpdateOf(v, p), env.now);
      Evaluate(again, p, env.chart(row.ticker, 30), env.sys).status == v.status &&
      AlertFor(again, env).None?
  {
    var p := PriceFor(row, env).value;
    var chart := env.chart(row.ticker, 30);
    var v := Evaluate(row, p, chart, env.sys);
    var again := Applied(row, UpdateOf(v, p), env.now);
    HighestNeverDecreases(row, p, chart, env.sys);
    assert StoredHighest(again) == v.highest;
    assert MaxR(v.highest, p) == v.highest;
    assert PriceFor(again, env) == Some(p);
  }

  // ---------------------------------------------------------------
  // The whole check (supabase_client.py:178-289)
  // ---------------------------------------------------------------

  /** The table after checking the holdings of a snapshot in order. */
  function Refreshed(rows: seq<Row>, todo: seq<Row>, env: Env): seq<Row>
  {
    if |todo| == 0 then rows
    else AfterCheck(Refreshed(rows, todo[..|todo| - 1], env), todo[|todo| - 1], env)
  }

  /** The alerts of a snapshot, in order. */
  function AlertsOf(todo: seq<Row>, env: Env): (alerts: seq<Alert>)
    ensures |alerts| <= |todo|
  {
    if |todo| == 0 then []
    else
      var a := AlertFor(todo[|todo| - 1], env);
      AlertsOf(todo[..|todo| - 1], env) + (if a.Some? then [a.value] else [])
  }

  /** Every alert comes from a holding of the snapshot whose status changed into an alert
      status, and every such holding raises one. */
  lemma AlertsMeaning(todo: seq<Row>, env: Env)
    ensures forall a :: a in AlertsOf(todo, env) ==>
      IsAlertStatus(a.status) && exists i :: 0 <= i < |todo| && AlertFor(todo[i], env) == Some(a)
    ensures forall i :: 0 <= i < |todo| && AlertFor(todo[i], env).Some? ==> AlertFor(todo[i], env).value in AlertsOf(todo, env)
  {
    var f := (r: Row) => AlertFor(r, env);
    AlertsAsPresent(todo, env);
    PresentMeaning(todo, f);
    forall a | a in AlertsOf(todo, env)
      ensures IsAlertStatus(a.status)
    {
      var i :| 0 <= i < |todo| && f(todo[i]) == Some(a);
      AlertStatus(todo[i], env);
    }
  }

  /** The alerts of a snapshot are the present values of `AlertFor` over it. */
  lemma {:induction false} AlertsAsPresent(todo: seq<Row>, env: Env)
    ensures AlertsOf(todo, env) == Present(todo, (r: Row) => AlertFor(r, env))
  {
    if |todo| > 0 {
      AlertsAsPresent(todo[..|todo| - 1], env);
    }
  }

  lemma AlertStatus(row: Row, env: Env)
    requires AlertFor(row, env).Some?
    ensures IsAlertStatus(AlertFor(row, env).value.status)
  {
  }

  /** A check keeps the table's length and tickers and only ever rewrites the rows of
      tickers in the snapshot. */
  lemma {:induction false} RefreshedShape(rows: seq<Row>, todo: seq<Row>, env: Env)
    ensures var r := Refreshed(rows, todo, env);
      |r| == |rows| &&
      forall i :: 0 <= i < |rows| ==>
        r[i].ticker == rows[i].ticker &&
        ((forall j :: 0 <= j < |todo| ==> todo[j].ticker != rows[i].ticker) ==> r[i] == rows[i])
  {
    if |todo| > 0 {
      var front := todo[..|todo| - 1];
      RefreshedShape(rows, front, env);
      forall i | 0 <= i < |rows| && (forall j :: 0 <= j < |todo| ==> todo[j].ticker != rows[i].ticker)
        ensures (forall j :: 0 <= j < |front| ==> front[j].ticker != rows[i].ticker)
      {
        forall j | 0 <= j < |front|
          ensures front[j].ticker != rows[i].ticker
        {
          assert front[j] == todo[j];
        }
      }
    }
  }

  /** A row whose write-back fails keeps its old status in the table, although the check
      still reports its alert; so the next check, at the same readings, reports that alert
      again. */
  lemma FailedWriteRepeats(rows: seq<Row>, env: Env, i: nat)
    requires i < |rows| && !env.written(rows[i].ticker)
    ensures var r := Refreshed(rows, rows, env);
      |r| == |rows| && r[i] == rows[i] &&
      (AlertFor(rows[i], env).Some? ==>
        AlertFor(rows[i], env).value in AlertsOf(rows, env) &&
        AlertFor(rows[i], env).value in AlertsOf(r, env))
  {
    RefreshedShape(rows, rows, env);
    FailedWriteKeepsRow(rows, rows, env, i);
    var r := Refreshed(rows, rows, env);
    AlertsMeaning(rows, env);
    AlertsMeaning(r, env);
  }

  lemma {:induction false} FailedWriteKeepsRow(rows: seq<Row>, todo: seq<Row>, env: Env, i: nat)
    requires i < |rows| && !env.written(rows[i].ticker)
    ensures i < |Refreshed(rows, todo, env)| && Refreshed(rows, todo, env)[i] == rows[i]
  {
    RefreshedShape(rows, todo, env);
    if |todo| > 0 {
      var front := todo[..|todo| - 1];
      FailedWriteKeepsRow(rows, front, env, i);
      RefreshedShape(rows, front, env);
    }
  }

  // ---------------------------------------------------------------
  // The table (supabase_client.py:49-172)
  // ---------------------------------------------------------------

  /** The rows without those of a ticker (`DELETE ?ticker=eq.<ticker>`). */
  function Dropped(rows: seq<Row>, ticker: string): (r: seq<Row>)
    ensures forall x :: x in r <==> x in rows && x.ticker != ticker
  {
    if |rows| == 0 then []
    else Dropped(rows[..|rows| - 1], ticker) + (if rows[|rows| - 1].ticker == ticker then [] else [rows[|rows| - 1]])
  }

  /** The rows after an upsert keyed by ticker: a row with the same ticker is replaced, a new
      ticker is appended. */
  function Merged(rows: seq<Row>, row: Row): seq<Row>
  {
    if exists i :: 0 <= i < |rows| && rows[i].ticker == row.ticker then
      seq(|rows|, i requires 0 <= i < |rows| => if rows[i].ticker == row.ticker then row else rows[i])
    else rows + [row]
  }

  /** After an upsert the table holds exactly `row` and the rows of the other tickers. */
  lemma MergedMeaning(rows: seq<Row>, row: Row)
    ensures forall x :: x in Merged(rows, row) <==> x == row || (x in rows && x.ticker != row.ticker)
  {
    var r := Merged(rows, row);
    if exists i :: 0 <= i < |rows| && rows[i].ticker == row.ticker {
      var i :| 0 <= i < |rows| && rows[i].ticker == row.ticker;
      assert r[i] == row;
      forall x | x in rows && x.ticker != row.ticker
        ensures x in r
      {
        var j :| 0 <= j < |rows| && rows[j] == x;
        assert r[j] == x;
      }
      forall x | x in r
        ensures x == row || (x in rows && x.ticker != row.ticker)
      {
        var j :| 0 <= j < |r| && r[j] == x;
        if rows[j].ticker != row.ticker {
          assert x == rows[j];
        }
      }
    } else {
      assert r[|rows|] == row;
      forall x | x in rows
        ensures x.ticker != row.ticker
      {
        var j :| 0 <= j < |rows| && rows[j] == x;
      }
    }
  }

  /** The remote holdings table; `config.enabled` is false when the URL or key is missing,
      and then no request is made. */
  class HoldingStore {
    const config: SupabaseConfig
    var rows: seq<Row>

    constructor(config: SupabaseConfig, rows: seq<Row>)
      ensures this.config == config && this.rows == rows
    {
      this.config := config;
      this.rows := rows;
    }

    /** `get_all_holdings`: the table, or nothing when disabled or the request fails. */
    method GetAll(ok: bool) returns (r: seq<Row>)
      ensures r == if config.enabled && ok then rows else []
    {
      if !config.enabled || !ok {
        return [];
      }
      r := rows;
    }

    /** `add_holding` with its initial record. */
    method AddHolding(ticker: string, name: string, buyPrice: real, quantity: int, accountNote: string,
                      monitoringMode: string, trailingStopPct: real, now: string, ok: bool)
      returns (r: Option<Row>)
      modifies this`rows
      ensures var row := NewRow(ticker, name, buyPrice, quantity, accountNote, monitoringMode, trailingStopPct, now);
        if config.enabled && ok then rows == old(rows) + [row] && r == Some(row)
        else rows == old(rows) && r == None
    {
      if !config.enabled || !ok {
        return None;
      }
      var row := NewRow(ticker, name, buyPrice, quantity, accountNote, monitoringMode, trailingStopPct, now);
      rows := rows + [row];
      r := Some(row);
    }

    /** `remove_holding`: deletes every row of the ticker. */
    method RemoveHolding(ticker: string, ok: bool) returns (removed: bool)
      modifies this`rows
      ensures removed == (config.enabled && ok)
      ensures rows == if removed then Dropped(old(rows), ticker) else old(rows)
    {
      removed := config.enabled && ok;
      if removed {
        rows := Dropped(rows, ticker);
      }
    }

    /** `update_holding`: patches every row of the ticker and stamps it. */
    method UpdateHolding(ticker: string, u: Update, now: string, ok: bool) returns (updated: bool)
      modifies this`rows
      ensures updated == (config.enabled && ok)
      ensures rows == if updated then Patched(old(rows), ticker, u, now) else old(rows)
    {
      updated := config.enabled && ok;
      if updated {
        rows := Patched(rows, ticker, u, now);
      }
    }

    /** `upsert_holding`. */
    method UpsertHolding(row: Row, now: string, ok: bool) returns (done: bool)
      modifies this`rows
      ensures done == (config.enabled && ok)
      ensures rows == if done then Merged(old(rows), row.(updatedAt := now)) else old(rows)
    {
      done := config.enabled && ok;
      if done {
        rows := Merged(rows, row.(updatedAt := now));
      }
    }

    /** Checks one holding at a positive price, the if/elif chain of the source. */
    static method Assess(row: Row, price: real, chart: Option<seq<Bar>>, sys: SystemConfig) returns (v: Verdict)
      requires row.buyPrice > 0.0 && price > 0.0
      ensures v == Evaluate(row, price, chart, sys)
    {
      var pnl := Watchlist.PnlPct(price, row.buyPrice);
      var highest := StoredHighest(row);
      if price > highest {
        highest := price;
      }
      var drop := DropPct(highest, price);
      var trailingHit := drop >= TrailPct(row) && pnl > 0.0;
      var reading := MaReading(chart, sys.maStopPeriod, price);
      var status: string;
      var reason: Option<Reason> := None;
      if pnl <= sys.stopLossPct {
        status := StatusStopHit;
        reason := Some(FixedStop(pnl));
      } else if trailingHit {
        status := StatusTrailingHit;
        reason := Some(TrailingProfit(highest, drop));
      } else if reading.1 {
        status := StatusWarning;
        reason := Some(MaBreak(sys.maStopPeriod));
      } else if pnl <= -1.0 {
        status := StatusWarning;
        reason := Some(Dropping(pnl));
      } else {
        status := StatusNormal;
        if pnl > 0.0 {
          reason := Some(Profit(pnl, highest));
        }
      }
      v := Verdict(pnl, PnlAmount(price, row.buyPrice, row.quantity), highest, drop, reading.0, status, reason);
    }

    /** `check_and_update_all`: checks every holding of the table as read at the start
        (`ok`: the read succeeds), writes each result back (`env.written`: that write
        succeeds) and returns the alerts, whether or not their writes succeeded. */
    method CheckAndUpdateAll(env: Env, ok: bool) returns (alerts: seq<Alert>)
      modifies this`rows
      ensures alerts == if config.enabled && ok then AlertsOf(old(rows), env) else []
      ensures rows == if config.enabled && ok then Refreshed(old(rows), old(rows), env) else old(rows)
    {
      var holdings := GetAll(ok);
      if |holdings| == 0 {
        return [];
      }
      alerts := [];
      var i := 0;
      while i < |holdings|
        invariant 0 <= i <= |holdings|
        invariant rows == Refreshed(holdings, holdings[..i], env)
        invariant alerts == AlertsOf(holdings[..i], env)
      {
        var h := holdings[i];
        assert holdings[..i + 1][..i] == holdings[..i];
        var quote := if h.ticker == "" || h.buyPrice <= 0.0 then None else env.quote(h.ticker);
        if quote.Some? && quote.value > 0.0 {
          var price := quote.value;
          var v := Assess(h, price, env.chart(h.ticker, 30), env.sys);
          var _ := UpdateHolding(h.ticker, UpdateOf(v, price), env.now, env.written(h.ticker));
          if IsAlertStatus(v.status) && OldStatus(h) != v.status {
            alerts := alerts + [AlertOf(h, v, price)];
          }
        }
        i := i + 1;
      }
      assert holdings[..i] == holdings;
    }
  }
}
