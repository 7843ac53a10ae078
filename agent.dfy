// The 24-hour agent of main.py: the market-hours windows, the once-per-window
// daily report latch, the main loop that schedules the holdings check and the
// strategy scan by elapsed time, and the routing of a scan's graded signals to
// Telegram. The wall clock and `time.time()` are given as a `Moment` per loop
// iteration; a shutdown signal is a flag on the iteration it arrives in.

module Agent {
  import opened Common
  import opened Config
  import RiskManager
  import Server

  /** A local time: weekday (Monday = 0), hour and minute. */
  datatype Clock = Clock(weekday: nat, hour: nat, minute: nat)

  /** `hour * 100 + minute`. */
  function HourMin(c: Clock): nat
  {
    c.hour * 100 + c.minute
  }

  /** `is_market_hours`: a weekday between 08:55 and 15:40 inclusive. */
  predicate IsMarketHours(c: Clock)
  {
    c.weekday < 5 && 855 <= HourMin(c) <= 1540
  }

  /** `is_pre_market`: a weekday between 08:00 and 08:54 inclusive. */
  predicate IsPreMarket(c: Clock)
  {
    c.weekday < 5 && 800 <= HourMin(c) <= 854
  }

  /** The two windows never overlap, and neither contains a weekend. */
  lemma WindowsDisjoint(c: Clock)
    ensures !(IsMarketHours(c) && IsPreMarket(c))
    ensures c.weekday >= 5 ==> !IsMarketHours(c) && !IsPreMarket(c)
  {
  }

  // ---------------------------------------------------------------
  // check_daily_report (main.py:170-185)
  // ---------------------------------------------------------------

  /** The report window: the report hour, minutes 0 and 1. */
  predicate InReportWindow(c: Clock, reportHour: nat)
  {
    c.hour == reportHour && c.minute < 2
  }

  /** One call of `check_daily_report`: whether it sends, and the latch afterwards. */
  function Latch(reported: bool, c: Clock, reportHour: nat): (bool, bool)
  {
    if InReportWindow(c, reportHour) then (!reported, true) else (false, false)
  }

  /** The number of reports sent over a series of calls. */
  function Sends(reported: bool, cs: seq<Clock>, reportHour: nat): nat
    decreases |cs|
  {
    if |cs| == 0 then 0
    else
      var (sent, latched) := Latch(reported, cs[0], reportHour);
      (if sent then 1 else 0) + Sends(latched, cs[1..], reportHour)
  }

  /** Within one window the report goes out at most once, and exactly once when the latch
      was clear on entering it. */
  lemma {:induction false} OncePerWindow(reported: bool, cs: seq<Clock>, reportHour: nat)
    requires forall i :: 0 <= i < |cs| ==> InReportWindow(cs[i], reportHour)
    ensures Sends(reported, cs, reportHour) == if reported || |cs| == 0 then 0 else 1
  {
    if |cs| > 0 {
      AlreadySent(cs[1..], reportHour);
    }
  }

  lemma {:induction false} AlreadySent(cs: seq<Clock>, reportHour: nat)
    requires forall i :: 0 <= i < |cs| ==> InReportWindow(cs[i], reportHour)
    ensures Sends(true, cs, reportHour) == 0
  {
    if |cs| > 0 {
      AlreadySent(cs[1..], reportHour);
    }
  }

  /** Leaving the window clears the latch, so the next window reports again. */
  lemma LatchRearms(reported: bool, outside: Clock, inside: Clock, reportHour: nat)
    requires !InReportWindow(outside, reportHour) && InReportWindow(inside, reportHour)
    ensures var (_, latched) := Latch(reported, outside, reportHour);
      Latch(latched, inside, reportHour).0
  {
  }

  // ---------------------------------------------------------------
  // check_market_status and run_strategy_scan (main.py:51-137)
  // ---------------------------------------------------------------

  /** `check_market_status`: the condition analysed from the KOSPI and KOSDAQ closes
      (`None` when fetching them raises, which the source catches), and whether the
      bear-market warning is sent. */
  function MarketStatus(closes: Option<(seq<real>, seq<real>)>, risk: RiskConfig, now: string)
    : (Option<RiskManager.MarketCondition>, bool)
  {
    if closes.None? then (None, false)
    else
      var c := RiskManager.MarketConditionOf(closes.value.0, closes.value.1, risk, now);
      (Some(c), c.marketPhase == "BEAR")
  }

  /** The warning goes out exactly when the analysis succeeds and neither index closed
      above its five-day mean, and then the condition allows only the bear strategy. */
  lemma BearWarningRule(closes: Option<(seq<real>, seq<real>)>, risk: RiskConfig, now: string)
    ensures var (c, warned) := MarketStatus(closes, risk, now);
      (c.Some? <==> closes.Some?) &&
      (warned <==> (closes.Some? &&
         !(RiskManager.IndexRead(closes.value.0) && RiskManager.LastClose(closes.value.0) > RiskManager.Ma5(closes.value.0)) &&
         !(RiskManager.IndexRead(closes.value.1) && RiskManager.LastClose(closes.value.1) > RiskManager.Ma5(closes.value.1)))) &&
      (warned ==> c.value.allowedStrategies == [risk.bearMarketStrategy])
  {
    if closes.Some? {
      RiskManager.MarketPhaseRule(closes.value.0, closes.value.1, risk, now);
      RiskManager.MarketPhaseValues(closes.value.0, closes.value.1, risk, now);
    }
  }

  /** What a strategy scan sends. */
  datatype ScanOutcome =
    | NoSignals
    | TopAlerts(top: seq<Server.SignalDict>)
    | BPlusDigest(shown: seq<Server.SignalDict>, total: nat)
    | Quiet

  /** The grade a signal carries after the filter. */
  predicate HasGrade(x: Server.SignalDict, g: Server.Grade)
  {
    x.graded.Some? && x.graded.value.grade == g
  }

  /** `[s for s in signals if s.get("grade") == g]`. */
  function WithGrade(s: seq<Server.SignalDict>, g: Server.Grade): (r: seq<Server.SignalDict>)
    ensures |r| <= |s|
    ensures forall x :: x in r <==> x in s && HasGrade(x, g)
  {
    if |s| == 0 then []
    else WithGrade(s[..|s| - 1], g) + (if HasGrade(s[|s| - 1], g) then [s[|s| - 1]] else [])
  }

  /** `run_strategy_scan` on the scan's signals: nothing when there are none; otherwise
      they pass the intersection filter, the S and then the A signals are sent one by one,
      and only when there are none of those a digest of the first five B+ signals. */
  function RouteScan(signals: seq<Server.SignalDict>, condition: Option<RiskManager.MarketCondition>,
                     supply: Server.Supply): ScanOutcome
  {
    if |signals| == 0 then NoSignals
    else
      var graded := Server.Intersections(signals, condition, supply);
      var top := WithGrade(graded, Server.S) + WithGrade(graded, Server.A);
      var bPlus := WithGrade(graded, Server.BPlus);
      if |top| > 0 then TopAlerts(top)
      else if |bPlus| > 0 then BPlusDigest(bPlus[..Min(5, |bPlus|)], |bPlus|)
      else Quiet
  }

  function Min(a: nat, b: nat): nat
  {
    if a <= b then a else b
  }

  /** The alerts are exactly the S and A signals, every S one before every A one; the
      digest appears only when there are none of those, shows at most five B+ signals and
      counts them all. */
  lemma RouteScanMeaning(signals: seq<Server.SignalDict>, condition: Option<RiskManager.MarketCondition>,
                         supply: Server.Supply)
    requires |signals| > 0
    ensures var graded := Server.Intersections(signals, condition, supply);
      match RouteScan(signals, condition, supply)
      case TopAlerts(top) =>
        top == WithGrade(graded, Server.S) + WithGrade(graded, Server.A) &&
        (forall x :: x in top <==> x in graded && (HasGrade(x, Server.S) || HasGrade(x, Server.A))) &&
        (forall i, j :: 0 <= i < j < |top| && HasGrade(top[i], Server.A) ==> !HasGrade(top[j], Server.S))
      case BPlusDigest(shown, total) =>
        (forall x :: x in graded ==> !HasGrade(x, Server.S) && !HasGrade(x, Server.A)) &&
        total == |WithGrade(graded, Server.BPlus)| && 0 < |shown| <= 5 && |shown| <= total &&
        shown == WithGrade(graded, Server.BPlus)[..|shown|] && (|shown| < 5 ==> |shown| == total) &&
        (forall x :: x in shown ==> x in graded && HasGrade(x, Server.BPlus))
      case Quiet =>
        forall x :: x in graded ==> !HasGrade(x, Server.S) && !HasGrade(x, Server.A) && !HasGrade(x, Server.BPlus)
      case NoSignals => false
  {
    var graded := Server.Intersections(signals, condition, supply);
    var s, a := WithGrade(graded, Server.S), WithGrade(graded, Server.A);
    if |s + a| > 0 {
      SOrderedBeforeA(s, a);
    } else {
      var b := WithGrade(graded, Server.BPlus);
      if |b| > 0 {
        assert forall x :: x in b[..Min(5, |b|)] ==> x in b;
      }
    }
  }

  /** In `s + a` with only S signals in `s` and only A signals in `a`, no S signal follows
      an A one. */
  lemma SOrderedBeforeA(s: seq<Server.SignalDict>, a: seq<Server.SignalDict>)
    requires forall x :: x in s ==> HasGrade(x, Server.S)
    requires forall x :: x in a ==> HasGrade(x, Server.A)
    ensures forall i, j :: 0 <= i < j < |s + a| && HasGrade((s + a)[i], Server.A) ==> !HasGrade((s + a)[j], Server.S)
  {
    var top := s + a;
    forall i, j | 0 <= i < j < |top| && HasGrade(top[i], Server.A)
      ensures !HasGrade(top[j], Server.S)
    {
      if j < |s| {
        FrontIn(s, a, i);
        assert false;
      }
      assert top[j] == a[j - |s|] && top[j] in a;
    }
  }

  lemma FrontIn<T>(s: seq<T>, a: seq<T>, i: int)
    ensures 0 <= i < |s| ==> (s + a)[i] in s
  {
    if 0 <= i < |s| {
      assert (s + a)[i] == s[i];
    }
  }

  // ---------------------------------------------------------------
  // The main loop (main.py:210-302)
  // ---------------------------------------------------------------

  /** One iteration's reading of the clock: `time.time()`, the local time, and whether a
      shutdown signal arrives while it sleeps. */
  datatype Moment = Moment(now: real, clock: Clock, shutdown: bool)

  /** The three branches of the loop body. */
  datatype Window = Market | PreMarket | OffHours

  function WindowOf(c: Clock): Window
  {
    if IsMarketHours(c) then Market else if IsPreMarket(c) then PreMarket else OffHours
  }

  /** What one iteration does: the branch it takes, whether it checks the holdings,
      whether it analyses the market (in market hours followed by the strategy scan), and
      whether it sends the daily report. */
  datatype Action = Action(window: Window, checked: bool, analysed: bool, reported: bool)

  /** The loop's timers, counters and the daily-report latch. */
  datatype Timers = Timers(lastScan: real, lastCheck: real, scans: nat, checks: nat, reported: bool)

  /** The seconds between off-hours holdings checks. */
  const OffHoursCheckSeconds: real := 1800.0

  /** One iteration of the loop body. */
  function Tick(t: Timers, m: Moment, sys: SystemConfig): (Timers, Action)
  {
    var scanEvery := (sys.scanIntervalMinutes * 60) as real;
    var checkEvery := (sys.holdingsCheckInterval * 60) as real;
    match WindowOf(m.clock)
    case Market =>
      var check := m.now - t.lastCheck >= checkEvery;
      var scan := m.now - t.lastScan >= scanEvery;
      (t.(lastCheck := if check then m.now else t.lastCheck, checks := if check then t.checks + 1 else t.checks,
          lastScan := if scan then m.now else t.lastScan, scans := if scan then t.scans + 1 else t.scans),
       Action(Market, check, scan, false))
    case PreMarket =>
      var scan := m.now - t.lastScan >= scanEvery;
      (t.(lastScan := if scan then m.now else t.lastScan), Action(PreMarket, false, scan, false))
    case OffHours =>
      var (sent, latched) := Latch(t.reported, m.clock, sys.dailyReportHour);
      var check := m.now - t.lastCheck >= OffHoursCheckSeconds;
      (t.(reported := latched, lastCheck := if check then m.now else t.lastCheck), Action(OffHours, check, false, sent))
  }

  /**
   * The scheduling rules: in market hours the holdings check runs once its interval has
   * passed since the last check and the analysis and scan once the scan interval has
   * passed since the last scan; before the market only the analysis runs, on the scan
   * interval; off hours the daily report latch is consulted and the holdings check runs
   * once 1800 seconds have passed. Whatever runs restarts its timer; only the
   * market-hours check and scan are counted.
   */
  lemma TickRules(t: Timers, m: Moment, sys: SystemConfig)
    ensures var (t', a) := Tick(t, m, sys);
      var scanEvery := (sys.scanIntervalMinutes * 60) as real;
      var checkEvery := (sys.holdingsCheckInterval * 60) as real;
      (a.window == Market <==> IsMarketHours(m.clock)) &&
      (a.window == PreMarket <==> IsPreMarket(m.clock)) &&
      (a.checked <==> (a.window != PreMarket &&
         m.now - t.lastCheck >= (if a.window == Market then checkEvery else OffHoursCheckSeconds))) &&
      (a.analysed <==> a.window != OffHours && m.now - t.lastScan >= scanEvery) &&
      (a.reported <==> a.window == OffHours && InReportWindow(m.clock, sys.dailyReportHour) && !t.reported) &&
      t'.reported == (if a.window == OffHours then InReportWindow(m.clock, sys.dailyReportHour) else t.reported) &&
      t'.checks == t.checks + (if a.window == Market && a.checked then 1 else 0) &&
      t'.scans == t.scans + (if a.window == Market && a.analysed then 1 else 0) &&
      t'.lastCheck == (if a.checked then m.now else t.lastCheck) &&
      t'.lastScan == (if a.analysed then m.now else t.lastScan)
  {
    WindowsDisjoint(m.clock);
  }

  /** The number of actions that ran in market hours and did `checked` (or `analysed`). */
  function Counted(acts: seq<Action>, scans: bool): nat
  {
    if |acts| == 0 then 0
    else
      var a := acts[|acts| - 1];
      Counted(acts[..|acts| - 1], scans) + (if a.window == Market && (if scans then a.analysed else a.checked) then 1 else 0)
  }

  /** The loop over the iterations so far: the timers, whether it still runs, and the
      actions. An iteration after the one a shutdown signal arrived in does not run. */
  function Ran(t0: Timers, ms: seq<Moment>, sys: SystemConfig): (Timers, bool, seq<Action>)
  {
    if |ms| == 0 then (t0, true, [])
    else
      var (t, running, acts) := Ran(t0, ms[..|ms| - 1], sys);
      if !running then (t, running, acts)
      else
        var (t', a) := Tick(t, ms[|ms| - 1], sys);
        (t', !ms[|ms| - 1].shutdown, acts + [a])
  }

  /** One more moment keeps the loop running exactly when it was running and the moment is
      no shutdown, and adds an action exactly when the loop was still running. */
  lemma RanStep(t0: Timers, ms: seq<Moment>, sys: SystemConfig)
    requires |ms| > 0
    ensures var r, rf := Ran(t0, ms, sys), Ran(t0, ms[..|ms| - 1], sys);
      (r.1 <==> rf.1 && !ms[|ms| - 1].shutdown) &&
      |r.2| == |rf.2| + (if rf.1 then 1 else 0)
  {
  }

  /** Whether the loop still runs after the moments, and how many iterations ran. */
  function Progress(ms: seq<Moment>): (bool, nat)
  {
    if |ms| == 0 then (true, 0)
    else
      var (running, n) := Progress(ms[..|ms| - 1]);
      (running && !ms[|ms| - 1].shutdown, n + if running then 1 else 0)
  }

  /** The loop's flag and action count follow `Progress`, whatever the ticks do. */
  lemma {:induction false} RanProgress(t0: Timers, ms: seq<Moment>, sys: SystemConfig)
    ensures Ran(t0, ms, sys).1 == Progress(ms).0 && |Ran(t0, ms, sys).2| == Progress(ms).1
  {
    if |ms| > 0 {
      RanProgress(t0, ms[..|ms| - 1], sys);
      RanStep(t0, ms, sys);
    }
  }

  /** `Progress` runs one iteration per moment up to and including the first shutdown. */
  lemma {:induction false} ProgressUntilShutdown(ms: seq<Moment>)
    ensures var (running, n) := Progress(ms);
      (running <==> forall i :: 0 <= i < |ms| ==> !ms[i].shutdown) &&
      (running ==> n == |ms|) &&
      (forall k :: 0 <= k < |ms| && ms[k].shutdown && (forall i :: 0 <= i < k ==> !ms[i].shutdown) ==> n == k + 1)
  {
    if |ms| > 0 {
      var front := ms[..|ms| - 1];
      ProgressUntilShutdown(front);
      var pf := Progress(front);
      assert forall i :: 0 <= i < |front| ==> front[i] == ms[i];
      forall k | 0 <= k < |ms| && ms[k].shutdown && (forall i :: 0 <= i < k ==> !ms[i].shutdown)
        ensures Progress(ms).1 == k + 1
      {
        if k < |ms| - 1 {
          assert !pf.0;
        }
      }
      if !pf.0 {
        var k :| 0 <= k < |front| && front[k].shutdown;
      }
    }
  }

  /** The loop runs one iteration per moment up to and including the first shutdown, and
      none after it. */
  lemma RanUntilShutdown(t0: Timers, ms: seq<Moment>, sys: SystemConfig)
    ensures var (_, running, acts) := Ran(t0, ms, sys);
      (running <==> forall i :: 0 <= i < |ms| ==> !ms[i].shutdown) &&
      (running ==> |acts| == |ms|) &&
      (forall k :: 0 <= k < |ms| && ms[k].shutdown && (forall i :: 0 <= i < k ==> !ms[i].shutdown) ==> |acts| == k + 1)
  {
    RanProgress(t0, ms, sys);
    ProgressUntilShutdown(ms);
  }

  /** The final message's counts: the scans and the checks run in market hours, and
      nothing else (the pre-market analysis and the off-hours checks are not counted). */
  lemma {:induction false} RanCounts(t0: Timers, ms: seq<Moment>, sys: SystemConfig)
    ensures var (t, _, acts) := Ran(t0, ms, sys);
      t.scans == t0.scans + Counted(acts, true) && t.checks == t0.checks + Counted(acts, false)
  {
    if |ms| > 0 {
      var front := ms[..|ms| - 1];
      RanCounts(t0, front, sys);
      var (t, running, acts) := Ran(t0, front, sys);
      if running {
        TickRules(t, ms[|ms| - 1], sys);
        var (_, a) := Tick(t, ms[|ms| - 1], sys);
        assert (acts + [a])[..|acts|] == acts;
      }
    }
  }

  /** The agent; `dailyReported` is the module-level latch of the source. */
  class QuantAgent {
    const sys: SystemConfig
    var running: bool
    var scanCount: nat
    var checkCount: nat
    var dailyReported: bool

    constructor(sys: SystemConfig, dailyReported: bool)
      ensures this.sys == sys && running && scanCount == 0 && checkCount == 0
      ensures this.dailyReported == dailyReported
    {
      this.sys := sys;
      running := true;
      scanCount := 0;
      checkCount := 0;
      this.dailyReported := dailyReported;
    }

    /** `_handle_shutdown`. */
    method HandleShutdown()
      modifies this`running
      ensures !running
    {
      running := false;
    }

    /** `check_daily_report`. */
    method CheckDailyReport(c: Clock) returns (sent: bool)
      modifies this`dailyReported
      ensures (sent, dailyReported) == Latch(old(dailyReported), c, sys.dailyReportHour)
    {
      sent := false;
      if c.hour == sys.dailyReportHour && c.minute < 2 {
        if !dailyReported {
          sent := true;
          dailyReported := true;
        }
      } else {
        dailyReported := false;
      }
    }

    /** One pass of the loop body of `start`: the work the window of the moment calls for. */
    method RunMoment(m: Moment, lastScan: real, lastCheck: real) returns (scanAt: real, checkAt: real, action: Action)
      modifies this`scanCount, this`checkCount, this`dailyReported
      ensures (Timers(scanAt, checkAt, scanCount, checkCount, dailyReported), action) ==
        Tick(Timers(lastScan, lastCheck, old(scanCount), old(checkCount), old(dailyReported)), m, sys)
    {
      var scanInterval := (sys.scanIntervalMinutes * 60) as real;
      var checkInterval := (sys.holdingsCheckInterval * 60) as real;
      scanAt, checkAt := lastScan, lastCheck;
      if IsMarketHours(m.clock) {
        var check := m.now - lastCheck >= checkInterval;
        if check {
          checkCount := checkCount + 1;
          checkAt := m.now;
        }
        var scan := m.now - lastScan >= scanInterval;
        if scan {
          scanCount := scanCount + 1;
          scanAt := m.now;
        }
        action := Action(Market, check, scan, false);
      } else if IsPreMarket(m.clock) {
        var scan := m.now - lastScan >= scanInterval;
        if scan {
          scanAt := m.now;
        }
        action := Action(PreMarket, false, scan, false);
      } else {
        var sent := CheckDailyReport(m.clock);
        var check := m.now - lastCheck >= OffHoursCheckSeconds;
        if check {
          checkAt := m.now;
        }
        action := Action(OffHours, check, false, sent);
      }
    }

    /** `start`: the main loop over the given iterations, from timers at zero. */
    method Start(ms: seq<Moment>) returns (actions: seq<Action>)
      modifies this
      ensures !old(running) ==> (actions == [] && !running && scanCount == old(scanCount) &&
        checkCount == old(checkCount) && dailyReported == old(dailyReported))
      ensures old(running) ==>
        var (t, stillRunning, acts) := Ran(Timers(0.0, 0.0, old(scanCount), old(checkCount), old(dailyReported)), ms, sys);
        actions == acts && running == stillRunning && scanCount == t.scans && checkCount == t.checks &&
        dailyReported == t.reported
    {
      if !running {
        return [];
      }
      var lastScan, lastCheck := 0.0, 0.0;
      ghost var t0 := Timers(0.0, 0.0, scanCount, checkCount, dailyReported);
      actions := [];
      var i := 0;
      while running && i < |ms|
        invariant 0 <= i <= |ms|
        invariant Ran(t0, ms[..i], sys) ==
          (Timers(lastScan, lastCheck, scanCount, checkCount, dailyReported), running, actions)
        decreases |ms| - i
      {
        var m := ms[i];
        assert ms[..i + 1][..i] == ms[..i];
        var action;
        lastScan, lastCheck, action := RunMoment(m, lastScan, lastCheck);
        actions := actions + [action];
        if m.shutdown {
          HandleShutdown();
        }
        i := i + 1;
      }
      if !running {
        RanStopped(t0, ms, i, sys);
      } else {
        assert ms[..i] == ms;
      }
    }
  }

  /** Once the loop has stopped, later moments change nothing. */
  lemma {:induction false} RanStopped(t0: Timers, ms: seq<Moment>, i: nat, sys: SystemConfig)
    requires i <= |ms| && !Ran(t0, ms[..i], sys).1
    ensures Ran(t0, ms, sys) == Ran(t0, ms[..i], sys)
    decreases |ms| - i
  {
    if i < |ms| {
      assert ms[..i + 1][..i] == ms[..i];
      RanStopped(t0, ms, i + 1, sys);
    } else {
      assert ms[..i] == ms;
    }
  }
}
