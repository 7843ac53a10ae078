// Parameter records of config.py.  Environment variables are inputs
// (`Option<string>`, None when unset); the derived fields set by
// `__post_init__` are computed once by the constructor functions.

module Config {
  import opened Common

  // ---------------------------------------------------------------
  // KIS Open API (config.py:21-34)
  // ---------------------------------------------------------------

  const PaperHost: string := "https://openapivts.koreainvestment.com:29443"
  const LiveHost: string := "https://openapi.koreainvestment.com:9443"

  datatype KisConfig = KisConfig(appKey: string, appSecret: string, accountNo: string,
                                 isPaper: bool, baseUrl: string)

  function EnvOr(v: Option<string>, default: string): string
  {
    if v.Some? then v.value else default
  }

  /** The base URL is the paper-trading (vts) host exactly for a paper account. */
  function NewKisConfig(appKey: Option<string>, appSecret: Option<string>, accountNo: Option<string>,
                        isPaper: bool): (c: KisConfig)
    ensures c.isPaper == isPaper
    ensures c.baseUrl == PaperHost <==> isPaper
    ensures c.baseUrl == PaperHost || c.baseUrl == LiveHost
    ensures c.appKey == EnvOr(appKey, "YOUR_APP_KEY") && c.accountNo == EnvOr(accountNo, "00000000-00")
  {
    assert PaperHost[15] != LiveHost[15];
    KisConfig(EnvOr(appKey, "YOUR_APP_KEY"), EnvOr(appSecret, "YOUR_APP_SECRET"),
              EnvOr(accountNo, "00000000-00"), isPaper, if isPaper then PaperHost else LiveHost)
  }

  // ---------------------------------------------------------------
  // Telegram (config.py:40-45)
  // ---------------------------------------------------------------

  datatype TelegramConfig = TelegramConfig(botToken: string, chatId: string, enabled: bool)

  /** ASCII `str.lower()`. */
  function Lower(s: string): (r: string)
    ensures |r| == |s|
    ensures forall i :: 0 <= i < |s| ==> (('A' <= s[i] <= 'Z') ==> r[i] == (s[i] - 'A' + 'a'))
    ensures forall i :: 0 <= i < |s| ==> !('A' <= s[i] <= 'Z') ==> r[i] == s[i]
  {
    if |s| == 0 then ""
    else [if 'A' <= s[0] <= 'Z' then s[0] - 'A' + 'a' else s[0]] + Lower(s[1..])
  }

  function NewTelegramConfig(botToken: Option<string>, chatId: Option<string>, enabledEnv: Option<string>): (c: TelegramConfig)
    ensures c.enabled <==> Lower(EnvOr(enabledEnv, "false")) == "true"
  {
    TelegramConfig(EnvOr(botToken, "YOUR_BOT_TOKEN"), EnvOr(chatId, "YOUR_CHAT_ID"),
                   Lower(EnvOr(enabledEnv, "false")) == "true")
  }

  /** Alerts are off unless the variable is set, and any capitalisation of "true" turns them on. */
  lemma TelegramEnabledMeans(botToken: Option<string>, chatId: Option<string>, enabledEnv: Option<string>)
    ensures enabledEnv.None? ==> !NewTelegramConfig(botToken, chatId, enabledEnv).enabled
    ensures enabledEnv == Some("TRUE") || enabledEnv == Some("True") ==> NewTelegramConfig(botToken, chatId, enabledEnv).enabled
    ensures enabledEnv == Some("1") ==> !NewTelegramConfig(botToken, chatId, enabledEnv).enabled
  {
    LowerSpellings();
  }

  lemma LowerSpellings()
    ensures |Lower("false")| == 5 && |Lower("1")| == 1
    ensures Lower("TRUE") == "true" && Lower("True") == "true"
  {
    LowerAllCaps();
    LowerCapitalised();
  }

  lemma LowerAllCaps()
    ensures Lower("TRUE") == "true"
  {
    var r := Lower("TRUE");
    assert r[0] == 't' && r[1] == 'r' && r[2] == 'u' && r[3] == 'e';
  }

  lemma LowerCapitalised()
    ensures Lower("True") == "true"
  {
    var r := Lower("True");
    assert r[0] == 't' && r[1] == 'r' && r[2] == 'u' && r[3] == 'e';
  }

  // ---------------------------------------------------------------
  // Supabase (config.py:50-61)
  // ---------------------------------------------------------------

  datatype SupabaseConfig = SupabaseConfig(url: string, key: string, schema: string, table: string, enabled: bool)

  /** Enabled exactly when both the URL and the key are non-empty. */
  function NewSupabaseConfig(url: Option<string>, key: Option<string>): (c: SupabaseConfig)
    ensures c.enabled <==> c.url != "" && c.key != ""
    ensures c.enabled ==> url.Some? && key.Some?
    ensures c.table == "my_holdings"
  {
    var u, k := EnvOr(url, ""), EnvOr(key, "");
    SupabaseConfig(u, k, "public", "my_holdings", u != "" && k != "")
  }

  // ---------------------------------------------------------------
  // Universe filter (config.py:66-73)
  // ---------------------------------------------------------------

  datatype FilterConfig = FilterConfig(minMarketCap: int, topTradingValueRank: int,
                                       excludeEtf: bool, excludeSpac: bool, markets: seq<string>)

  const DefaultFilter: FilterConfig := FilterConfig(100_000_000_000, 100, true, true, ["KOSPI", "KOSDAQ"])

  // ---------------------------------------------------------------
  // Strategy parameters (config.py:78-122)
  // ---------------------------------------------------------------

  datatype PullbackParams = PullbackParams(referenceCandleLookback: nat, volumeCliffThreshold: real,
                                           institutionHoldTolerance: real)

  datatype BottomEscapeParams = BottomEscapeParams(maPeriod: nat, resistanceZonePct: real,
                                                   accumulationVolumeRatio: real, accumulationLookback: nat)

  datatype GoldenCrossParams = GoldenCrossParams(shortMa: nat, longMa: nat, maSlopeMin: real,
                                                 rsiPeriod: nat, rsiThreshold: real)

  datatype BreakoutParams = BreakoutParams(boxLookback: nat, askBidRatio: real, programBuyThreshold: int,
                                           volumeSurgeRatio: real)

  datatype ConvergenceParams = ConvergenceParams(maPeriods: seq<nat>, convergencePct: real,
                                                 sectorTrendWeight: real, divergenceConfirmDays: nat)

  datatype StrategyConfig = StrategyConfig(pullback: PullbackParams, bottomEscape: BottomEscapeParams,
                                           goldenCross: GoldenCrossParams, breakout: BreakoutParams,
                                           convergence: ConvergenceParams)

  const DefaultStrategyConfig: StrategyConfig := StrategyConfig(
    PullbackParams(5, 0.3, 0.05),
    BottomEscapeParams(20, 0.05, 2.0, 20),
    GoldenCrossParams(5, 20, 0.0, 14, 50.0),
    BreakoutParams(60, 2.0, 10, 2.0),
    ConvergenceParams([5, 20, 60, 120], 0.03, 1.5, 3))

  // ---------------------------------------------------------------
  // Risk and system settings (config.py:130-169)
  // ---------------------------------------------------------------

  datatype RiskConfig = RiskConfig(marketMaPeriod: nat, bearMarketMaxWeight: real, bearMarketStrategy: string,
                                   atrPeriod: nat, atrMultiplier: real, trailingStopPct: real,
                                   maxPositionPct: real, maxTotalPositions: nat, fibonacciLevels: seq<real>)

  const DefaultRisk: RiskConfig := RiskConfig(5, 0.30, "bottom_escape", 14, 2.0, 0.05, 0.10, 10,
                                              [0.236, 0.382, 0.5, 0.618, 0.786])

  datatype SystemConfig = SystemConfig(scanIntervalMinutes: nat, holdingsCheckInterval: nat,
                                       dataCacheMinutes: nat, stopLossPct: real, maStopPeriod: nat,
                                       dailyReportHour: nat)

  const DefaultSystem: SystemConfig := SystemConfig(5, 1, 10, -3.0, 20, 17)
}
