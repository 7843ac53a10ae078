// The decision logic of the data collector:
// - the KIS access-token cache;
// - the ten-minute caches and the ticker-name cache;
// - the market-capitalisation date fallback;
// - the universe filter and the name lookup;
// - supply/demand buy counting, the order-book ratio and volume-profile binning.
// Every network read (KRX, KIS) is a parameter holding what the request returned.

module DataCollector {
  import opened Common
  import opened Indicators
  import opened Config

  // ---------------------------------------------------------------
  // Clock and cache freshness (data_collector.py:151-154, 273-276, 575-578)
  // ---------------------------------------------------------------

  const SecondsPerDay := 86400
  const CacheTtl := 600

  /** `(now - stamp).seconds` with times in whole seconds: `timedelta` keeps whole days in a
      separate field, so `.seconds` is the part of the difference below one day. */
  function DeltaSeconds(now: int, stamp: int): (s: int)
    ensures 0 <= s < SecondsPerDay
    ensures (now - stamp - s) % SecondsPerDay == 0
  {
    (now - stamp) % SecondsPerDay
  }

  /** A cache entry stamped at `stamp` is served at `now`. */
  predicate Fresh(now: int, stamp: int)
  {
    DeltaSeconds(now, stamp) < CacheTtl
  }

  /** Within one day freshness is "less than ten minutes old", but whole days are ignored:
      an entry stamped a day (or any number of days) earlier is served again. */
  lemma FreshMeaning(now: int, stamp: int, days: int)
    ensures 0 <= now - stamp < SecondsPerDay ==> (Fresh(now, stamp) <==> now - stamp < CacheTtl)
    ensures Fresh(now + days * SecondsPerDay, stamp) <==> Fresh(now, stamp)
    ensures now < stamp && stamp - now <= SecondsPerDay - CacheTtl ==> !Fresh(now, stamp)
  {
    assert (now + days * SecondsPerDay - stamp) % SecondsPerDay == (now - stamp) % SecondsPerDay;
  }

  datatype Stamped<V> = Stamped(at: int, data: V)

  /** One read through a cache keyed by `key`: a fresh entry is returned as stored; otherwise
      `fetched` is returned and stored (stamped `now`) when `keep` accepts it. */
  function Served<K, V>(cache: map<K, Stamped<V>>, key: K, now: int, fetched: V, keep: V -> bool)
    : (V, map<K, Stamped<V>>)
  {
    if key in cache && Fresh(now, cache[key].at) then (cache[key].data, cache)
    else if keep(fetched) then (fetched, cache[key := Stamped(now, fetched)])
    else (fetched, cache)
  }

  /** What a miss stores is served, unchanged, by every read of the same key in the next ten
      minutes, whatever the network would have returned then; only `key` is touched. */
  lemma {:induction false} ServedWithinTtl<K, V>(cache: map<K, Stamped<V>>, key: K, now: int, later: int,
                                                fetched: V, refetched: V, keep: V -> bool)
    requires !(key in cache && Fresh(now, cache[key].at))
    requires keep(fetched)
    requires 0 <= later - now < CacheTtl
    ensures var (v, c) := Served(cache, key, now, fetched, keep);
            v == fetched && Served(c, key, later, refetched, keep) == (fetched, c) &&
            forall k :: k != key ==> (k in c <==> k in cache) && (k in c ==> c[k] == cache[k])
  {
    var (v, c) := Served(cache, key, now, fetched, keep);
    assert c == cache[key := Stamped(now, fetched)];
    assert Fresh(later, now);
  }

  // ---------------------------------------------------------------
  // KIS access token (data_collector.py:55-82)
  // ---------------------------------------------------------------

  const TokenLifetime := 23 * 3600

  /** The cached token is used: it is non-empty, has an expiry, and `now` is before it. */
  predicate TokenUsable(token: Option<string>, expires: Option<int>, now: int)
  {
    token.Some? && token.value != "" && expires.Some? && now < expires.value
  }

  class KisAuth {
    var accessToken: Option<string>
    var tokenExpires: Option<int>

    constructor ()
      ensures accessToken == None && tokenExpires == None
    {
      accessToken := None;
      tokenExpires := None;
    }

    /** `reply` is what the token request gave: `Some(access_token)` or `None` when it failed. */
    method GetToken(now: int, reply: Option<string>) returns (token: string)
      modifies this
      ensures old(TokenUsable(accessToken, tokenExpires, now)) ==>
                token == old(accessToken).value && unchanged(this)
      ensures !old(TokenUsable(accessToken, tokenExpires, now)) && reply.Some? ==>
                token == reply.value && accessToken == reply && tokenExpires == Some(now + TokenLifetime)
      ensures !old(TokenUsable(accessToken, tokenExpires, now)) && reply.None? ==>
                token == "" && unchanged(this)
    {
      if accessToken.Some? && accessToken.value != "" && tokenExpires.Some? && now < tokenExpires.value {
        return accessToken.value;
      }
      match reply {
        case Some(t) =>
          accessToken := Some(t);
          tokenExpires := Some(now + TokenLifetime);
          token := t;
        case None =>
          token := "";
      }
    }
  }

  /** A token issued at `issued` is reused for exactly the next 23 hours. */
  lemma TokenReuseWindow(t: string, issued: int, later: int)
    requires t != ""
    ensures TokenUsable(Some(t), Some(issued + TokenLifetime), later) <==> later < issued + TokenLifetime
  {
  }

  // ---------------------------------------------------------------
  // Market-capitalisation table (data_collector.py:150-216)
  // ---------------------------------------------------------------

  datatype CapRow = CapRow(ticker: string, name: string, marketCap: int, turnover: int, market: string)

  /** KRX market ids in request order, with the name written into each row. */
  const Markets: seq<(string, string)> := [("STK", "KOSPI"), ("KSQ", "KOSDAQ")]
  const LookbackDays: nat := 7

  function Tagged(rows: seq<CapRow>, market: string): (r: seq<CapRow>)
    ensures |r| == |rows|
    ensures forall i :: 0 <= i < |r| ==> r[i] == rows[i].(market := market)
  {
    seq(|rows|, i requires 0 <= i < |rows| => rows[i].(market := market))
  }

  /** The rows of the first `k` markets on the date `day` days back; `krx(day, id)` is what
      the KRX request for that market and date returned. */
  function MarketRows(krx: (nat, string) -> seq<CapRow>, day: nat, k: nat): seq<CapRow>
    requires k <= |Markets|
  {
    if k == 0 then []
    else MarketRows(krx, day, k - 1) + Tagged(krx(day, Markets[k - 1].0), Markets[k - 1].1)
  }

  function DayRows(krx: (nat, string) -> seq<CapRow>, day: nat): seq<CapRow>
  {
    MarketRows(krx, day, |Markets|)
  }

  /** The first date, counting back from `from`, on which either market returned rows. */
  function FirstDay(krx: (nat, string) -> seq<CapRow>, from: nat): Option<nat>
    decreases LookbackDays - from
  {
    if from >= LookbackDays then None
    else if |DayRows(krx, from)| > 0 then Some(from)
    else FirstDay(krx, from + 1)
  }

  lemma {:induction false} FirstDayMeaning(krx: (nat, string) -> seq<CapRow>, from: nat)
    ensures FirstDay(krx, from).Some? ==>
              var d := FirstDay(krx, from).value;
              from <= d < LookbackDays && |DayRows(krx, d)| > 0 &&
              forall j :: from <= j < d ==> |DayRows(krx, j)| == 0
    ensures FirstDay(krx, from).None? ==> forall j :: from <= j < LookbackDays ==> |DayRows(krx, j)| == 0
    decreases LookbackDays - from
  {
    if from < LookbackDays && |DayRows(krx, from)| == 0 {
      FirstDayMeaning(krx, from + 1);
    }
  }

  /** The table a refresh produces: the first date with data, else the simulated table. */
  function FetchedCapRows(krx: (nat, string) -> seq<CapRow>, simulated: seq<CapRow>): seq<CapRow>
  {
    match FirstDay(krx, 0)
    case Some(d) => DayRows(krx, d)
    case None => simulated
  }

  /** The name cache after recording every (ticker, name) row, later rows winning. */
  function WithNames(names: map<string, string>, rows: seq<CapRow>): map<string, string>
  {
    if |rows| == 0 then names
    else
      var last := rows[|rows| - 1];
      WithNames(names, rows[..|rows| - 1])[last.ticker := last.name]
  }

  /** After the refresh the cached tickers are the old ones plus every row's ticker. */
  lemma {:induction false} WithNamesKeys(names: map<string, string>, rows: seq<CapRow>)
    ensures forall t :: t in WithNames(names, rows) <==> t in names || exists r :: r in rows && r.ticker == t
  {
    if |rows| > 0 {
      var init := rows[..|rows| - 1];
      WithNamesKeys(names, init);
      forall t
        ensures t in WithNames(names, rows) <==> t in names || exists r :: r in rows && r.ticker == t
      {
        if exists r :: r in init && r.ticker == t {
          var r :| r in init && r.ticker == t;
          assert r in rows;
        }
        if exists r :: r in rows && r.ticker == t {
          var r :| r in rows && r.ticker == t;
          if r != rows[|rows| - 1] {
            var k :| 0 <= k < |rows| && rows[k] == r;
            assert init[k] == r;
          }
        }
      }
    }
  }

  /** A cached name no row mentions is kept. */
  lemma {:induction false} WithNamesKeeps(names: map<string, string>, rows: seq<CapRow>, t: string)
    requires t in names
    requires forall r :: r in rows ==> r.ticker != t
    ensures t in WithNames(names, rows) && WithNames(names, rows)[t] == names[t]
  {
    if |rows| > 0 {
      var init := rows[..|rows| - 1];
      forall r | r in init ensures r.ticker != t {
        assert r in rows;
      }
      WithNamesKeeps(names, init, t);
      assert rows[|rows| - 1] in rows;
    }
  }

  /** A row's name is cached when no later row carries the same ticker: later rows win. */
  lemma {:induction false} WithNamesLastWins(names: map<string, string>, rows: seq<CapRow>, i: nat)
    requires i < |rows|
    requires forall j :: i < j < |rows| ==> rows[j].ticker != rows[i].ticker
    ensures rows[i].ticker in WithNames(names, rows) && WithNames(names, rows)[rows[i].ticker] == rows[i].name
  {
    if i < |rows| - 1 {
      var init := rows[..|rows| - 1];
      assert init[i] == rows[i];
      forall j | i < j < |init| ensures init[j].ticker != init[i].ticker {
        assert init[j] == rows[j];
      }
      WithNamesLastWins(names, init, i);
    }
  }

  // ---------------------------------------------------------------
  // Universe filter (data_collector.py:244-270)
  // ---------------------------------------------------------------

  const FundKeywords: seq<string> := ["ETF", "ETN", "KODEX", "TIGER", "KBSTAR", "ARIRANG", "SOL", "PLUS"]

  /** The name matches the keyword alternation: it contains one of the fund keywords. */
  predicate IsFund(name: string)
  {
    exists k :: k in FundKeywords && Contains(name, k)
  }

  /** The rows satisfying `p`, in order (a boolean-mask selection). */
  function Where(rows: seq<CapRow>, p: CapRow -> bool): (r: seq<CapRow>)
    ensures |r| <= |rows|
    ensures forall x :: x in r <==> x in rows && p(x)
  {
    if |rows| == 0 then []
    else Where(rows[..|rows| - 1], p) + (if p(rows[|rows| - 1]) then [rows[|rows| - 1]] else [])
  }

  /** Descending by turnover; `SortBy` is ascending on the key, so the key is negated. */
  function TurnoverKey(r: CapRow): SortKey
  {
    SortKey(-r.turnover, 0.0)
  }

  predicate TurnoverDescending(rows: seq<CapRow>)
  {
    forall i, j :: 0 <= i < j < |rows| ==> rows[i].turnover >= rows[j].turnover
  }

  /** pandas `head(n)`: the first n rows, or for a negative n all but the last -n rows. */
  function Head(rows: seq<CapRow>, n: int): (r: seq<CapRow>)
    ensures n >= 0 ==> |r| == if n < |rows| then n else |rows|
    ensures n < 0 ==> |r| == if |rows| + n > 0 then |rows| + n else 0
    ensures |r| <= |rows| && r == rows[..|r|]
  {
    if n >= 0 then (if n < |rows| then rows[..n] else rows)
    else if |rows| + n > 0 then rows[..|rows| + n] else []
  }

  /** The rows at or above a positive market-cap floor; all rows when the floor is not positive. */
  function Capped(rows: seq<CapRow>, m: int): seq<CapRow>
  {
    if m > 0 then Where(rows, (r: CapRow) => r.marketCap >= m) else rows
  }

  /** The rows whose name is no fund's, when funds are excluded. */
  function WithoutFunds(rows: seq<CapRow>, cfg: FilterConfig): seq<CapRow>
  {
    if cfg.excludeEtf then Where(rows, (r: CapRow) => !IsFund(r.name)) else rows
  }

  /** `filter_stocks` on the table `rows`; absent arguments take the configured defaults. */
  function Filtered(rows: seq<CapRow>, minCap: Option<int>, topRank: Option<int>, cfg: FilterConfig): seq<CapRow>
  {
    if |rows| == 0 then rows
    else
      var m, t := MinCapOf(minCap, cfg), RankOf(topRank, cfg);
      var capped := Capped(rows, m);
      var ranked := if t > 0 then Head(SortBy(capped, TurnoverKey), t) else capped;
      WithoutFunds(ranked, cfg)
  }

  lemma {:induction false} WhereKeepsOrder(rows: seq<CapRow>, p: CapRow -> bool)
    requires TurnoverDescending(rows)
    ensures TurnoverDescending(Where(rows, p))
  {
    if |rows| > 0 {
      var init := rows[..|rows| - 1];
      assert TurnoverDescending(init) by {
        forall i, j | 0 <= i < j < |init| ensures init[i].turnover >= init[j].turnover {
          assert init[i] == rows[i] && init[j] == rows[j];
        }
      }
      WhereKeepsOrder(init, p);
      var w := Where(init, p);
      var last := rows[|rows| - 1];
      forall x | x in w ensures x.turnover >= last.turnover {
        var k :| 0 <= k < |init| && init[k] == x;
        assert rows[k] == x;
      }
    }
  }

  lemma SortedByTurnover(rows: seq<CapRow>)
    ensures TurnoverDescending(SortBy(rows, TurnoverKey))
    ensures multiset(SortBy(rows, TurnoverKey)) == multiset(rows)
  {
    SortByProperties(rows, TurnoverKey);
    var s := SortBy(rows, TurnoverKey);
    forall i, j | 0 <= i < j < |s| ensures s[i].turnover >= s[j].turnover {
      assert KeyLe(TurnoverKey(s[i]), TurnoverKey(s[j]));
    }
  }

  function MinCapOf(minCap: Option<int>, cfg: FilterConfig): int
  {
    if minCap.Some? then minCap.value else cfg.minMarketCap
  }

  function RankOf(topRank: Option<int>, cfg: FilterConfig): int
  {
    if topRank.Some? then topRank.value else cfg.topTradingValueRank
  }

  /** Every kept row comes from the table and passes the active cap and fund filters; a
      positive rank limit keeps, of the capped rows sorted by descending turnover (a
      permutation of them), the first `t`, less the funds, still in descending turnover. */
  lemma FilteredSound(rows: seq<CapRow>, minCap: Option<int>, topRank: Option<int>, cfg: FilterConfig)
    ensures var r := Filtered(rows, minCap, topRank, cfg);
            var m, t := MinCapOf(minCap, cfg), RankOf(topRank, cfg);
            (forall x :: x in r ==> x in rows) &&
            (m > 0 ==> forall x :: x in r ==> x.marketCap >= m) &&
            (cfg.excludeEtf ==> forall x :: x in r ==> !IsFund(x.name)) &&
            (t > 0 ==>
               |r| <= t && TurnoverDescending(r) &&
               var sorted := SortBy(Capped(rows, m), TurnoverKey);
               multiset(sorted) == multiset(Capped(rows, m)) && TurnoverDescending(sorted) &&
               r == WithoutFunds(sorted[..if t < |sorted| then t else |sorted|], cfg))
  {
    var m, t := MinCapOf(minCap, cfg), RankOf(topRank, cfg);
    var capped := Capped(rows, m);
    var sorted := SortBy(capped, TurnoverKey);
    SortedByTurnover(capped);
    if t > 0 {
      FilteredRanked(rows, m, t, cfg);
      if |rows| == 0 {
        assert capped == [];
      }
    }
  }

  /** The ranked branch of `filter_stocks`: the first `t` of the turnover ranking, funds
      dropped, stay in the table, in turnover order, and number at most `t`. */
  lemma FilteredRanked(rows: seq<CapRow>, m: int, t: int, cfg: FilterConfig)
    requires t > 0
    ensures var capped := Capped(rows, m);
      var sorted := SortBy(capped, TurnoverKey);
      var r := WithoutFunds(Head(sorted, t), cfg);
      (forall x :: x in r ==> x in capped) && |r| <= t && TurnoverDescending(r) &&
      r == WithoutFunds(sorted[..if t < |sorted| then t else |sorted|], cfg)
  {
    var capped := Capped(rows, m);
    var sorted := SortBy(capped, TurnoverKey);
    SortedByTurnover(capped);
    var ranked := Head(sorted, t);
    assert TurnoverDescending(ranked);
    forall x | x in ranked ensures x in capped {
      assert x in multiset(sorted);
    }
    if cfg.excludeEtf {
      WhereKeepsOrder(ranked, (r: CapRow) => !IsFund(r.name));
    }
  }

  /** Without a rank limit a row is kept exactly when it passes the cap and fund filters. */
  lemma FilteredWithoutRank(rows: seq<CapRow>, minCap: Option<int>, topRank: Option<int>, cfg: FilterConfig)
    requires RankOf(topRank, cfg) <= 0
    ensures var m := MinCapOf(minCap, cfg);
            forall x :: x in Filtered(rows, minCap, topRank, cfg) <==>
                          x in rows && (m > 0 ==> x.marketCap >= m) && (cfg.excludeEtf ==> !IsFund(x.name))
  {
  }

  // ---------------------------------------------------------------
  // Ticker names (data_collector.py:622-640; the definition at 130-145 is shadowed)
  // ---------------------------------------------------------------

  const WellKnown: map<string, string> := map[
    "005930" := "삼성전자", "000660" := "SK하이닉스",
    "373220" := "LG에너지솔루션", "207940" := "삼성바이오로직스",
    "005380" := "현대차", "006400" := "삼성SDI",
    "035420" := "NAVER", "051910" := "LG화학",
    "068270" := "셀트리온", "028260" := "삼성물산",
    "035720" := "카카오", "105560" := "KB금융",
    "055550" := "신한지주", "066570" := "LG전자",
    "003670" := "포스코퓨처엠", "000270" := "기아",
    "012330" := "현대모비스", "096770" := "SK이노베이션",
    "034730" := "SK", "015760" := "한국전력"]

  /** The cached name, else the well-known table, else the ticker itself. */
  function NameOf(names: map<string, string>, ticker: string): string
  {
    if ticker in names then names[ticker]
    else if ticker in WellKnown then WellKnown[ticker]
    else ticker
  }

  /** After a market-cap refresh the name of a listed ticker is the one its last row carries;
      an unlisted, uncached and unknown ticker is named by itself. */
  lemma NameAfterRefresh(names: map<string, string>, rows: seq<CapRow>, i: nat)
    requires i < |rows|
    requires forall j :: i < j < |rows| ==> rows[j].ticker != rows[i].ticker
    ensures NameOf(WithNames(names, rows), rows[i].ticker) == rows[i].name
  {
    WithNamesLastWins(names, rows, i);
  }

  lemma UnknownTickerNamedByItself(ticker: string)
    requires ticker !in WellKnown
    ensures NameOf(map[], ticker) == ticker
  {
  }

  // ---------------------------------------------------------------
  // The collector's caches (data_collector.py:97-216, 272-288, 572-616)
  // ---------------------------------------------------------------

  datatype OhlcvFrame = OhlcvFrame(columns: set<string>, bars: seq<Bar>)

  const RequiredColumns: set<string> := {"시가", "고가", "저가", "종가", "거래량"}

  /** Only a frame with every OHLCV column is cached. */
  predicate Complete(f: OhlcvFrame)
  {
    RequiredColumns <= f.columns
  }

  datatype IndexRow = IndexRow(date: int, close: real)

  function DateKey(r: IndexRow): SortKey
  {
    SortKey(r.date, 0.0)
  }

  /** The index rows KRX returned, ordered by date, last `days` kept. */
  function IndexFrame(rows: seq<IndexRow>, days: nat): seq<IndexRow>
  {
    Tail(SortBy(rows, DateKey), days)
  }

  lemma IndexFrameFacts(rows: seq<IndexRow>, days: nat)
    ensures |IndexFrame(rows, days)| == if days <= |rows| then days else |rows|
    ensures SortedBy(IndexFrame(rows, days), DateKey)
    ensures multiset(IndexFrame(rows, days)) <= multiset(rows)
  {
    var s := SortBy(rows, DateKey);
    SortByProperties(rows, DateKey);
    if days <= |s| {
      var t := s[|s| - days..];
      assert s == s[..|s| - days] + t;
      assert multiset(s) == multiset(s[..|s| - days]) + multiset(t);
      forall i, j | 0 <= i < j < |t| ensures KeyLe(DateKey(t[i]), DateKey(t[j])) {
        assert t[i] == s[|s| - days + i] && t[j] == s[|s| - days + j];
      }
    }
  }

  /** The market-cap table a `get_market_cap_data` call returns given the cache it finds. */
  function MarketCapServed(cache: Option<Stamped<seq<CapRow>>>, force: bool, now: int,
                           krx: (nat, string) -> seq<CapRow>, simulated: seq<CapRow>): seq<CapRow>
  {
    if !force && cache.Some? && Fresh(now, cache.value.at) then cache.value.data
    else FetchedCapRows(krx, simulated)
  }

  // ---------------------------------------------------------------
  // The stored ticker names (data_collector.py:104-116)
  // ---------------------------------------------------------------

  /** The names file as `_load_names` finds it: absent, unreadable as JSON, or holding names. */
  datatype NamesFile = NoFile | Unreadable | Stored(names: map<string, string>)

  /** What loading the names gives: the name cache, or the `NameError` of an unbound name. */
  datatype Loaded = Loaded(names: map<string, string>) | NameError(unbound: string)

  /** The names data_collector.py binds at module level by its imports (lines 8-18). */
  const ImportedNames: set<string> :=
    {"time", "json", "logging", "requests", "pd", "np", "datetime", "timedelta",
     "Dict", "List", "Optional", "Tuple", "StringIO", "kis_config", "filter_config"}

  /** `_load_names` in a module binding `imported`: the existence test reads `os.path`,
      which raises outside the `try` when `os` is unbound; otherwise the cache gets the stored
      names, and stays empty when there is no file or the bare `except` swallows a read error. */
  function LoadNames(imported: set<string>, file: NamesFile): (r: Loaded)
    ensures r.NameError? <==> "os" !in imported
    ensures r.Loaded? ==> forall t :: t in r.names <==> file.Stored? && t in file.names
  {
    if "os" !in imported then NameError("os")
    else if file.Stored? then Loaded(file.names)
    else Loaded(map[])
  }

  /** As written, `DataCollector()` raises `NameError` whatever the names file holds; and
      since the module builds its `collector` on import (line 743), importing it fails. */
  lemma LoadNamesAsWrittenRaises(file: NamesFile)
    ensures "os" !in ImportedNames
    ensures LoadNames(ImportedNames, file) == NameError("os")
  {
  }

  /** With `import os` added, loading never raises and yields exactly the stored names. */
  lemma LoadNamesCorrected(file: NamesFile)
    ensures var r := LoadNames(ImportedNames + {"os"}, file);
      r.Loaded? && (file.Stored? ==> r.names == file.names) && (!file.Stored? ==> r.names == map[])
  {
  }

  class Collector {
    var marketCap: Option<Stamped<seq<CapRow>>>
    var ohlcv: map<(string, nat), Stamped<OhlcvFrame>>
    var indices: map<(string, nat), Stamped<seq<IndexRow>>>
    var names: map<string, string>

    /** `DataCollector()` with `os` imported: empty caches and the names `_load_names` reads. */
    constructor (file: NamesFile)
      ensures marketCap == None && ohlcv == map[] && indices == map[]
      ensures LoadNames(ImportedNames + {"os"}, file) == Loaded(names)
    {
      marketCap := None;
      ohlcv := map[];
      indices := map[];
      names := if file.Stored? then file.names else map[];
    }

    method ClearCache()
      modifies this
      ensures marketCap == None && ohlcv == map[] && indices == map[] && names == old(names)
    {
      marketCap := None;
      ohlcv := map[];
      indices := map[];
    }

    function StockName(ticker: string): string
      reads this
    {
      NameOf(names, ticker)
    }

    /** `krx(day, id)` is the KRX answer for market `id` on the date `day` days back;
        `simulated` is the generated table used when all seven dates fail. */
    method GetMarketCapData(force: bool, now: int, krx: (nat, string) -> seq<CapRow>, simulated: seq<CapRow>)
      returns (rows: seq<CapRow>)
      modifies this
      ensures rows == MarketCapServed(old(marketCap), force, now, krx, simulated)
      ensures !force && old(marketCap).Some? && Fresh(now, old(marketCap).value.at) ==> unchanged(this)
      ensures !(!force && old(marketCap).Some? && Fresh(now, old(marketCap).value.at)) ==>
                marketCap == Some(Stamped(now, rows)) && names == WithNames(old(names), rows) &&
                ohlcv == old(ohlcv) && indices == old(indices)
    {
      if !force && marketCap.Some? && Fresh(now, marketCap.value.at) {
        return marketCap.value.data;
      }
      var frames: seq<CapRow> := [];
      var i: nat := 0;
      while i < LookbackDays
        invariant i <= LookbackDays
        invariant frames == []
        invariant FirstDay(krx, 0) == FirstDay(krx, i)
        invariant unchanged(this)
      {
        var temp := DayTable(krx, i);
        if |temp| > 0 {
          frames := temp;
          break;
        }
        i := i + 1;
      }
      rows := if frames == [] then simulated else frames;
      assert rows == FetchedCapRows(krx, simulated);
      RememberNames(rows);
      marketCap := Some(Stamped(now, rows));
    }

    /** The rows both markets returned for the date `day` days back, each tagged with its
        market's name; a market that returned nothing adds nothing. */
    static method DayTable(krx: (nat, string) -> seq<CapRow>, day: nat) returns (temp: seq<CapRow>)
      ensures temp == DayRows(krx, day)
    {
      temp := [];
      var m := 0;
      while m < |Markets|
        invariant m <= |Markets|
        invariant temp == MarketRows(krx, day, m)
      {
        var df := krx(day, Markets[m].0);
        if |df| > 0 {
          temp := temp + Tagged(df, Markets[m].1);
        } else {
          assert Tagged(df, Markets[m].1) == [];
        }
        m := m + 1;
      }
    }

    /** Records every (ticker, name) row in the name cache. */
    method RememberNames(rows: seq<CapRow>)
      modifies this
      ensures names == WithNames(old(names), rows)
      ensures marketCap == old(marketCap) && ohlcv == old(ohlcv) && indices == old(indices)
    {
      var k := 0;
      while k < |rows|
        invariant k <= |rows|
        invariant names == WithNames(old(names), rows[..k])
        invariant marketCap == old(marketCap) && ohlcv == old(ohlcv) && indices == old(indices)
      {
        assert rows[..k + 1][..k] == rows[..k];
        names := names[rows[k].ticker := rows[k].name];
        k := k + 1;
      }
      assert rows[..|rows|] == rows;
    }

    method FilterStocks(minCap: Option<int>, topRank: Option<int>, cfg: FilterConfig, now: int,
                        krx: (nat, string) -> seq<CapRow>, simulated: seq<CapRow>)
      returns (rows: seq<CapRow>)
      modifies this
      ensures rows == Filtered(MarketCapServed(old(marketCap), false, now, krx, simulated), minCap, topRank, cfg)
    {
      var df := GetMarketCapData(false, now, krx, simulated);
      rows := Filtered(df, minCap, topRank, cfg);
    }

    /** `kis` is the KIS daily-price answer (an empty frame when it failed); `simulated` the
        generated fallback. */
    method GetOhlcv(ticker: string, days: nat, now: int, kis: OhlcvFrame, simulated: OhlcvFrame)
      returns (df: OhlcvFrame)
      modifies this
      ensures (df, ohlcv) == Served(old(ohlcv), (ticker, days), now,
                                    if |kis.bars| == 0 then simulated else kis, Complete)
      ensures marketCap == old(marketCap) && indices == old(indices) && names == old(names)
    {
      var key := (ticker, days);
      if key in ohlcv && Fresh(now, ohlcv[key].at) {
        return ohlcv[key].data;
      }
      df := kis;
      if |df.bars| == 0 {
        df := simulated;
      }
      if RequiredColumns <= df.columns {
        ohlcv := ohlcv[key := Stamped(now, df)];
      }
    }

    method GetMarketIndex(code: string, days: nat, now: int, krx: seq<IndexRow>, simulated: seq<IndexRow>)
      returns (df: seq<IndexRow>)
      modifies this
      ensures (df, indices) == Served(old(indices), (code, days), now,
                                      if |krx| == 0 then simulated else IndexFrame(krx, days), (f: seq<IndexRow>) => true)
      ensures marketCap == old(marketCap) && ohlcv == old(ohlcv) && names == old(names)
    {
      var key := (code, days);
      if key in indices && Fresh(now, indices[key].at) {
        return indices[key].data;
      }
      if |krx| == 0 {
        df := simulated;
      } else {
        df := IndexFrame(krx, days);
      }
      indices := indices[key := Stamped(now, df)];
    }
  }

  // ---------------------------------------------------------------
  // Supply and demand (data_collector.py:383-458)
  // ---------------------------------------------------------------

  /** The first row of the investor table: foreign and institutional net buying. */
  datatype InvestorRow = InvestorRow(foreignNet: int, institutionNet: int)

  datatype SupplyDemand = SupplyDemand(
    foreignBuy: bool, institutionBuy: bool, programBuy: bool, buyCount: nat,
    foreignAcc: real, institutionAcc: real, programAcc: real, accelLabel: string,
    details: seq<(string, int)>)

  const Moderate := "수급 완만"

  const InitialSupply := SupplyDemand(false, false, false, 0, 1.0, 1.0, 1.0, "", [])

  // `inv` is the investor table's first row (`None` for an empty table), `program` the
  // program net buy (`None` when that request gave `{}`), `volume` the quote's day volume
  // (`None` when the quote gave `{}`, which reads as 1).

  function ForeignNet(inv: Option<InvestorRow>): int
  {
    if inv.Some? then inv.value.foreignNet else 0
  }

  function InstitutionNet(inv: Option<InvestorRow>): int
  {
    if inv.Some? then inv.value.institutionNet else 0
  }

  function ProgramNet(program: Option<int>): int
  {
    if program.Some? then program.value else 0
  }

  function QuoteVolume(volume: Option<int>): int
  {
    if volume.Some? then volume.value else 1
  }

  function Bit(b: bool): nat
  {
    if b then 1 else 0
  }

  /** The flags, count and details, set before the acceleration step. */
  function FlowFlags(inv: Option<InvestorRow>, program: Option<int>): SupplyDemand
  {
    var f, i, p := ForeignNet(inv), InstitutionNet(inv), ProgramNet(program);
    InitialSupply.(foreignBuy := f > 0, institutionBuy := i > 0, programBuy := p > 0,
                   buyCount := Bit(f > 0) + Bit(i > 0) + Bit(p > 0),
                   details := (if inv.Some? then [("외인순매수", f), ("기관순매수", i)] else []) +
                              (if program.Some? then [("프로그램순매수", p)] else []))
  }

  /** Net flow as a multiple of five percent of the day's volume. */
  function Acceleration(net: int, volume: int): real
    requires volume != 0
  {
    Abs(net as real) / volume as real * 20.0
  }

  /** One factor of the label, e.g. "외인 2.5x 폭발". */
  function PartText(flow: string, acc: real, verb: string): string
  {
    flow + " " + Fixed(acc, 1) + "x " + verb
  }

  function Part(flow: string, acc: real, verb: string): seq<string>
  {
    if acc > 2.0 then [PartText(flow, acc, verb)] else []
  }

  function Parts(f: real, i: real, p: real): seq<string>
  {
    Part("외인", f, "폭발") + Part("기관", i, "폭발") + Part("프로그램", p, "가속")
  }

  function AccelerationLabel(f: real, i: real, p: real): string
  {
    var parts := Parts(f, i, p);
    if |parts| > 0 then Join(parts, ", ") else Moderate
  }

  /** The acceleration step: rounded factors and the label. */
  function Accelerated(s: SupplyDemand, f: real, i: real, p: real): SupplyDemand
  {
    s.(foreignAcc := RoundTo(f, 1), institutionAcc := RoundTo(i, 1), programAcc := RoundTo(p, 1),
       accelLabel := AccelerationLabel(f, i, p))
  }

  /** `get_supply_demand`. A zero volume raises inside the `try`: the flags, count and
      details already set are kept and the acceleration step is abandoned. */
  function SupplyDemandOf(inv: Option<InvestorRow>, program: Option<int>, volume: Option<int>): SupplyDemand
  {
    var v := QuoteVolume(volume);
    if v == 0 then FlowFlags(inv, program)
    else Accelerated(FlowFlags(inv, program), Acceleration(ForeignNet(inv), v),
                     Acceleration(InstitutionNet(inv), v), Acceleration(ProgramNet(program), v))
  }

  method GetSupplyDemand(inv: Option<InvestorRow>, program: Option<int>, volume: Option<int>)
    returns (result: SupplyDemand)
    ensures result == SupplyDemandOf(inv, program, volume)
  {
    result := InitialSupply;
    var f, i, p := 0, 0, 0;
    if inv.Some? {
      f, i := inv.value.foreignNet, inv.value.institutionNet;
      result := result.(details := result.details + [("외인순매수", f), ("기관순매수", i)]);
      if f > 0 {
        result := result.(foreignBuy := true, buyCount := result.buyCount + 1);
      }
      if i > 0 {
        result := result.(institutionBuy := true, buyCount := result.buyCount + 1);
      }
    }
    if program.Some? {
      p := program.value;
      result := result.(details := result.details + [("프로그램순매수", p)]);
      if p > 0 {
        result := result.(programBuy := true, buyCount := result.buyCount + 1);
      }
    }
    assert result == FlowFlags(inv, program);
    var v := if volume.Some? then volume.value else 1;
    if v == 0 {
      // ZeroDivisionError, caught: the acceleration block is abandoned
      return;
    }
    assert f == ForeignNet(inv) && i == InstitutionNet(inv) && p == ProgramNet(program);
    var flags := result;
    var fa, ia, pa := Acceleration(f, v), Acceleration(i, v), Acceleration(p, v);
    result := result.(foreignAcc := RoundTo(fa, 1), institutionAcc := RoundTo(ia, 1), programAcc := RoundTo(pa, 1));
    // the factors above 2.0, joined, else "수급 완만"
    var accelLabel := AccelerationLabel(fa, ia, pa);
    result := result.(accelLabel := accelLabel);
  }

  /** The buy count is the number of positive net flows, between 0 and 3, each flag set
      exactly when its flow is positive, whatever happens in the acceleration step. */
  lemma SupplyCountFacts(inv: Option<InvestorRow>, program: Option<int>, volume: Option<int>)
    ensures var r := SupplyDemandOf(inv, program, volume);
            r.buyCount <= 3 &&
            r.buyCount == Bit(r.foreignBuy) + Bit(r.institutionBuy) + Bit(r.programBuy) &&
            (r.foreignBuy <==> inv.Some? && inv.value.foreignNet > 0) &&
            (r.institutionBuy <==> inv.Some? && inv.value.institutionNet > 0) &&
            (r.programBuy <==> program.Some? && program.value > 0)
  {
  }

  /** The label is never empty; it is "수급 완만" exactly when no factor exceeds 2.0, and
      otherwise it starts with the first factor that does. */
  lemma AccelerationLabelFacts(f: real, i: real, p: real)
    ensures var l := AccelerationLabel(f, i, p);
            l != "" &&
            (l == Moderate <==> f <= 2.0 && i <= 2.0 && p <= 2.0) &&
            (f > 2.0 ==> StartsWith(l, "외인 ")) &&
            (f <= 2.0 && i > 2.0 ==> StartsWith(l, "기관 ")) &&
            (f <= 2.0 && i <= 2.0 && p > 2.0 ==> StartsWith(l, "프로그램 "))
  {
    var parts := Parts(f, i, p);
    if |parts| > 0 {
      JoinStartsWith(parts, ", ");
      var j := Join(parts, ", ");
      var head := parts[0];
      assert j[..|head|] == head;
      if f > 2.0 {
        assert head[..3] == "외인 ";
      } else if i > 2.0 {
        assert head[..3] == "기관 ";
      } else {
        assert head[..5] == "프로그램 ";
      }
      assert j[0] == head[0];
      assert j[0] != Moderate[0];
    }
  }

  /** The label is empty exactly when the volume is zero (the division raised), and the
      factors then keep their initial 1.0. */
  lemma SupplyLabelFacts(inv: Option<InvestorRow>, program: Option<int>, volume: Option<int>)
    ensures var r := SupplyDemandOf(inv, program, volume);
            var v := QuoteVolume(volume);
            (r.accelLabel == "" <==> v == 0) &&
            (v == 0 ==> r.foreignAcc == 1.0 && r.institutionAcc == 1.0 && r.programAcc == 1.0) &&
            (v != 0 ==> r.accelLabel == AccelerationLabel(Acceleration(ForeignNet(inv), v),
                                                          Acceleration(InstitutionNet(inv), v),
                                                          Acceleration(ProgramNet(program), v)))
  {
    var v := QuoteVolume(volume);
    if v != 0 {
      AccelerationLabelFacts(Acceleration(ForeignNet(inv), v), Acceleration(InstitutionNet(inv), v),
                             Acceleration(ProgramNet(program), v));
    }
  }

  // ---------------------------------------------------------------
  // Order book (data_collector.py:486-512)
  // ---------------------------------------------------------------

  datatype Orderbook = Orderbook(askTotal: int, bidTotal: int, ratio: real)

  /** `reply` holds the total ask and bid sizes when the request succeeded with rt_cd "0";
      otherwise the result is the empty answer `{}`. */
  function OrderbookOf(reply: Option<(int, int)>): Option<Orderbook>
  {
    match reply
    case None => None
    case Some((ask, bid)) =>
      Some(Orderbook(ask, bid, RoundTo(ask as real / (if bid > 1 then bid else 1) as real, 2)))
  }

  /** The ratio is ask over bid rounded to two decimals, with the bid floored at 1 so an
      empty bid side never divides by zero; it is non-negative for non-negative sizes. */
  lemma OrderbookRatioFacts(ask: int, bid: int)
    ensures var b := OrderbookOf(Some((ask, bid))).value;
            var d := (if bid > 1 then bid else 1) as real;
            b.askTotal == ask && b.bidTotal == bid &&
            -0.005 <= b.ratio - ask as real / d <= 0.005 &&
            (ask >= 0 ==> b.ratio >= 0.0) &&
            (bid <= 1 ==> -0.005 <= b.ratio - ask as real <= 0.005)
  {
    var d := (if bid > 1 then bid else 1) as real;
    var x := ask as real / d;
    RoundToSign(x, 2);
    assert Pow10(2) == 100.0;
    if ask >= 0 {
      assert x >= 0.0;
    }
  }

  // ---------------------------------------------------------------
  // Volume profile (data_collector.py:540-567)
  // ---------------------------------------------------------------

  /** The `i`-th of `bins + 1` evenly spaced edges from `lo` to `hi` (`np.linspace`). */
  function Edge(lo: real, hi: real, bins: nat, i: nat): real
    requires bins > 0
  {
    lo + (hi - lo) * i as real / bins as real
  }

  lemma EdgeFacts(lo: real, hi: real, bins: nat, i: nat)
    requires bins > 0
    ensures Edge(lo, hi, bins, 0) == lo && Edge(lo, hi, bins, bins) == hi
    ensures Edge(lo, hi, bins, i + 1) - Edge(lo, hi, bins, i) == (hi - lo) / bins as real
  {
  }

  /** Total volume of the bars whose range meets [low, high]. */
  function Overlapping(bars: seq<Bar>, low: real, high: real): real
  {
    if |bars| == 0 then 0.0
    else
      var b := bars[|bars| - 1];
      Overlapping(bars[..|bars| - 1], low, high) + (if b.low <= high && b.high >= low then b.volume else 0.0)
  }

  function Lows(bars: seq<Bar>): seq<real>
  {
    seq(|bars|, i requires 0 <= i < |bars| => bars[i].low)
  }

  function Highs(bars: seq<Bar>): seq<real>
  {
    seq(|bars|, i requires 0 <= i < |bars| => bars[i].high)
  }

  /** The unnormalised bin `i`: integer edges, integer centre and integer volume. */
  function RawBin(bars: seq<Bar>, bins: nat, i: nat): ProfileBin
    requires |bars| > 0 && bins > 0
  {
    var lo, hi := MinOf(Lows(bars)), MaxOf(Highs(bars));
    var low, high := Edge(lo, hi, bins, i), Edge(lo, hi, bins, i + 1);
    ProfileBin(Trunc(low) as real, Trunc(high) as real, Trunc((low + high) / 2.0) as real,
               Trunc(Overlapping(bars, low, high)) as real, 0.0)
  }

  function BinVolumes(raw: seq<ProfileBin>): (vs: seq<real>)
    ensures |vs| == |raw|
  {
    seq(|raw|, i requires 0 <= i < |raw| => raw[i].volume)
  }

  function WithShares(raw: seq<ProfileBin>, total: real): (r: seq<ProfileBin>)
    ensures |r| == |raw|
  {
    var d := if total > 1.0 then total else 1.0;
    seq(|raw|, i requires 0 <= i < |raw| => raw[i].(share := raw[i].volume / d))
  }

  /** `get_volume_profile` on the given daily bars; `bins` must be positive, since with
      no bins the empty frame has no volume column and the total raises. */
  function VolumeProfileOf(bars: seq<Bar>, bins: nat): seq<ProfileBin>
    requires bins > 0
  {
    if |bars| == 0 then []
    else
      var raw := seq(bins, i requires 0 <= i < bins => RawBin(bars, bins, i));
      WithShares(raw, Sum(BinVolumes(raw)))
  }

  method GetVolumeProfile(bars: seq<Bar>, bins: nat) returns (profile: seq<ProfileBin>)
    requires bins > 0
    ensures profile == VolumeProfileOf(bars, bins)
  {
    if |bars| == 0 {
      return [];
    }
    var raw: seq<ProfileBin> := [];
    var i := 0;
    while i < bins
      invariant i <= bins
      invariant raw == seq(i, k requires 0 <= k < i => RawBin(bars, bins, k))
    {
      raw := raw + [RawBin(bars, bins, i)];
      i := i + 1;
    }
    profile := WithShares(raw, Sum(BinVolumes(raw)));
  }

  lemma {:induction false} SumOfScaled(xs: seq<real>, d: real)
    requires d > 0.0
    ensures Sum(seq(|xs|, i requires 0 <= i < |xs| => xs[i] / d)) == Sum(xs) / d
  {
    if |xs| > 0 {
      var ys := seq(|xs|, i requires 0 <= i < |xs| => xs[i] / d);
      var init := xs[..|xs| - 1];
      SumOfScaled(init, d);
      assert ys[..|ys| - 1] == seq(|init|, i requires 0 <= i < |init| => init[i] / d);
      assert Sum(ys) == Sum(init) / d + xs[|xs| - 1] / d;
    }
  }

  /** Every share is its bin's volume over the total volume floored at 1, so the shares add
      up to total / max(total, 1), which is at most 1. */
  lemma SharesFacts(raw: seq<ProfileBin>)
    ensures var r := WithShares(raw, Sum(BinVolumes(raw)));
            var d := if Sum(BinVolumes(raw)) > 1.0 then Sum(BinVolumes(raw)) else 1.0;
            BinVolumes(r) == BinVolumes(raw) &&
            (forall i :: 0 <= i < |r| ==> r[i].share == r[i].volume / d) &&
            Sum(Shares(r)) == Sum(BinVolumes(raw)) / d &&
            Sum(Shares(r)) <= 1.0
  {
    var vols := BinVolumes(raw);
    var total := Sum(vols);
    var r := WithShares(raw, total);
    var d := if total > 1.0 then total else 1.0;
    assert Shares(r) == seq(|vols|, i requires 0 <= i < |vols| => vols[i] / d);
    SumOfScaled(vols, d);
    RatioAtMost(total, d, 1.0);
  }

  /** One bin per requested bin for a non-empty history and none for an empty one; the
      bins' shares add up to at most 1. */
  lemma VolumeProfileFacts(bars: seq<Bar>, bins: nat)
    requires bins > 0
    ensures var r := VolumeProfileOf(bars, bins);
            (|bars| == 0 <==> r == []) &&
            (|bars| > 0 ==> |r| == bins && Sum(Shares(r)) <= 1.0)
  {
    if |bars| > 0 {
      SharesFacts(seq(bins, i requires 0 <= i < bins => RawBin(bars, bins, i)));
    }
  }
}
