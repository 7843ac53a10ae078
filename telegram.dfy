// The trading bot of telegram_bot.py: the KIS cash-order request and how its
// reply is read, the inline buttons of an A-grade alert and the callbacks they
// send back, the text commands, and one batch of the update poll. HTTP calls
// are replaced by their outcomes, given as parameters per update.

module TradingBot {
  import opened Common
  import opened Config
  import Report
  import Watchlist
  import Holdings
  import RiskManager

  // ---------------------------------------------------------------
  // KISOrderAPI.place_buy_order (telegram_bot.py:32-89)
  // ---------------------------------------------------------------

  /** The transaction ids of a cash buy on the paper and on the live account. */
  const PaperBuyTrId: string := "VTTC0802U"
  const LiveBuyTrId: string := "TTTC0802U"

  /** The transaction id and the JSON body of an `order-cash` request. */
  datatype OrderBody = OrderBody(trId: string, cano: string, acntPrdtCd: string, pdno: string,
                                 ordDvsn: string, ordQty: string, ordUnpr: string)

  /** The request `place_buy_order` posts. */
  function OrderBodyOf(kis: KisConfig, ticker: string, quantity: int, price: int, orderType: string): OrderBody
  {
    var acct := Split(kis.accountNo, '-');
    var market := orderType == "market";
    OrderBody(if kis.isPaper then PaperBuyTrId else LiveBuyTrId,
              acct[0], if |acct| > 1 then acct[1] else "01", ticker,
              if market then "01" else "00", IntToString(quantity),
              if market then "0" else IntToString(price))
  }

  /** Python `int(s)` on a decimal text: surrounding whitespace, an optional sign, digits. */
  function ParseInt(s: string): Option<int>
  {
    var t := Report.Strip(s);
    if |t| > 0 && (t[0] == '+' || t[0] == '-') then
      if IsDigits(t[1..]) then
        var v: int := DigitsValue(t[1..]);
        Some(if t[0] == '-' then -v else v)
      else None
    else if IsDigits(t) then Some(DigitsValue(t))
    else None
  }

  /** `int(str(n)) == n`. */
  lemma ParseIntRoundTrip(n: int)
    ensures ParseInt(IntToString(n)) == Some(n)
  {
    var m: nat := if n < 0 then -n else n;
    NatToStringRoundTrip(m);
    if n < 0 {
      ParseNegative(NatToString(m));
    } else {
      ParseDigits(NatToString(m));
    }
  }

  lemma ParseDigits(d: string)
    requires IsDigits(d)
    ensures ParseInt(d) == Some(DigitsValue(d))
  {
    Watchlist.StripVisible(d);
  }

  lemma ParseNegative(d: string)
    requires IsDigits(d)
    ensures ParseInt("-" + d) == Some(-(DigitsValue(d) as int))
  {
    var s := "-" + d;
    assert s[1..] == d && s[0] == '-' && s[|s| - 1] == d[|d| - 1];
    Watchlist.StripVisible(s);
  }

  /**
   * A paper account posts the "V" (virtual) transaction id and a live one the "T" id; a
   * market order has division "01" and unit price "0", a limit order "00" and its price;
   * the product is the ticker; quantity and price are their decimal texts, read back as
   * the same numbers.
   */
  lemma OrderBodyRule(kis: KisConfig, ticker: string, quantity: int, price: int, orderType: string)
    ensures var b := OrderBodyOf(kis, ticker, quantity, price, orderType);
      (b.trId[0] == 'V' <==> kis.isPaper) && b.trId[1..] == "TTC0802U" &&
      b.pdno == ticker && ParseInt(b.ordQty) == Some(quantity) &&
      (orderType == "market" ==> b.ordDvsn == "01" && b.ordUnpr == "0") &&
      (orderType != "market" ==> b.ordDvsn == "00" && ParseInt(b.ordUnpr) == Some(price))
  {
    ParseIntRoundTrip(quantity);
    ParseIntRoundTrip(price);
  }

  /** An account number "prefix-suffix" gives the two fields; one without a dash is all
      prefix, with the product code "01". */
  lemma AccountFields(kis: KisConfig, ticker: string, quantity: int, price: int, orderType: string)
    ensures var b := OrderBodyOf(kis, ticker, quantity, price, orderType);
      ('-' !in kis.accountNo ==> b.cano == kis.accountNo && b.acntPrdtCd == "01") &&
      (forall p, s :: kis.accountNo == p + "-" + s && '-' !in p && '-' !in s ==> b.cano == p && b.acntPrdtCd == s)
  {
    if '-' !in kis.accountNo {
      Watchlist.SplitAbsent(kis.accountNo, '-');
    }
    forall p, s | kis.accountNo == p + "-" + s && '-' !in p && '-' !in s
      ensures Split(kis.accountNo, '-') == [p, s]
    {
      Watchlist.SplitAround(p, '-', s);
    }
  }

  /** What the order request came back with: an exception (timeout, HTTP error status,
      unreadable body), or the decoded reply's fields. */
  datatype KisReply =
    | Raised(error: string)
    | Replied(rtCd: Option<string>, output: map<string, string>, msg1: Option<string>, msgCd: Option<string>)

  /** The dictionary `place_buy_order` returns; a key the source leaves out reads as "". */
  datatype OrderResult = OrderResult(success: bool, orderNo: string, orderTime: string, message: string, detail: string)

  function Get(m: map<string, string>, k: string, default: string): string
  {
    if k in m then m[k] else default
  }

  function OrDefault(v: Option<string>, default: string): string
  {
    if v.Some? then v.value else default
  }

  function OrderResultOf(reply: KisReply, ticker: string, quantity: int): OrderResult
  {
    match reply
    case Raised(e) => OrderResult(false, "", "", e, "")
    case Replied(rtCd, output, msg1, msgCd) =>
      if rtCd == Some("0") then
        OrderResult(true, Get(output, "ODNO", ""), Get(output, "ORD_TMD", ""),
                    "주문 체결: " + ticker + " " + IntToString(quantity) + "주", "")
      else OrderResult(false, "", "", OrDefault(msg1, "주문 실패"), OrDefault(msgCd, ""))
  }

  /** The order succeeded exactly when a reply came back with `rt_cd` "0"; its order number
      and time come from the reply's output; a refusal carries the broker's message (or
      "주문 실패" without one) and an exception its own text. */
  lemma OrderResultRule(reply: KisReply, ticker: string, quantity: int)
    ensures var r := OrderResultOf(reply, ticker, quantity);
      (r.success <==> reply.Replied? && reply.rtCd == Some("0")) &&
      (r.success ==> ("ODNO" in reply.output ==> r.orderNo == reply.output["ODNO"]) &&
                     ("ODNO" !in reply.output ==> r.orderNo == "")) &&
      (!r.success && reply.Replied? ==> (reply.msg1.Some? ==> r.message == reply.msg1.value) &&
                                         (reply.msg1.None? ==> r.message == "주문 실패")) &&
      (reply.Raised? ==> !r.success && r.message == reply.error)
  {
  }

  // ---------------------------------------------------------------
  // send_a_grade_alert buttons and handle_callback (telegram_bot.py:191-373)
  // ---------------------------------------------------------------

  /** A decoded JSON value (numbers other than integers are not modelled). */
  datatype Json = JNull | JBool(b: bool) | JInt(i: int) | JStr(s: string) | JArr(items: seq<Json>) | JObj(fields: map<string, Json>)

  /** What a button sends back when pressed. */
  datatype Payload = BuyPayload(ticker: string, qty: int) | DetailPayload(ticker: string)

  /** The `callback_data` object of a button. */
  function PayloadJson(p: Payload): Json
  {
    match p
    case BuyPayload(t, q) => JObj(map["action" := JStr("buy"), "ticker" := JStr(t), "qty" := JInt(q)])
    case DetailPayload(t) => JObj(map["action" := JStr("detail"), "ticker" := JStr(t)])
  }

  datatype Button = Button(text: string, payload: Payload)

  /** The quantity a buy button orders. */
  const DefaultQty: int := 10

  /** The keyboard of an A-grade alert: one button per row, the buy button unless the
      market is bearish, then the detail button. */
  function AlertButtons(phase: string, ticker: string, qty: int): seq<seq<Button>>
  {
    (if phase != "BEAR" then [[Button("🟢 매수 실행 (" + IntToString(qty) + "주)", BuyPayload(ticker, qty))]] else []) +
    [[Button("📋 상세 근거", DetailPayload(ticker))]]
  }

  /** There is a buy button exactly when the market is not bearish, it comes first and
      orders the alert's ticker and quantity; the detail button is always there and last. */
  lemma AlertButtonsRule(phase: string, ticker: string, qty: int)
    ensures var rows := AlertButtons(phase, ticker, qty);
      (forall i :: 0 <= i < |rows| ==> |rows[i]| == 1) &&
      (|rows| == 2 <==> phase != "BEAR") && 1 <= |rows| <= 2 &&
      rows[|rows| - 1][0].payload == DetailPayload(ticker) &&
      (forall i :: 0 <= i < |rows| && rows[i][0].payload.BuyPayload? ==> i == 0 && rows[i][0].payload == BuyPayload(ticker, qty)) &&
      (phase != "BEAR" ==> rows[0][0].payload == BuyPayload(ticker, qty))
  {
  }

  /** What `handle_callback` makes of the callback data. */
  datatype CallbackPlan =
    | Malformed                     // not JSON: answered "잘못된 요청"
    | NotAnObject                   // JSON without `.get`: raises out of the handler
    | Buy(ticker: string, qty: int)
    | Detail(ticker: string)
    | Ignored                       // another action, or fields of other types

  function Field(fields: map<string, Json>, k: string, default: Json): Json
  {
    if k in fields then fields[k] else default
  }

  /** `data` is the decoded callback data, `None` when it is not valid JSON. */
  function CallbackPlanOf(data: Option<Json>): CallbackPlan
  {
    if data.None? then Malformed
    else if !data.value.JObj? then NotAnObject
    else
      var f := data.value.fields;
      var action := Field(f, "action", JStr(""));
      var ticker := Field(f, "ticker", JStr(""));
      var qty := Field(f, "qty", JInt(DefaultQty));
      if action == JStr("buy") then
        if ticker.JStr? && qty.JInt? then Buy(ticker.s, qty.i) else Ignored
      else if action == JStr("detail") then
        if ticker.JStr? then Detail(ticker.s) else Ignored
      else Ignored
  }

  /** A button's data comes back as the action it was made for. */
  lemma ButtonRoundTrip(p: Payload)
    ensures CallbackPlanOf(Some(PayloadJson(p))) ==
      match p
      case BuyPayload(t, q) => Buy(t, q)
      case DetailPayload(t) => Detail(t)
  {
    var f := PayloadJson(p).fields;
    assert "action" in f;
    if p.DetailPayload? {
      assert f["action"] == JStr("detail") != JStr("buy");
    }
  }

  /** What the bot sends while handling an update. */
  datatype Outgoing =
    | Answer(text: string)                  // answerCallbackQuery
    | Order(body: OrderBody)                // the KIS cash order
    | Edit(messageId: int, text: string)    // editMessageText
    | Send(text: string)                    // sendMessage

  /** The outcome of the calls a callback makes: the order, the quote and name of the
      ticker, the detail text (or its failure text), whether the holdings insert
      succeeds, and the time. */
  datatype CallbackWorld = CallbackWorld(order: KisReply, quote: Option<real>, stockName: string,
                                         detail: string, ok: bool, now: string)

  function FilledText(ticker: string, qty: int, r: OrderResult): string
  {
    "✅ *매수 체결 완료*\n\n종목: " + ticker + "\n수량: " + IntToString(qty) + "주\n주문번호: " + r.orderNo +
    "\n시간: " + r.orderTime + "\n\n📌 Supabase 보유 목록에 자동 등록됩니다."
  }

  function RejectedText(ticker: string, message: string, isPaper: bool): string
  {
    "❌ *매수 실패*\n\n종목: " + ticker + "\n사유: " + message + "\n\n" + (if isPaper then "모의투자" else "실전") + " 모드"
  }

  /** The note a holding bought from Telegram is stored with. */
  const TelegramNote: string := "텔레그램 매수"

  /** The holding a filled buy registers: at the current price (0 without a quote). */
  function BoughtRow(ticker: string, qty: int, w: CallbackWorld): Holdings.Row
  {
    Holdings.NewRow(ticker, w.stockName, if w.quote.Some? then w.quote.value else 0.0, qty, TelegramNote,
                    Holdings.DefaultMode, Holdings.DefaultTrailingPct, w.now)
  }

  /** The buy branch of `handle_callback`. */
  function Bought(rows: seq<Holdings.Row>, enabled: bool, kis: KisConfig, ticker: string, qty: int,
                  messageId: int, w: CallbackWorld): (seq<Holdings.Row>, seq<Outgoing>)
  {
    var result := OrderResultOf(w.order, ticker, qty);
    var sent := [Answer("⏳ " + ticker + " " + IntToString(qty) + "주 매수 주문 중..."),
                 Order(OrderBodyOf(kis, ticker, qty, 0, "market"))];
    if result.success then
      (if enabled && w.ok then rows + [BoughtRow(ticker, qty, w)] else rows, sent + [Edit(messageId, FilledText(ticker, qty, result))])
    else
      (rows, sent + [Edit(messageId, RejectedText(ticker, result.message, kis.isPaper))])
  }

  /** `handle_callback`: the holdings afterwards and what is sent. */
  function Called(rows: seq<Holdings.Row>, enabled: bool, kis: KisConfig, data: Option<Json>, messageId: int,
                  w: CallbackWorld): (seq<Holdings.Row>, seq<Outgoing>)
  {
    var plan := CallbackPlanOf(data);
    if plan.Malformed? then (rows, [Answer("⚠️ 잘못된 요청")])
    else if plan.Buy? then Bought(rows, enabled, kis, plan.ticker, plan.qty, messageId, w)
    else if plan.Detail? then (rows, [Answer("📋 " + plan.ticker + " 상세 정보 조회 중..."), Send(w.detail)])
    else (rows, [])
  }

  /**
   * Only a buy callback orders, exactly once, at market for its own ticker and quantity;
   * a holding is added only when that order succeeded (and the table is reachable), and
   * it is that ticker at that quantity. Data that is not JSON is answered "잘못된 요청"
   * and changes nothing.
   */
  lemma CalledRule(rows: seq<Holdings.Row>, enabled: bool, kis: KisConfig, data: Option<Json>, messageId: int,
                   w: CallbackWorld)
    ensures var (rows', sent) := Called(rows, enabled, kis, data, messageId, w);
      var plan := CallbackPlanOf(data);
      (data.None? ==> rows' == rows && sent == [Answer("⚠️ 잘못된 요청")]) &&
      (forall i :: 0 <= i < |sent| && sent[i].Order? ==>
         (plan.Buy? && sent[i].body == OrderBodyOf(kis, plan.ticker, plan.qty, 0, "market"))) &&
      (plan.Buy? ==> |sent| == 3 && sent[1].Order?) &&
      (rows' != rows ==> (plan.Buy? && OrderResultOf(w.order, plan.ticker, plan.qty).success && enabled && w.ok &&
         rows' == rows + [BoughtRow(plan.ticker, plan.qty, w)])) &&
      (plan.Buy? && OrderResultOf(w.order, plan.ticker, plan.qty).success && enabled && w.ok ==>
         rows' == rows + [BoughtRow(plan.ticker, plan.qty, w)])
  {
  }

  /** Pressing an alert's buy button orders the alert's ticker and quantity at market. */
  lemma BuyButtonOrders(rows: seq<Holdings.Row>, enabled: bool, kis: KisConfig, phase: string, ticker: string,
                        qty: int, messageId: int, w: CallbackWorld)
    requires phase != "BEAR"
    ensures var b := AlertButtons(phase, ticker, qty)[0][0];
      var (_, sent) := Called(rows, enabled, kis, Some(PayloadJson(b.payload)), messageId, w);
      |sent| == 3 && sent[1] == Order(OrderBodyOf(kis, ticker, qty, 0, "market"))
  {
    ButtonRoundTrip(BuyPayload(ticker, qty));
  }

  // ---------------------------------------------------------------
  // handle_message and the commands (telegram_bot.py:375-462)
  // ---------------------------------------------------------------

  datatype BotCommand = StatusCmd | ReportCmd | ListCmd | AddCmd(text: string) | DelCmd(text: string) | HelpCmd | Silent

  predicate IsStatus(t: string) { StartsWith(t, "/status") || t == "상태" }
  predicate IsReport(t: string) { StartsWith(t, "/report") || t == "보고" }
  predicate IsList(t: string) { StartsWith(t, "/list") || t == "보유" }
  predicate IsAdd(t: string) { StartsWith(t, "/add") || StartsWith(t, "/등록") }
  predicate IsDel(t: string) { StartsWith(t, "/del") || StartsWith(t, "/삭제") }
  predicate IsHelp(t: string) { StartsWith(t, "/help") || t == "도움" }

  /** The dispatch of `handle_message`, on the stripped text. */
  function Dispatch(raw: string): BotCommand
  {
    DispatchText(Report.Strip(raw))
  }

  /** The tests in the source's order. */
  function DispatchText(text: string): BotCommand
  {
    if IsStatus(text) then StatusCmd
    else if IsReport(text) then ReportCmd
    else if IsList(text) then ListCmd
    else if IsAdd(text) then AddCmd(text)
    else if IsDel(text) then DelCmd(text)
    else if IsHelp(text) then HelpCmd
    else Silent
  }

  /** A text that starts with, or is, a literal of two or more characters has its first
      two characters. */
  lemma Head(t: string, lit: string)
    requires |lit| >= 2 && (StartsWith(t, lit) || t == lit)
    ensures |t| >= 2 && t[0] == lit[0] && t[1] == lit[1]
  {
    if StartsWith(t, lit) {
      assert t[..|lit|][0] == t[0] && t[..|lit|][1] == t[1];
    }
  }

  /** The first two characters each command test needs. */
  predicate HeadIs(t: string, a: char, b: char)
  {
    |t| >= 2 && t[0] == a && t[1] == b
  }

  lemma Heads(t: string)
    ensures IsStatus(t) ==> HeadIs(t, '/', 's') || HeadIs(t, '상', '태')
    ensures IsReport(t) ==> HeadIs(t, '/', 'r') || HeadIs(t, '보', '고')
    ensures IsList(t) ==> HeadIs(t, '/', 'l') || HeadIs(t, '보', '유')
    ensures IsAdd(t) ==> HeadIs(t, '/', 'a') || HeadIs(t, '/', '등')
    ensures IsDel(t) ==> HeadIs(t, '/', 'd') || HeadIs(t, '/', '삭')
    ensures IsHelp(t) ==> HeadIs(t, '/', 'h') || HeadIs(t, '도', '움')
  {
    if StartsWith(t, "/status") { Head(t, "/status"); }
    if t == "상태" { Head(t, "상태"); }
    if StartsWith(t, "/report") { Head(t, "/report"); }
    if t == "보고" { Head(t, "보고"); }
    if StartsWith(t, "/list") { Head(t, "/list"); }
    if t == "보유" { Head(t, "보유"); }
    if StartsWith(t, "/add") { Head(t, "/add"); }
    if StartsWith(t, "/등록") { Head(t, "/등록"); }
    if StartsWith(t, "/del") { Head(t, "/del"); }
    if StartsWith(t, "/삭제") { Head(t, "/삭제"); }
    if StartsWith(t, "/help") { Head(t, "/help"); }
    if t == "도움" { Head(t, "도움"); }
  }

  /** The six command tests exclude each other, so the order of the checks never matters:
      each command is chosen exactly when its own test holds. */
  lemma DispatchMeaning(raw: string)
    ensures var t := Report.Strip(raw);
      var c := Dispatch(raw);
      (c == StatusCmd <==> IsStatus(t)) && (c == ReportCmd <==> IsReport(t)) && (c == ListCmd <==> IsList(t)) &&
      (c.AddCmd? <==> IsAdd(t)) && (c.DelCmd? <==> IsDel(t)) && (c == HelpCmd <==> IsHelp(t)) &&
      (c.AddCmd? ==> c.text == t) && (c.DelCmd? ==> c.text == t)
  {
    Heads(Report.Strip(raw));
  }

  /** The arguments of `/add`: ticker, name, price and an optional quantity. */
  datatype AddArgs =
    | AddUsage
    | AddBadNumber(error: string)
    | AddArgs(ticker: string, name: string, price: real, qty: int)

  function FloatError(raw: string): string
  {
    "could not convert string to float: '" + raw + "'"
  }

  function IntError(raw: string): string
  {
    "invalid literal for int() with base 10: '" + raw + "'"
  }

  /** `_cmd_add`'s reading of its words: at least four, the price as `float` and the
      quantity, when given, as `int`, else 0. */
  function ParseAddArgs(text: string): AddArgs
  {
    var parts := Watchlist.Words(text);
    if |parts| < 4 then AddUsage
    else
      var price := Watchlist.ParseNumber(parts[3]);
      var qty := if |parts| > 4 then ParseInt(parts[4]) else Some(0);
      if price.None? then AddBadNumber(FloatError(parts[3]))
      else if qty.None? then AddBadNumber(IntError(parts[4]))
      else AddArgs(parts[1], parts[2], price.value, qty.value)
  }

  /** The word reading of `_cmd_add`: fewer than four words give the usage, a price that
      `float` rejects or a quantity that `int` rejects gives its error, and otherwise the
      ticker, name, price and quantity (0 when not given). */
  method ReadAddArgs(text: string) returns (args: AddArgs)
    ensures args == ParseAddArgs(text)
  {
    var parts := Watchlist.Words(text);
    if |parts| < 4 {
      return AddUsage;
    }
    var price := Watchlist.ParseNumber(parts[3]);
    if price.None? {
      return AddBadNumber(FloatError(parts[3]));
    }
    var qty := 0;
    if |parts| > 4 {
      var q := ParseInt(parts[4]);
      if q.None? {
        return AddBadNumber(IntError(parts[4]));
      }
      qty := q.value;
    }
    args := AddArgs(parts[1], parts[2], price.value, qty);
  }

  /** A word followed by a blank splits off as the first word. */
  lemma WordsCons(a: string, rest: string)
    requires Watchlist.IsWord(a)
    ensures Watchlist.Words(a + " " + rest) == [a] + Watchlist.Words(rest)
  {
    var s := a + " " + rest;
    assert s == a + (" " + rest);
    assert Report.StripStart(s) == s;
    Watchlist.TokenEndWord(a, " " + rest);
    assert s[..|a|] == a && s[|a|..] == " " + rest;
    Watchlist.StripStartSpaces(" ", rest);
  }

  lemma DigitsWord(n: nat)
    ensures Watchlist.IsWord(NatToString(n)) && IsDigits(NatToString(n))
  {
  }

  /** Words joined by single blanks split back into those words. */
  lemma {:induction false} WordsJoin(ws: seq<string>)
    requires |ws| > 0 && forall i :: 0 <= i < |ws| ==> Watchlist.IsWord(ws[i])
    ensures Watchlist.Words(Join(ws, " ")) == ws
  {
    if |ws| == 1 {
      Watchlist.WordsOne(ws[0]);
    } else {
      var rest := ws[1..];
      assert [ws[0]] + rest == ws;
      var j := Join(rest, " ");
      assert Join(ws, " ") == ws[0] + " " + j;
      WordsJoin(rest);
      WordsConsed(ws[0], j, rest);
    }
  }

  /** `WordsCons` with the words of the rest already known. */
  lemma WordsConsed(a: string, rest: string, tail: seq<string>)
    requires Watchlist.IsWord(a) && Watchlist.Words(rest) == tail
    ensures Watchlist.Words(a + " " + rest) == [a] + tail
  {
    WordsCons(a, rest);
  }

  /** A join ends with the last part's last character. */
  lemma {:induction false} JoinLast(ws: seq<string>, sep: string)
    requires |ws| > 0 && |ws[|ws| - 1]| > 0
    ensures var j := Join(ws, sep); |j| > 0 && j[|j| - 1] == ws[|ws| - 1][|ws[|ws| - 1]| - 1]
  {
    if |ws| > 1 {
      JoinLast(ws[1..], sep);
    }
  }

  /** The command as the help text shows it reads back its ticker, name, price and
      quantity. */
  lemma AddCommandRoundTrip(ticker: string, name: string, price: nat, qty: nat)
    requires Watchlist.IsWord(ticker) && Watchlist.IsWord(name)
    ensures var text := Join(["/add", ticker, name, NatToString(price), NatToString(qty)], " ");
      Dispatch(text) == AddCmd(text) && ParseAddArgs(text) == AddArgs(ticker, name, price as real, qty)
  {
    var p, q := NatToString(price), NatToString(qty);
    DigitsWord(price);
    DigitsWord(qty);
    var ws := ["/add", ticker, name, p, q];
    var text := Join(ws, " ");
    CommandWord();
    FiveWords("/add", ticker, name, p, q);
    WordsJoin(ws);
    Watchlist.ParseNumberDigits(p);
    NatToStringRoundTrip(price);
    ParseIntRoundTrip(qty);
    JoinStartsWith(ws, " ");
    JoinLast(ws, " ");
    AddDispatch(text);
  }

  lemma FiveWords(a: string, b: string, c: string, d: string, e: string)
    requires Watchlist.IsWord(a) && Watchlist.IsWord(b) && Watchlist.IsWord(c)
    requires Watchlist.IsWord(d) && Watchlist.IsWord(e)
    ensures var ws := [a, b, c, d, e]; forall i :: 0 <= i < |ws| ==> Watchlist.IsWord(ws[i])
  {
  }

  lemma CommandWord()
    ensures Watchlist.IsWord("/add")
  {
    var c := "/add";
    assert forall i :: 0 <= i < |c| ==> c[i] in "/add";
  }

  lemma AddDispatch(text: string)
    requires StartsWith(text, "/add") && |text| > 0 && '0' <= text[|text| - 1] <= '9'
    ensures Dispatch(text) == AddCmd(text)
  {
    assert text[..4][0] == text[0];
    Watchlist.StripVisible(text);
    Heads(text);
  }

  /** Fewer than four words is the usage message; exactly four register no quantity. */
  lemma AddArgsShape(text: string)
    ensures var parts := Watchlist.Words(text);
      (ParseAddArgs(text) == AddUsage <==> |parts| < 4) &&
      (ParseAddArgs(text).AddArgs? ==>
         ParseAddArgs(text).ticker == parts[1] && ParseAddArgs(text).name == parts[2] &&
         Watchlist.ParseNumber(parts[3]) == Some(ParseAddArgs(text).price) &&
         (|parts| == 4 ==> ParseAddArgs(text).qty == 0))
  {
  }

  /** What the commands read from outside: the market condition for `/status`, the clock,
      the daily summary for `/report`, whether the holdings requests succeed, and the time. */
  datatype MessageWorld = MessageWorld(condition: RiskManager.MarketCondition, clock: string, summary: string,
                                       ok: bool, now: string)

  /** Python `f"{x:,.0f}"`. */
  function Grouped0(x: real): string
  {
    (if x < 0.0 then "-" else "") + GroupedNat(Scaled(x, 0))
  }

  function StatusText(c: RiskManager.MarketCondition, clock: string): string
  {
    "📊 *시스템 상태*\n\n시장: " + c.marketPhase +
    "\n코스피: " + Grouped0(c.kospiValue) + " (MA5: " + Grouped0(c.kospiMa5) + ")" +
    "\n코스닥: " + Grouped0(c.kosdaqValue) + " (MA5: " + Grouped0(c.kosdaqMa5) + ")" +
    "\n최대비중: " + Percent0(c.maxWeight) + "\n⏰ " + clock
  }

  const NoHoldingsText: string := "📋 보유 종목이 없습니다."

  function NameText(n: Option<string>): string
  {
    if n.Some? then n.value else "None"
  }

  /** One line of `_cmd_list`: green for a non-negative profit, red otherwise. */
  function HoldingLine(r: Holdings.Row): (line: string)
    ensures |line| > 0 && line[0] == (if r.pnlPct >= 0.0 then '🟢' else '🔴')
  {
    (if r.pnlPct >= 0.0 then "🟢" else "🔴") + " " + NameText(r.name) + "(" + r.ticker + ") " + SignedFixed(r.pnlPct, 1) + "%"
  }

  function HoldingLines(rows: seq<Holdings.Row>): (lines: seq<string>)
    ensures |lines| == |rows| && forall i :: 0 <= i < |rows| ==> lines[i] == HoldingLine(rows[i])
  {
    if |rows| == 0 then [] else HoldingLines(rows[..|rows| - 1]) + [HoldingLine(rows[|rows| - 1])]
  }

  function ListText(rows: seq<Holdings.Row>): string
  {
    if |rows| == 0 then NoHoldingsText else Join(["📌 *보유 종목*\n"] + HoldingLines(rows), "\n")
  }

  const HelpText: string :=
    "🤖 *퀀트 에이전트 명령어*\n\n/status — 시장 상태\n/report — 일일 보고서\n/list — 보유 종목\n" +
    "/add [코드] [이름] [매수가] [수량]\n/del [코드]\n/help — 도움말"

  const AddUsageText: string := "⚠️ 형식: /add [종목코드] [종목명] [매수가] [수량]"
  const DelUsageText: string := "⚠️ 형식: /del [종목코드]"

  /** `_cmd_add` once the words are read. */
  function AddAnswered(rows: seq<Holdings.Row>, enabled: bool, args: AddArgs, w: MessageWorld): (seq<Holdings.Row>, string)
  {
    match args
    case AddUsage => (rows, AddUsageText)
    case AddBadNumber(e) => (rows, "❌ 오류: " + e)
    case AddArgs(t, n, p, q) =>
      if enabled && w.ok then
        (rows + [Holdings.NewRow(t, n, p, q, "", Holdings.DefaultMode, Holdings.DefaultTrailingPct, w.now)],
         "✅ " + n + "(" + t + ") @" + Grouped(Trunc(p)) + " 등록 완료!")
      else (rows, "❌ 등록 실패")
  }

  /** `_cmd_del`. */
  function DelAnswered(rows: seq<Holdings.Row>, enabled: bool, text: string, w: MessageWorld): (seq<Holdings.Row>, string)
  {
    var parts := Watchlist.Words(text);
    if |parts| < 2 then (rows, DelUsageText)
    else if enabled && w.ok then (Holdings.Dropped(rows, parts[1]), "🗑️ " + parts[1] + " 삭제 완료")
    else (rows, "❌ " + parts[1] + " 삭제 실패")
  }

  /** `handle_message`: the holdings afterwards and the reply ("" for no reply). */
  function Answered(rows: seq<Holdings.Row>, enabled: bool, raw: string, w: MessageWorld): (seq<Holdings.Row>, string)
  {
    Performed(rows, enabled, Dispatch(raw), w)
  }

  /** What a command does. */
  function Performed(rows: seq<Holdings.Row>, enabled: bool, cmd: BotCommand, w: MessageWorld): (seq<Holdings.Row>, string)
  {
    match cmd
    case StatusCmd => (rows, StatusText(w.condition, w.clock))
    case ReportCmd => (rows, w.summary)
    case ListCmd => (rows, ListText(if enabled && w.ok then rows else []))
    case AddCmd(text) => AddAnswered(rows, enabled, ParseAddArgs(text), w)
    case DelCmd(text) => DelAnswered(rows, enabled, text, w)
    case HelpCmd => (rows, HelpText)
    case Silent => (rows, "")
  }

  /** Only `/add` and `/del` change the holdings: `/add` appends exactly the record of
      its arguments, `/del` drops exactly its ticker's rows; a text that is no command is
      not answered. */
  lemma AnsweredChanges(rows: seq<Holdings.Row>, enabled: bool, raw: string, w: MessageWorld)
    ensures var (rows', reply) := Answered(rows, enabled, raw, w);
      var t := Report.Strip(raw);
      (!IsAdd(t) && !IsDel(t) ==> rows' == rows) &&
      (!IsStatus(t) && !IsReport(t) && !IsList(t) && !IsAdd(t) && !IsDel(t) && !IsHelp(t) ==> reply == "") &&
      (IsAdd(t) && rows' != rows ==> (ParseAddArgs(t).AddArgs? &&
         rows' == rows + [AddedRow(ParseAddArgs(t), w.now)])) &&
      (IsDel(t) && rows' != rows ==> |Watchlist.Words(t)| >= 2 && rows' == Holdings.Dropped(rows, Watchlist.Words(t)[1]))
  {
    DispatchMeaning(raw);
    PerformedChanges(rows, enabled, Dispatch(raw), w);
  }

  /** The record `/add` inserts. */
  function AddedRow(args: AddArgs, now: string): Holdings.Row
    requires args.AddArgs?
  {
    Holdings.NewRow(args.ticker, args.name, args.price, args.qty, "", Holdings.DefaultMode, Holdings.DefaultTrailingPct, now)
  }

  lemma PerformedChanges(rows: seq<Holdings.Row>, enabled: bool, cmd: BotCommand, w: MessageWorld)
    ensures var (rows', reply) := Performed(rows, enabled, cmd, w);
      (!cmd.AddCmd? && !cmd.DelCmd? ==> rows' == rows) &&
      (cmd == Silent ==> reply == "") &&
      (cmd.AddCmd? && rows' != rows ==> (ParseAddArgs(cmd.text).AddArgs? &&
         rows' == rows + [AddedRow(ParseAddArgs(cmd.text), w.now)])) &&
      (cmd.DelCmd? && rows' != rows ==> (|Watchlist.Words(cmd.text)| >= 2 &&
         rows' == Holdings.Dropped(rows, Watchlist.Words(cmd.text)[1])))
  {
  }

  // ---------------------------------------------------------------
  // _poll_loop: one batch of updates (telegram_bot.py:482-513)
  // ---------------------------------------------------------------

  datatype UpdateBody =
    | CallbackQuery(data: Option<Json>, messageId: int, cw: CallbackWorld)
    | Message(text: string, chat: string, mw: MessageWorld)   // `chat` is `str(chat_id)`
    | OtherUpdate

  datatype Update = Update(updateId: int, body: UpdateBody)

  /** The bot's part of one batch so far: the holdings, the offset, what was sent, and
      whether an update raised (which ends the batch). */
  datatype Poll = Poll(rows: seq<Holdings.Row>, offset: int, sent: seq<Outgoing>, halted: bool)

  /** Whether handling the update raises out of the batch. */
  predicate Raises(body: UpdateBody)
  {
    body.CallbackQuery? && CallbackPlanOf(body.data).NotAnObject?
  }

  /** Handling one update: a callback, or a nonempty message from the configured chat,
      whose reply is sent unless empty; anything else is skipped. */
  function Delivered(rows: seq<Holdings.Row>, enabled: bool, kis: KisConfig, chatId: string, body: UpdateBody)
    : (seq<Holdings.Row>, seq<Outgoing>)
  {
    match body
    case CallbackQuery(data, messageId, cw) => Called(rows, enabled, kis, data, messageId, cw)
    case Message(text, chat, mw) =>
      if chat == chatId && text != "" then
        var (rows', reply) := Answered(rows, enabled, text, mw);
        (rows', if reply != "" then [Send(reply)] else [])
      else (rows, [])
    case OtherUpdate => (rows, [])
  }

  /** The batch: each update first moves the offset past itself, then is handled; an
      update that raises ends the batch. */
  function Polled(rows: seq<Holdings.Row>, offset: int, enabled: bool, kis: KisConfig, chatId: string,
                  updates: seq<Update>): Poll
  {
    if |updates| == 0 then Poll(rows, offset, [], false)
    else
      var p := Polled(rows, offset, enabled, kis, chatId, updates[..|updates| - 1]);
      var u := updates[|updates| - 1];
      if p.halted then p
      else if Raises(u.body) then p.(offset := u.updateId + 1, halted := true)
      else
        var (rows', sent) := Delivered(p.rows, enabled, kis, chatId, u.body);
        Poll(rows', u.updateId + 1, p.sent + sent, false)
  }

  /** The batch over one more update extends the batch before it by that update. */
  lemma PolledStep(rows: seq<Holdings.Row>, offset: int, enabled: bool, kis: KisConfig, chatId: string,
                   updates: seq<Update>, i: nat)
    requires i < |updates|
    ensures var p := Polled(rows, offset, enabled, kis, chatId, updates[..i]);
      var u := updates[i];
      !p.halted ==>
        Polled(rows, offset, enabled, kis, chatId, updates[..i + 1]) ==
          (if Raises(u.body) then p.(offset := u.updateId + 1, halted := true)
           else Poll(Delivered(p.rows, enabled, kis, chatId, u.body).0, u.updateId + 1,
                     p.sent + Delivered(p.rows, enabled, kis, chatId, u.body).1, false))
  {
    assert updates[..i + 1][..i] == updates[..i];
  }

  /** A batch in which nothing raises handles every update and leaves the offset one past
      the last. */
  lemma {:induction false} PolledClean(rows: seq<Holdings.Row>, offset: int, enabled: bool, kis: KisConfig,
                                       chatId: string, updates: seq<Update>)
    requires forall i :: 0 <= i < |updates| ==> !Raises(updates[i].body)
    ensures var p := Polled(rows, offset, enabled, kis, chatId, updates);
      !p.halted && p.offset == (if |updates| == 0 then offset else updates[|updates| - 1].updateId + 1)
  {
    if |updates| > 0 {
      var front := updates[..|updates| - 1];
      assert forall i :: 0 <= i < |front| ==> front[i] == updates[i];
      PolledClean(rows, offset, enabled, kis, chatId, front);
    }
  }

  /**
   * The first update that raises ends the batch with the offset one past it: it is not
   * fetched again, while the updates after it are.
   */
  lemma PolledFirstRaise(rows: seq<Holdings.Row>, offset: int, enabled: bool, kis: KisConfig,
                         chatId: string, updates: seq<Update>, k: nat)
    requires k < |updates| && Raises(updates[k].body)
    requires forall i :: 0 <= i < k ==> !Raises(updates[i].body)
    ensures var p := Polled(rows, offset, enabled, kis, chatId, updates);
      p.halted && p.offset == updates[k].updateId + 1
  {
    var front := updates[..k];
    assert forall i :: 0 <= i < k ==> front[i] == updates[i];
    PolledClean(rows, offset, enabled, kis, chatId, front);
    PolledStep(rows, offset, enabled, kis, chatId, updates, k);
    PolledHalted(rows, offset, enabled, kis, chatId, updates, k + 1);
  }

  /** Messages from another chat, empty messages and other updates change nothing and
      send nothing. */
  lemma ForeignIgnored(rows: seq<Holdings.Row>, enabled: bool, kis: KisConfig, chatId: string, body: UpdateBody)
    requires body.OtherUpdate? || (body.Message? && (body.chat != chatId || body.text == ""))
    ensures Delivered(rows, enabled, kis, chatId, body) == (rows, [])
  {
  }

  /** Once a batch has halted, later updates change nothing. */
  lemma {:induction false} PolledHalted(rows: seq<Holdings.Row>, offset: int, enabled: bool, kis: KisConfig,
                                        chatId: string, updates: seq<Update>, i: nat)
    requires i <= |updates| && Polled(rows, offset, enabled, kis, chatId, updates[..i]).halted
    ensures Polled(rows, offset, enabled, kis, chatId, updates) == Polled(rows, offset, enabled, kis, chatId, updates[..i])
    decreases |updates| - i
  {
    if i < |updates| {
      assert updates[..i + 1][..i] == updates[..i];
      PolledHalted(rows, offset, enabled, kis, chatId, updates, i + 1);
    } else {
      assert updates[..i] == updates;
    }
  }

  /** `TradingTelegramBot`: the poll offset and running flag it updates, with the holdings
      table it writes to. */
  class TradingTelegramBot {
    const chatId: string
    const kis: KisConfig
    const store: Holdings.HoldingStore
    var offset: int
    var running: bool

    constructor(chatId: string, kis: KisConfig, store: Holdings.HoldingStore)
      ensures this.chatId == chatId && this.kis == kis && this.store == store
      ensures offset == 0 && !running
    {
      this.chatId := chatId;
      this.kis := kis;
      this.store := store;
      offset := 0;
      running := false;
    }

    /** `start_polling`: only an enabled bot starts. */
    method StartPolling(enabled: bool)
      modifies this`running
      ensures running == (old(running) || enabled)
    {
      if !enabled {
        return;
      }
      running := true;
    }

    /** `stop_polling`. */
    method StopPolling()
      modifies this`running
      ensures !running
    {
      running := false;
    }

    /** `_cmd_add`: reads the words, then registers the holding. */
    method CmdAdd(text: string, w: MessageWorld) returns (reply: string)
      modifies store`rows
      ensures (store.rows, reply) == AddAnswered(old(store.rows), store.config.enabled, ParseAddArgs(text), w)
    {
      var args := ReadAddArgs(text);
      reply := AddRead(args, w);
    }

    /** The registration step of `_cmd_add` once its words are read. */
    method AddRead(args: AddArgs, w: MessageWorld) returns (reply: string)
      modifies store`rows
      ensures (store.rows, reply) == AddAnswered(old(store.rows), store.config.enabled, args, w)
    {
      match args
      case AddUsage =>
        reply := AddUsageText;
      case AddBadNumber(e) =>
        reply := "❌ 오류: " + e;
      case AddArgs(t, n, p, q) =>
        var result := store.AddHolding(t, n, p, q, "", Holdings.DefaultMode, Holdings.DefaultTrailingPct, w.now, w.ok);
        if result.Some? {
          reply := "✅ " + n + "(" + t + ") @" + Grouped(Trunc(p)) + " 등록 완료!";
        } else {
          reply := "❌ 등록 실패";
        }
    }

    /** `_cmd_del`. */
    method CmdDel(text: string, w: MessageWorld) returns (reply: string)
      modifies store`rows
      ensures (store.rows, reply) == DelAnswered(old(store.rows), store.config.enabled, text, w)
    {
      var parts := Watchlist.Words(text);
      if |parts| < 2 {
        return DelUsageText;
      }
      var ticker := parts[1];
      var removed := store.RemoveHolding(ticker, w.ok);
      if removed {
        return "🗑️ " + ticker + " 삭제 완료";
      }
      return "❌ " + ticker + " 삭제 실패";
    }

    /** `handle_message`: the command chosen by the text's tests, then performed. */
    method HandleMessage(raw: string, w: MessageWorld) returns (reply: string)
      modifies store`rows
      ensures (store.rows, reply) == Answered(old(store.rows), store.config.enabled, raw, w)
    {
      var cmd := DispatchText(Report.Strip(raw));
      reply := Perform(cmd, w);
    }

    /** The `_cmd_*` method of a command. */
    method Perform(cmd: BotCommand, w: MessageWorld) returns (reply: string)
      modifies store`rows
      ensures (store.rows, reply) == Performed(old(store.rows), store.config.enabled, cmd, w)
    {
      match cmd
      case StatusCmd =>
        reply := StatusText(w.condition, w.clock);
      case ReportCmd =>
        reply := w.summary;
      case ListCmd =>
        var holdings := store.GetAll(w.ok);
        reply := ListText(holdings);
      case AddCmd(text) =>
        reply := CmdAdd(text, w);
      case DelCmd(text) =>
        reply := CmdDel(text, w);
      case HelpCmd =>
        reply := HelpText;
      case Silent =>
        reply := "";
    }

    /** The buy branch of `handle_callback`. */
    method BuyCallback(ticker: string, qty: int, messageId: int, w: CallbackWorld) returns (sent: seq<Outgoing>)
      modifies store`rows
      ensures (store.rows, sent) == Bought(old(store.rows), store.config.enabled, kis, ticker, qty, messageId, w)
    {
      var answer := Answer("⏳ " + ticker + " " + IntToString(qty) + "주 매수 주문 중...");
      var order := Order(OrderBodyOf(kis, ticker, qty, 0, "market"));
      sent := [answer, order];
      var result := OrderResultOf(w.order, ticker, qty);
      if result.success {
        var price := if w.quote.Some? then w.quote.value else 0.0;
        var _ := store.AddHolding(ticker, w.stockName, price, qty, TelegramNote, Holdings.DefaultMode,
                                  Holdings.DefaultTrailingPct, w.now, w.ok);
        sent := sent + [Edit(messageId, FilledText(ticker, qty, result))];
      } else {
        sent := sent + [Edit(messageId, RejectedText(ticker, result.message, kis.isPaper))];
      }
    }

    /** `handle_callback` on a callback that does not raise. */
    method HandleCallback(data: Option<Json>, messageId: int, w: CallbackWorld) returns (sent: seq<Outgoing>)
      modifies store`rows
      ensures (store.rows, sent) == Called(old(store.rows), store.config.enabled, kis, data, messageId, w)
    {
      var plan := CallbackPlanOf(data);
      if plan.Malformed? {
        sent := [Answer("⚠️ 잘못된 요청")];
      } else if plan.Buy? {
        sent := BuyCallback(plan.ticker, plan.qty, messageId, w);
      } else if plan.Detail? {
        sent := [Answer("📋 " + plan.ticker + " 상세 정보 조회 중..."), Send(w.detail)];
      } else {
        sent := [];
      }
    }

    /** One batch of `getUpdates` results: whether it ended on an update that raised, and
        what was sent. */
    method PollBatch(updates: seq<Update>) returns (halted: bool, sent: seq<Outgoing>)
      modifies this`offset, store`rows
      ensures Polled(old(store.rows), old(offset), store.config.enabled, kis, chatId, updates) ==
        Poll(store.rows, offset, sent, halted)
    {
      ghost var rows0, offset0 := store.rows, offset;
      halted := false;
      sent := [];
      var i := 0;
      while i < |updates|
        invariant 0 <= i <= |updates|
        invariant Polled(rows0, offset0, store.config.enabled, kis, chatId, updates[..i]) ==
          Poll(store.rows, offset, sent, false)
      {
        var u := updates[i];
        PolledStep(rows0, offset0, store.config.enabled, kis, chatId, updates, i);
        offset := u.updateId + 1;
        if u.body.CallbackQuery? {
          if CallbackPlanOf(u.body.data).NotAnObject? {
            halted := true;
            PolledHalted(rows0, offset0, store.config.enabled, kis, chatId, updates, i + 1);
            return;
          }
          var out := HandleCallback(u.body.data, u.body.messageId, u.body.cw);
          sent := sent + out;
        } else if u.body.Message? {
          if u.body.chat == chatId && u.body.text != "" {
            var reply := HandleMessage(u.body.text, u.body.mw);
            if reply != "" {
              sent := sent + [Send(reply)];
            }
          }
        }
        i := i + 1;
      }
      assert updates[..i] == updates;
    }
  }
}
