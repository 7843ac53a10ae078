// The report generator of report_generator.py: the numpy-safe serialiser, the
// dictionaries of a strategy signal and of a market condition, and the console
// and Telegram texts.  The text of each reason line is a parameter of the
// formatters: the evaluators and the market filter write those lines with
// f-strings that are not part of this model (`Reason`, `MarketReason`).

module Report {
  import opened Common
  import opened Strategies
  import opened RiskManager

  // ---------------------------------------------------------------
  // 1. _safe_serialize (report_generator.py:189-211)
  // ---------------------------------------------------------------

  /**
   * The values `_safe_serialize` tells apart: dicts (string keys) and lists,
   * numpy scalars, a numpy array (given by what its `tolist()` returns), the
   * Python primitives, an object with an `isoformat()` method (given by that
   * string) and any other object (given by its `str()`).
   */
  datatype Value =
    | Dict(entries: seq<(string, Value)>)
    | List(items: seq<Value>)
    | NumpyBool(nb: bool)
    | NumpyInt(ni: int)
    | NumpyFloat(nf: real)
    | NumpyArray(asList: seq<Value>)
    | Bool(b: bool)
    | Int(i: int)
    | Float(f: real)
    | Str(s: string)
    | Null
    | IsoFormattable(iso: string)
    | Other(text: string)

  /** A value `json.dumps` takes as it is: dicts, lists and Python primitives all the way down. */
  predicate Native(v: Value)
  {
    match v
    case Dict(es) => forall i :: 0 <= i < |es| ==> Native(es[i].1)
    case List(xs) => forall i :: 0 <= i < |xs| ==> Native(xs[i])
    case Bool(_) => true
    case Int(_) => true
    case Float(_) => true
    case Str(_) => true
    case Null => true
    case _ => false
  }

  /** Every numpy array inside `v` lists Python primitives, as `tolist()` always does. */
  predicate WellFormed(v: Value)
  {
    match v
    case Dict(es) => forall i :: 0 <= i < |es| ==> WellFormed(es[i].1)
    case List(xs) => forall i :: 0 <= i < |xs| ==> WellFormed(xs[i])
    case NumpyArray(xs) => Native(List(xs))
    case _ => true
  }

  function SafeSerialize(v: Value): Value
  {
    match v
    case Dict(es) => Dict(seq(|es|, i requires 0 <= i < |es| => (es[i].0, SafeSerialize(es[i].1))))
    case List(xs) => List(seq(|xs|, i requires 0 <= i < |xs| => SafeSerialize(xs[i])))
    case NumpyBool(b) => Bool(b)
    case NumpyInt(n) => Int(n)
    case NumpyFloat(x) => Float(x)
    case NumpyArray(xs) => List(xs)
    case IsoFormattable(s) => Str(s)
    case Other(s) => Str(s)
    case _ => v
  }

  /** A dict keeps its keys in order and a list its length; numpy scalars become the
      Python value they hold, dates their ISO text and any other object its `str()`. */
  lemma SafeSerializeShape(v: Value)
    ensures var r := SafeSerialize(v);
      (v.Dict? ==> r.Dict? && |r.entries| == |v.entries| &&
                   forall i :: 0 <= i < |v.entries| ==> r.entries[i].0 == v.entries[i].0) &&
      (v.List? ==> r.List? && |r.items| == |v.items|) &&
      (v.NumpyBool? ==> r == Bool(v.nb)) &&
      (v.NumpyInt? ==> r == Int(v.ni)) &&
      (v.NumpyFloat? ==> r == Float(v.nf)) &&
      (v.NumpyArray? ==> r == List(v.asList)) &&
      (v.IsoFormattable? ==> r == Str(v.iso)) &&
      (v.Other? ==> r == Str(v.text))
  {
  }

  /** The serialiser's output is JSON-ready. */
  lemma {:induction false} SafeSerializeNative(v: Value)
    requires WellFormed(v)
    ensures Native(SafeSerialize(v))
  {
    match v
    case Dict(es) =>
      forall i | 0 <= i < |es|
        ensures Native(SafeSerialize(es[i].1))
      {
        SafeSerializeNative(es[i].1);
      }
    case List(xs) =>
      forall i | 0 <= i < |xs|
        ensures Native(SafeSerialize(xs[i]))
      {
        SafeSerializeNative(xs[i]);
      }
    case _ =>
  }

  /** A value that is already JSON-ready comes back unchanged. */
  lemma {:induction false} SafeSerializeIdentity(v: Value)
    requires Native(v)
    ensures SafeSerialize(v) == v
  {
    match v
    case Dict(es) =>
      var r := SafeSerialize(v).entries;
      forall i | 0 <= i < |es|
        ensures r[i] == es[i]
      {
        SafeSerializeIdentity(es[i].1);
      }
      assert r == es;
    case List(xs) =>
      var r := SafeSerialize(v).items;
      forall i | 0 <= i < |xs|
        ensures r[i] == xs[i]
      {
        SafeSerializeIdentity(xs[i]);
      }
      assert r == xs;
    case _ =>
  }

  /** Serialising twice is serialising once. */
  lemma SafeSerializeIdempotent(v: Value)
    requires WellFormed(v)
    ensures SafeSerialize(SafeSerialize(v)) == SafeSerialize(v)
  {
    SafeSerializeNative(v);
    SafeSerializeIdentity(SafeSerialize(v));
  }

  // ---------------------------------------------------------------
  // 2. signal_to_dict (report_generator.py:132-153)
  // ---------------------------------------------------------------

  /** The fields `StrategySignal` declares (strategies.py:35-52), in order. */
  const SignalFields: seq<string> := [
    "ticker", "name", "strategy", "triggered", "confidence", "current_price",
    "entry_price_1", "entry_price_2", "target_price_1", "target_price_2", "stop_loss",
    "risk_reward_ratio", "reasons", "details", "verdict"]

  /** The signal attributes `signal_to_dict` reads, in the order of its dict display. */
  const SignalDictReads: seq<string> := [
    "ticker", "name", "strategy", "triggered", "confidence", "current_price",
    "entry_price_1", "entry_price_2", "target_price_1", "target_price_2", "stop_loss",
    "risk_reward_ratio", "market_cap", "reasons", "verdict", "details"]

  /** The first attribute read that the object does not have. */
  function FirstUndeclared(attrs: seq<string>, fields: seq<string>): (r: Option<string>)
    ensures r.None? <==> forall i :: 0 <= i < |attrs| ==> attrs[i] in fields
    ensures r.Some? ==> r.value in attrs && r.value !in fields
  {
    if |attrs| == 0 then None
    else if attrs[0] !in fields then Some(attrs[0])
    else
      var rest := FirstUndeclared(attrs[1..], fields);
      assert forall i :: 1 <= i < |attrs| ==> attrs[i] == attrs[1..][i - 1];
      rest
  }

  /** The dictionary of a signal, one entry per key. */
  datatype SignalRecord = SignalRecord(
    ticker: string, name: string, strategy: string, triggered: bool, confidence: int,
    currentPrice: real, entry1: real, entry2: real, target1: real, target2: real,
    stopLoss: real, riskReward: real, marketCap: Option<int>, reasons: seq<Reason>,
    verdict: string, details: Value, timestamp: string)

  /** A dictionary, or the attribute error raised while building it. */
  datatype ToDict = Built(record: SignalRecord) | AttributeError(attribute: string)

  /**
   * `signal_to_dict` as written: reading an attribute the signal does not
   * declare raises before the dictionary exists.  `details` is the signal's
   * details dict and `now` the clock's ISO time.
   */
  function SignalToDictAsWritten(s: Signal, details: Value, now: string): (r: ToDict)
    ensures r.AttributeError? <==> exists i :: 0 <= i < |SignalDictReads| && SignalDictReads[i] !in SignalFields
    ensures r.AttributeError? ==> r.attribute in SignalDictReads && r.attribute !in SignalFields
  {
    match FirstUndeclared(SignalDictReads, SignalFields)
    case Some(a) => AttributeError(a)
    case None => Built(SignalToDict(s, details, now))
  }

  /** `market_cap` is not a field of the signal, so every call raises, whatever the signal. */
  lemma SignalToDictAlwaysRaises(s: Signal, details: Value, now: string)
    ensures SignalToDictAsWritten(s, details, now) == AttributeError("market_cap")
  {
    assert SignalDictReads[12] == "market_cap";
    assert forall i :: 0 <= i < 12 ==> SignalDictReads[i] == SignalFields[i];
    assert "market_cap" !in SignalFields by {
      forall i | 0 <= i < |SignalFields|
        ensures SignalFields[i] != "market_cap"
      {
        assert SignalFields[i][0] != 'm' || SignalFields[i][1] != 'a' || |SignalFields[i]| != 10;
      }
    }
    var attrs := SignalDictReads;
    assert attrs[..12] == SignalFields[..12];
    FirstUndeclaredAfter(attrs, SignalFields, 12);
  }

  /** The first undeclared read is found after a declared prefix. */
  lemma {:induction false} FirstUndeclaredAfter(attrs: seq<string>, fields: seq<string>, k: nat)
    requires k < |attrs| && attrs[k] !in fields
    requires forall i :: 0 <= i < k ==> attrs[i] in fields
    ensures FirstUndeclared(attrs, fields) == Some(attrs[k])
  {
    if k > 0 {
      FirstUndeclaredAfter(attrs[1..], fields, k - 1);
    }
  }

  /**
   * The dictionary with `market_cap` read as absent (`getattr(signal,
   * "market_cap", None)`): each field copied, the strategy as its enum value,
   * the details serialised and the time stamp added.
   */
  function SignalToDict(s: Signal, details: Value, now: string): SignalRecord
  {
    SignalRecord(s.ticker, s.name, StrategyValue(s.strategy), s.triggered, s.confidence,
                 s.currentPrice, s.entry1, s.entry2, s.target1, s.target2, s.stopLoss,
                 s.riskReward, None, s.reasons, s.verdict, SafeSerialize(details), now)
  }

  /** The strategy whose enum value is `v`, as `StrategyType(v)` looks it up. */
  function StrategyOfValue(v: string): (t: Option<StrategyType>)
    ensures t.Some? ==> StrategyValue(t.value) == v
  {
    if v == StrategyValue(Pullback) then Some(Pullback)
    else if v == StrategyValue(BottomEscape) then Some(BottomEscape)
    else if v == StrategyValue(GoldenCross) then Some(GoldenCross)
    else if v == StrategyValue(Breakout) then Some(Breakout)
    else if v == StrategyValue(EarlyAlignment) then Some(EarlyAlignment)
    else None
  }

  /** The signal a dictionary describes, when its strategy value names a strategy. */
  function SignalOfRecord(d: SignalRecord): Option<Signal>
  {
    match StrategyOfValue(d.strategy)
    case None => None
    case Some(t) =>
      Some(Signal(d.ticker, d.name, t, d.triggered, d.confidence, d.currentPrice, d.entry1,
                  d.entry2, d.target1, d.target2, d.stopLoss, d.riskReward, d.reasons, d.verdict))
  }

  /** The dictionary loses nothing of the signal: reading it back gives the signal, and
      it carries the serialised details, no market cap and the time stamp. */
  lemma SignalToDictRoundTrip(s: Signal, details: Value, now: string)
    ensures SignalOfRecord(SignalToDict(s, details, now)) == Some(s)
    ensures var d := SignalToDict(s, details, now);
      d.details == SafeSerialize(details) && d.marketCap.None? && d.timestamp == now &&
      d.strategy == StrategyValue(s.strategy)
  {
    var t := StrategyOfValue(StrategyValue(s.strategy));
    assert t.Some?;
    StrategyValueInjective(t.value, s.strategy);
  }

  // ---------------------------------------------------------------
  // 3. market_condition_to_dict (report_generator.py:156-170)
  // ---------------------------------------------------------------

  /** The dictionary of a market condition: its eleven fields under their own names. */
  datatype ConditionRecord = ConditionRecord(
    kospiAboveMa5: bool, kosdaqAboveMa5: bool, kospiValue: real, kospiMa5: real,
    kosdaqValue: real, kosdaqMa5: real, marketPhase: string, maxWeight: real,
    allowedStrategies: seq<string>, reasons: seq<MarketReason>, timestamp: string)

  function ConditionToDict(c: MarketCondition): ConditionRecord
  {
    ConditionRecord(c.kospiAboveMa5, c.kosdaqAboveMa5, c.kospiValue, c.kospiMa5,
                    c.kosdaqValue, c.kosdaqMa5, c.marketPhase, c.maxWeight,
                    c.allowedStrategies, c.reasons, c.timestamp)
  }

  function ConditionOfRecord(d: ConditionRecord): MarketCondition
  {
    MarketCondition(d.kospiAboveMa5, d.kosdaqAboveMa5, d.kospiValue, d.kospiMa5,
                    d.kosdaqValue, d.kosdaqMa5, d.marketPhase, d.maxWeight,
                    d.allowedStrategies, d.reasons, d.timestamp)
  }

  /** Every field is copied unchanged: the dictionary and the condition determine each other. */
  lemma ConditionToDictRoundTrip(c: MarketCondition, d: ConditionRecord)
    ensures ConditionOfRecord(ConditionToDict(c)) == c
    ensures ConditionToDict(ConditionOfRecord(d)) == d
    ensures ConditionToDict(c) == d <==> c == ConditionOfRecord(d)
  {
  }

  // ---------------------------------------------------------------
  // 4. Console texts (report_generator.py:24-76)
  // ---------------------------------------------------------------

  const Divider: string := "════════════════════════════════════════════════════"

  /** `f"{int(x):,}원"`: the won amount, truncated and grouped by thousands. */
  function Won(x: real): string
  {
    Grouped(Trunc(x)) + "원"
  }

  /** The reasons numbered from 1, one line each. */
  function NumberedReasons(reasons: seq<Reason>, text: Reason -> string): (lines: seq<string>)
  {
    seq(|reasons|, i requires 0 <= i < |reasons| => "     " + IntToString(i + 1) + ". " + text(reasons[i]))
  }

  /** ✅ for an approved signal, ⏸️ otherwise. */
  function ApprovalMark(verdict: string): string
  {
    if verdict == Approve then "✅" else "⏸\U{FE0F}"
  }

  function SignalConsoleLines(s: Signal, text: Reason -> string): seq<string>
  {
    ["\n" + Divider,
     "  📊 " + s.name + "(" + s.ticker + ") / " + Won(s.currentPrice) + " / " + StrategyValue(s.strategy),
     Divider,
     "",
     "  🔍 핵심 근거:"]
    + NumberedReasons(s.reasons, text)
    + ["",
       "  🎯 매수 타점:",
       "     • 1차 매수가: " + Won(s.entry1),
       "     • 2차 매수가: " + Won(s.entry2),
       "",
       "  📈 목표가 / 📉 손절가:",
       "     • 1차 목표가: " + Won(s.target1),
       "     • 2차 목표가: " + Won(s.target2),
       "     • 손절가:     " + Won(s.stopLoss),
       "     • R:R 비율:   " + Fixed(s.riskReward, 1),
       "",
       "  ⚡ 신뢰도: " + Fixed(s.confidence as real, 0) + "%",
       "  " + ApprovalMark(s.verdict) + " 승인 여부: [" + s.verdict + "]",
       Divider]
  }

  /** `format_signal_console`: the lines joined by newlines. */
  function FormatSignalConsole(s: Signal, text: Reason -> string): string
  {
    Join(SignalConsoleLines(s, text), "\n")
  }

  /** Five heading lines, then reason i numbered i+1 in order, then fourteen closing lines
      ending with the verdict line, whose mark is ✅ exactly for an approved signal, and
      the divider; the text starts with the opening divider line. */
  lemma SignalConsoleLayout(s: Signal, text: Reason -> string)
    ensures var lines := SignalConsoleLines(s, text);
      |lines| == |s.reasons| + 19 &&
      (forall i :: 0 <= i < |s.reasons| ==>
         lines[5 + i] == "     " + IntToString(i + 1) + ". " + text(s.reasons[i])) &&
      lines[|lines| - 2] == "  " + ApprovalMark(s.verdict) + " 승인 여부: [" + s.verdict + "]" &&
      lines[|lines| - 1] == Divider &&
      StartsWith(FormatSignalConsole(s, text), "\n" + Divider)
  {
    JoinStartsWith(SignalConsoleLines(s, text), "\n");
  }

  /** The mark is ✅ exactly when the verdict is "매수 승인". */
  lemma ApprovalMarkRule(verdict: string)
    ensures ApprovalMark(verdict)[0] == '✅' <==> verdict == Approve
    ensures ApprovalMark(verdict) == "✅" <==> verdict == Approve
  {
  }

  const BoxTop: string := "╔══════════════════════════════════════════════╗"
  const BoxMiddle: string := "╠══════════════════════════════════════════════╣"
  const BoxBottom: string := "╚══════════════════════════════════════════════╝"

  /** The phase's colour: 🟢 bull, 🔴 bear, 🟡 neutral and ⚪ for anything else. */
  function PhaseEmoji(phase: string): string
  {
    if phase == Bull then "🟢"
    else if phase == Bear then "🔴"
    else if phase == Neutral then "🟡"
    else "⚪"
  }

  function MarketConsoleLines(c: MarketCondition, text: MarketReason -> string): seq<string>
  {
    ["\n" + BoxTop,
     "║  " + PhaseEmoji(c.marketPhase) + " 시장 상태: " + c.marketPhase,
     BoxMiddle]
    + seq(|c.reasons|, i requires 0 <= i < |c.reasons| => "║  " + text(c.reasons[i]))
    + ["║  최대 투자비중: " + Percent0(c.maxWeight),
       "║  허용 전략: " + Join(c.allowedStrategies, ", "),
       BoxBottom]
  }

  /** `format_market_condition_console`: the lines joined by newlines. */
  function FormatMarketConditionConsole(c: MarketCondition, text: MarketReason -> string): string
  {
    Join(MarketConsoleLines(c, text), "\n")
  }

  /** ⚪ marks exactly the phases outside BULL, BEAR and NEUTRAL; the three known phases
      have three different colours. */
  lemma PhaseEmojiRule(phase: string)
    ensures PhaseEmoji(phase) == "⚪" <==> phase != Bull && phase != Bear && phase != Neutral
    ensures phase == Bull <==> PhaseEmoji(phase) == "🟢"
    ensures phase == Bear <==> PhaseEmoji(phase) == "🔴"
    ensures phase == Neutral <==> PhaseEmoji(phase) == "🟡"
  {
  }

  /** Three heading lines, then the reasons in order, then the weight, the allowed
      strategies and the closing rule. */
  lemma MarketConsoleLayout(c: MarketCondition, text: MarketReason -> string)
    ensures var lines := MarketConsoleLines(c, text);
      |lines| == |c.reasons| + 6 &&
      lines[1] == "║  " + PhaseEmoji(c.marketPhase) + " 시장 상태: " + c.marketPhase &&
      (forall i :: 0 <= i < |c.reasons| ==> lines[3 + i] == "║  " + text(c.reasons[i])) &&
      lines[|lines| - 2] == "║  허용 전략: " + Join(c.allowedStrategies, ", ") &&
      StartsWith(FormatMarketConditionConsole(c, text), "\n" + BoxTop)
  {
    JoinStartsWith(MarketConsoleLines(c, text), "\n");
  }

  /** A condition from the market filter never shows the unknown-phase ⚪, and a bear
      market lists exactly its one strategy. */
  lemma FilteredConditionConsole(kospi: seq<real>, kosdaq: seq<real>, risk: Config.RiskConfig, now: string,
                                 text: MarketReason -> string)
    ensures var c := MarketConditionOf(kospi, kosdaq, risk, now);
      PhaseEmoji(c.marketPhase) != "⚪" &&
      (c.marketPhase == Bear ==>
         MarketConsoleLines(c, text)[|c.reasons| + 4] == "║  허용 전략: " + risk.bearMarketStrategy)
  {
    var c := MarketConditionOf(kospi, kosdaq, risk, now);
    MarketPhaseValues(kospi, kosdaq, risk, now);
    PhaseEmojiRule(c.marketPhase);
  }

  // ---------------------------------------------------------------
  // 5. Stop-loss Telegram text (report_generator.py:112-127)
  // ---------------------------------------------------------------

  /** The characters Python's `str.strip()` removes. */
  predicate IsSpace(c: char)
  {
    c == ' ' || '\t' <= c <= '\r' || '\U{1C}' <= c <= '\U{1F}' || c == '\U{85}' || c == '\U{A0}' ||
    c == '\U{1680}' || '\U{2000}' <= c <= '\U{200A}' || c == '\U{2028}' || c == '\U{2029}' ||
    c == '\U{202F}' || c == '\U{205F}' || c == '\U{3000}'
  }

  function StripEnd(s: string): (r: string)
    ensures |r| <= |s| && r == s[..|r|]
    ensures |r| > 0 ==> !IsSpace(r[|r| - 1])
    ensures forall i :: |r| <= i < |s| ==> IsSpace(s[i])
  {
    if |s| == 0 || !IsSpace(s[|s| - 1]) then s else StripEnd(s[..|s| - 1])
  }

  function StripStart(s: string): (r: string)
    ensures |r| <= |s| && r == s[|s| - |r|..]
    ensures |r| > 0 ==> !IsSpace(r[0])
    ensures forall i :: 0 <= i < |s| - |r| ==> IsSpace(s[i])
  {
    if |s| == 0 || !IsSpace(s[0]) then s else StripStart(s[1..])
  }

  /** `s.strip()`. */
  function Strip(s: string): string
  {
    StripStart(StripEnd(s))
  }

  /** Stripping leaves a text that begins with a visible character alone at the front. */
  lemma StripKeepsFirst(s: string)
    requires |s| > 0 && !IsSpace(s[0])
    ensures |Strip(s)| > 0 && Strip(s)[0] == s[0]
  {
    var e := StripEnd(s);
    assert !IsSpace(s[0]);
    assert e[0] == s[0];
  }

  /** `f"{loss_pct:+.2f}"`: a zero entry price leaves numpy's ±inf, or nan for a zero price. */
  function LossText(r: StopLossReport): string
  {
    match r.lossPct
    case Some(x) => SignedFixed(x, 2)
    case None => if r.currentPrice > 0.0 then "+inf" else if r.currentPrice < 0.0 then "-inf" else "+nan"
  }

  /** The trigger reason the stop-loss check writes (risk_manager.py:167, 173, 178). */
  function TriggerText(t: StopTrigger): string
  {
    match t
    case NoTriggerText => ""
    case AtrStopBroken(stop) => "ATR 기반 손절가(" + Grouped(stop) + "원) 이탈"
    case Ma20Broken(ma20) => "20일선(" + Grouped(ma20) + "원) 종가 이탈"
    case StopNotReached => "손절 조건 미해당"
  }

  function StopMark(triggered: bool): char
  {
    if triggered then '🚨' else '✅'
  }

  /** The message body after the opening newline of the triple-quoted f-string, from
      the line after the mark up to the action. */
  function StopLossFields(r: StopLossReport): string
  {
    " *손절 알림: " + r.name + "* (" + r.ticker + ")\n" +
    "📊 매수가: " + Won(r.entryPrice) + "\n" +
    "💰 현재가: " + Won(r.currentPrice) + "\n" +
    "📉 손익률: " + LossText(r) + "%\n" +
    "🛑 손절가: " + Won(r.stopLossPrice) + "\n" +
    "📐 20일선: " + Won(r.ma20Price) + "\n" +
    "\n" +
    "⚠\U{FE0F} *사유:* " + TriggerText(r.triggerReason) + "\n" +
    "🎬 *조치:* "
  }

  /** `format_stop_loss_telegram`. */
  function FormatStopLossTelegram(r: StopLossReport): string
  {
    Strip("\n" + ([StopMark(r.triggered)] + StopLossFields(r)) + r.action + "\n")
  }

  /** The message opens with 🚨 exactly for a triggered report (✅ otherwise); when the
      action ends in a visible character only the outer newlines are dropped. */
  lemma StopLossTelegramRule(r: StopLossReport)
    ensures var m := FormatStopLossTelegram(r);
      |m| > 0 && (m[0] == '🚨' <==> r.triggered) && (m[0] == '✅' <==> !r.triggered)
    ensures |r.action| > 0 && !IsSpace(r.action[|r.action| - 1]) ==>
      FormatStopLossTelegram(r) == [StopMark(r.triggered)] + StopLossFields(r) + r.action
  {
    StripFramed([StopMark(r.triggered)] + StopLossFields(r), r.action);
  }

  /** A text framed by newlines strips to itself, less the trailing blanks of its last part. */
  lemma StripFramed(head: string, tail: string)
    requires |head| > 0 && !IsSpace(head[0])
    ensures var m := Strip("\n" + head + tail + "\n");
      |m| > 0 && m[0] == head[0] &&
      (|tail| > 0 && !IsSpace(tail[|tail| - 1]) ==> m == head + tail)
  {
    var body := head + tail + "\n";
    assert "\n" + head + tail + "\n" == "\n" + body;
    assert Strip("\n" + body) == Strip(body) by {
      StripEndFront("\n" + body, body);
    }
    assert |Strip(body)| > 0 && Strip(body)[0] == head[0] by {
      StripKeepsFirst(body);
    }
    if |tail| > 0 && !IsSpace(tail[|tail| - 1]) {
      var t := head + tail;
      assert Strip(body) == t by {
        assert t[|t| - 1] == tail[|tail| - 1];
        StripEndNewline(t);
        assert StripStart(t) == t;
      }
    }
  }

  /** A trailing newline after a visible character is all that `StripEnd` removes. */
  lemma StripEndNewline(t: string)
    requires |t| > 0 && !IsSpace(t[|t| - 1])
    ensures StripEnd(t + "\n") == t
  {
    assert (t + "\n")[..|t|] == t;
  }

  /** Stripping a text with one leading newline strips the rest. */
  lemma StripEndFront(s: string, body: string)
    requires s == "\n" + body && |body| > 0 && !IsSpace(body[0])
    ensures Strip(s) == Strip(body)
  {
    var e := StripEnd(body);
    assert !IsSpace(body[0]);
    assert |e| > 0 && e[0] == body[0];
    StripEndFrontEnd(s, body);
    assert ("\n" + e)[1..] == e;
  }

  lemma {:induction false} StripEndFrontEnd(s: string, body: string)
    requires s == "\n" + body && |body| > 0 && !IsSpace(body[0])
    ensures StripEnd(s) == "\n" + StripEnd(body)
  {
    if IsSpace(body[|body| - 1]) {
      assert |body| >= 2;
      var body' := body[..|body| - 1];
      assert s[..|s| - 1] == "\n" + body';
      StripEndFrontEnd(s[..|s| - 1], body');
    }
  }
}
