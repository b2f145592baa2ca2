/** `monitoring.py`: the monitoring service's start/stop flag and one tick of its
    loop: the alert check, whale detection over every watched currency, and, on
    the hour, the per-chat analysis reports. The exchange, the block explorers and
    the analysis are oracle inputs; the clock is a parameter. Errors the service
    catches go to `utils.log_error`, which only prints, so they leave no trace in
    the model's state. */
module Monitoring {
  import opened Wrappers
  import opened Json
  import PyStr
  import opened Utils
  import opened Transport
  import opened Database
  import opened Configuration
  import opened Api

  // ---------------------------------------------------------------------------
  // Reading a transaction record

  /** `tx[name]`. */
  function Field(tx: Json, name: string): (r: Result<Json>)
    ensures r.Ok? <==> tx.JObj? && ObjGet(tx.fields, name).Some?
  {
    match tx
    case JObj(fields) => if ObjGet(fields, name).Some? then Ok(ObjGet(fields, name).value) else Raised("KeyError")
    case _ => Raised("TypeError")
  }

  /** `tx.get(name, default)` on a record already known to be a dict. */
  function FieldOr(fields: seq<(string, Json)>, name: string, default: Json): (r: Json)
    ensures ObjGet(fields, name).Some? ==> r == ObjGet(fields, name).value
    ensures ObjGet(fields, name).None? ==> r == default
  {
    if ObjGet(fields, name).Some? then ObjGet(fields, name).value else default
  }

  /** `float(value)`. */
  function ToFloat(j: Json): (r: Result<real>)
    ensures j.JNum? ==> r == Ok(j.n)
  {
    match j
    case JNum(n) => Ok(n)
    case JBool(b) => Ok(if b then 1.0 else 0.0)
    case JStr(s) => if PyStr.ParseFloat(s).Some? then Ok(PyStr.ParseFloat(s).value) else Raised("ValueError")
    case _ => Raised("TypeError")
  }

  /** `int(value)`. */
  function ToInt(j: Json): (r: Result<int>)
  {
    match j
    case JNum(n) => Ok(Truncate(n))
    case JBool(b) => Ok(if b then 1 else 0)
    case JStr(s) => if PyStr.ParseInt(PyStr.Strip(s)).Some? then Ok(PyStr.ParseInt(PyStr.Strip(s)).value) else Raised("ValueError")
    case _ => Raised("TypeError")
  }

  /** A text field of the record, as the store keeps it. */
  function Text(j: Json): Result<string> {
    if j.JStr? then Ok(j.s) else Raised("TypeError")
  }

  /** `float(tx['value']) > self.config['whale_threshold']`: the filter reads
      'value', never 'valueUSD', and is strict. */
  function IsWhale(tx: Json, data: Data): (r: Result<bool>)
    ensures r.Ok? <==> Field(tx, "value").Ok? && ToFloat(Field(tx, "value").value).Ok? && WhaleThreshold(data).Ok?
    ensures r.Ok? ==> (r.value <==> ToFloat(Field(tx, "value").value).value > WhaleThreshold(data).value)
  {
    var value :- Field(tx, "value");
    var amount :- ToFloat(value);
    var threshold :- WhaleThreshold(data);
    Ok(amount > threshold)
  }

  /** The alert `_notify_whale_transaction(tx)` builds: the token symbol, the USD
      amount, the first 10 characters of each address, and the chain ("UNKNOWN"
      when absent). */
  function AlertOf(tx: Json): (r: Result<Body>)
    ensures r.Ok? ==> r.value.WhaleAlert? && |r.value.fromPrefix| <= 10 && |r.value.toPrefix| <= 10
    ensures r.Ok? ==> tx.JObj? && r.value.chain == (if ObjGet(tx.fields, "chain").Some? then ObjGet(tx.fields, "chain").value else JStr("UNKNOWN"))
    // the alert is built exactly when every field it reads is present and usable
    ensures r.Ok? <==>
      && Field(tx, "tokenSymbol").Ok?
      && Field(tx, "valueUSD").Ok? && ToFloat(Field(tx, "valueUSD").value).Ok?
      && Field(tx, "from").Ok? && Field(tx, "from").value.JStr?
      && Field(tx, "to").Ok? && Field(tx, "to").value.JStr?
    ensures r.Ok? ==>
      && r.value.symbol == Field(tx, "tokenSymbol").value
      && r.value.amountUsd == ToFloat(Field(tx, "valueUSD").value).value
      && r.value.fromPrefix == PyStr.Take(Field(tx, "from").value.s, 10)
      && r.value.toPrefix == PyStr.Take(Field(tx, "to").value.s, 10)
  {
    var symbol :- Field(tx, "tokenSymbol");
    var usdValue :- Field(tx, "valueUSD");
    var usd :- ToFloat(usdValue);
    var fromValue :- Field(tx, "from");
    var from :- Text(fromValue);
    var toValue :- Field(tx, "to");
    var to :- Text(toValue);
    var chain := FieldOr(tx.fields, "chain", JStr("UNKNOWN"));
    Ok(WhaleAlert(symbol, usd, PyStr.Take(from, 10), PyStr.Take(to, 10), chain))
  }

  /** The row `save_whale_transaction` receives: direction and chain default to
      "UNKNOWN" and the rating is 0.0. */
  function RowOf(currency: string, tx: Json): (r: Result<WhaleRow>)
    ensures r.Ok? ==> r.value.currency == currency && r.value.whaleRating == 0.0
    ensures r.Ok? ==> tx.JObj? && Field(tx, "hash") == Ok(JStr(r.value.txHash))
    ensures r.Ok? && ObjGet(tx.fields, "direction").None? ==> r.value.direction == "UNKNOWN"
    ensures r.Ok? && ObjGet(tx.fields, "chain").None? ==> r.value.chain == "UNKNOWN"
  {
    var value :- Field(tx, "value");
    var amount :- ToFloat(value);
    var usdValue :- Field(tx, "valueUSD");
    var usd :- ToFloat(usdValue);
    var fromValue :- Field(tx, "from");
    var from :- Text(fromValue);
    var toValue :- Field(tx, "to");
    var to :- Text(toValue);
    var directionValue := FieldOr(tx.fields, "direction", JStr("UNKNOWN"));
    var direction :- Text(directionValue);
    var chainValue := FieldOr(tx.fields, "chain", JStr("UNKNOWN"));
    var chain :- Text(chainValue);
    var hashValue :- Field(tx, "hash");
    var hash :- Text(hashValue);
    var stampValue :- Field(tx, "timeStamp");
    var stamp :- ToInt(stampValue);
    Ok(WhaleRow(currency, amount, usd, from, to, direction, chain, hash, stamp, 0.0))
  }

  // ---------------------------------------------------------------------------
  // Whale detection, as state transformers

  /** A step that may raise: the state reached, and whether it completed. */
  datatype Step<S> = Step(state: S, ok: bool)

  /** What the transaction loop touches: the bot's outbox and the whale table. */
  datatype Watch = Watch(outbox: seq<Message>, whales: seq<WhaleRow>)

  /** One transaction: notify every subscriber (each send isolated), then save.
      A raise at any point abandons the rest of the currency but keeps what was
      already done: a failed save leaves the notification sent. */
  function ProcessTx(currency: string, tx: Json, data: Data, unreachable: set<Json>, w: Watch): Step<Watch> {
    match IsWhale(tx, data)
    case Raised(_) => Step(w, false)
    case Ok(whale) =>
      if !whale then Step(w, true)
      else match AlertOf(tx)
        case Raised(_) => Step(w, false)
        case Ok(alert) =>
          match Subscribers(data)
          case Raised(_) => Step(w, false)
          case Ok(subs) =>
            var notified := w.(outbox := w.outbox + Broadcast(subs, unreachable, alert));
            match RowOf(currency, tx)
            case Raised(_) => Step(notified, false)
            case Ok(row) => Step(notified.(whales := InsertOrIgnore(notified.whales, WhaleKey, row)), true)
  }

  /** A readable transaction is announced exactly when its 'value' exceeds the
      threshold, to every reachable subscriber, and then stored unless its hash is
      stored already. */
  lemma ProcessTxNotifiesIffWhale(currency: string, tx: Json, data: Data, unreachable: set<Json>, w: Watch,
                                  amount: real, threshold: real, alert: Body, subs: seq<Json>, row: WhaleRow)
    requires Field(tx, "value").Ok? && ToFloat(Field(tx, "value").value) == Ok(amount)
    requires WhaleThreshold(data) == Ok(threshold)
    requires AlertOf(tx) == Ok(alert) && Subscribers(data) == Ok(subs) && RowOf(currency, tx) == Ok(row)
    ensures var s := ProcessTx(currency, tx, data, unreachable, w);
      && s.ok
      && s.state.outbox == w.outbox + (if amount > threshold then Broadcast(subs, unreachable, alert) else [])
      && s.state.whales == (if amount > threshold then InsertOrIgnore(w.whales, WhaleKey, row) else w.whales)
  {
  }

  /** Notification never consults the store: the same whale seen on two ticks is
      announced twice to every reachable subscriber, while the table keeps one row. */
  lemma RepeatedWhaleRenotified(currency: string, tx: Json, data: Data, unreachable: set<Json>, w: Watch)
    requires IsWhale(tx, data) == Ok(true)
    requires AlertOf(tx).Ok? && Subscribers(data).Ok? && RowOf(currency, tx).Ok?
    ensures var once := ProcessTx(currency, tx, data, unreachable, w).state;
      var twice := ProcessTx(currency, tx, data, unreachable, once).state;
      var notices := Broadcast(Subscribers(data).value, unreachable, AlertOf(tx).value);
      && twice.outbox == w.outbox + notices + notices
      && twice.whales == once.whales
      && |once.whales| <= |w.whales| + 1
  {
    InsertOrIgnoreIdempotent(w.whales, WhaleKey, RowOf(currency, tx).value);
  }

  /** Saving comes after notifying: when the row cannot be built, the
      announcement stands and the currency is abandoned. */
  lemma FailedSaveKeepsNotification(currency: string, tx: Json, data: Data, unreachable: set<Json>, w: Watch)
    requires IsWhale(tx, data) == Ok(true)
    requires AlertOf(tx).Ok? && Subscribers(data).Ok? && RowOf(currency, tx).Raised?
    ensures ProcessTx(currency, tx, data, unreachable, w)
      == Step(Watch(w.outbox + Broadcast(Subscribers(data).value, unreachable, AlertOf(tx).value), w.whales), false)
  {
  }

  /** The transaction loop of one currency; the first raise ends it. */
  function ProcessTxs(currency: string, txs: seq<Json>, data: Data, unreachable: set<Json>, w: Watch): Step<Watch> {
    if txs == [] then Step(w, true)
    else
      var prev := ProcessTxs(currency, txs[..|txs| - 1], data, unreachable, w);
      if !prev.ok then prev else ProcessTx(currency, txs[|txs| - 1], data, unreachable, prev.state)
  }

  /** Once a prefix of the transactions raises, the whole loop ends where the prefix did. */
  lemma ProcessTxsStopsAt(currency: string, txs: seq<Json>, n: nat, data: Data, unreachable: set<Json>, w: Watch)
    requires n <= |txs| && !ProcessTxs(currency, txs[..n], data, unreachable, w).ok
    ensures ProcessTxs(currency, txs, data, unreachable, w) == ProcessTxs(currency, txs[..n], data, unreachable, w)
  {
    assert txs == txs[..n] + txs[n..];
    ProcessTxsStopsAtRaise(currency, txs[..n], txs[n..], data, unreachable, w);
  }

  /** The loop over one more transaction continues from where the shorter one left off. */
  lemma ProcessTxsStep(currency: string, txs: seq<Json>, i: nat, data: Data, unreachable: set<Json>, w: Watch)
    requires i < |txs| && ProcessTxs(currency, txs[..i], data, unreachable, w).ok
    ensures ProcessTxs(currency, txs[..i + 1], data, unreachable, w)
      == ProcessTx(currency, txs[i], data, unreachable, ProcessTxs(currency, txs[..i], data, unreachable, w).state)
  {
    assert txs[..i + 1][..i] == txs[..i];
  }

  /** Once a transaction raises, the currency's remaining transactions are not looked at. */
  lemma {:induction false} ProcessTxsStopsAtRaise(currency: string, txs: seq<Json>, rest: seq<Json>,
                                                  data: Data, unreachable: set<Json>, w: Watch)
    requires !ProcessTxs(currency, txs, data, unreachable, w).ok
    ensures ProcessTxs(currency, txs + rest, data, unreachable, w) == ProcessTxs(currency, txs, data, unreachable, w)
    decreases |rest|
  {
    if rest != [] {
      var init := rest[..|rest| - 1];
      assert (txs + rest)[..|txs + rest| - 1] == txs + init;
      ProcessTxsStopsAtRaise(currency, txs, init, data, unreachable, w);
      assert !ProcessTxs(currency, txs + init, data, unreachable, w).ok;
    } else {
      assert txs + rest == txs;
    }
  }

  /** Everything one tick touches besides the price cache. */
  datatype World = World(outbox: seq<Message>, whales: seq<WhaleRow>, errors: seq<ErrorRow>,
                         chains: map<string, Entry<Json>>)

  /** The tick's inputs: the configuration, the unreachable chats, the explorer
      API keys, what each explorer answers for (chain, currency), and the clock. */
  datatype Context = Context(data: Data, unreachable: set<Json>, keys: map<string, string>,
                             explorer: (string, string) -> ExplorerReply, now: real)

  /** One currency of `_detect_whale_activity`: look its transactions up, then run
      the transaction loop; whatever that raises stays inside this currency. */
  function WatchCurrencySpec(c: Json, ctx: Context, t: World): (r: World)
    requires ChainCacheSliced(t.chains)
    ensures ChainCacheSliced(r.chains)
    ensures |t.whales| <= |r.whales| && |t.outbox| <= |r.outbox| && |t.errors| <= |r.errors| && r.errors[..|t.errors|] == t.errors
  {
    if !c.JStr? then t
    else
      var f := FetchChains(BlockchainApis, ctx.keys, c.s, ctx.explorer, t.chains, ctx.now);
      var p := ProcessTxsGrows(c.s, f.txs, ctx.data, ctx.unreachable, Watch(t.outbox, t.whales));
      World(p.state.outbox, p.state.whales, t.errors + f.logs, f.cache)
  }

  /** `ProcessTxs`, with the fact that it only ever adds messages and rows. */
  function ProcessTxsGrows(currency: string, txs: seq<Json>, data: Data, unreachable: set<Json>, w: Watch): (r: Step<Watch>)
    ensures r == ProcessTxs(currency, txs, data, unreachable, w)
    ensures |w.whales| <= |r.state.whales| && |w.outbox| <= |r.state.outbox|
  {
    if txs == [] then Step(w, true)
    else
      var prev := ProcessTxsGrows(currency, txs[..|txs| - 1], data, unreachable, w);
      if !prev.ok then prev
      else
        ProcessTxGrows(currency, txs[|txs| - 1], data, unreachable, prev.state);
        ProcessTx(currency, txs[|txs| - 1], data, unreachable, prev.state)
  }

  /** One transaction only ever adds messages and rows. */
  lemma ProcessTxGrows(currency: string, tx: Json, data: Data, unreachable: set<Json>, w: Watch)
    ensures var s := ProcessTx(currency, tx, data, unreachable, w).state;
      |w.whales| <= |s.whales| && |w.outbox| <= |s.outbox|
  {
  }

  /** The currencies of one chat's watch list, in order; each is processed
      whatever happened to the ones before it. */
  function WatchListSpec(cs: seq<Json>, ctx: Context, t: World): (r: World)
    requires ChainCacheSliced(t.chains)
    ensures ChainCacheSliced(r.chains)
  {
    if cs == [] then t
    else WatchCurrencySpec(cs[|cs| - 1], ctx, WatchListSpec(cs[..|cs| - 1], ctx, t))
  }

  /** Failure isolation between currencies: the currencies after a prefix are
      processed from whatever state the prefix left, raise or not. */
  lemma {:induction false} WatchListAppend(cs: seq<Json>, more: seq<Json>, ctx: Context, t: World)
    requires ChainCacheSliced(t.chains)
    ensures WatchListSpec(cs + more, ctx, t) == WatchListSpec(more, ctx, WatchListSpec(cs, ctx, t))
    decreases |more|
  {
    if more == [] {
      assert cs + more == cs;
    } else {
      var init := more[..|more| - 1];
      assert (cs + more)[..|cs + more| - 1] == cs + init;
      WatchListAppend(cs, init, ctx, t);
    }
  }

  /** The watch map's values, in insertion order. A watch-list entry that cannot be
      iterated raises outside the per-currency `try` and ends the detection. */
  function DetectAll(fields: seq<(string, Json)>, ctx: Context, t: World): (r: Step<World>)
    requires ChainCacheSliced(t.chains)
    ensures ChainCacheSliced(r.state.chains)
  {
    if fields == [] then Step(t, true)
    else
      var prev := DetectAll(fields[..|fields| - 1], ctx, t);
      if !prev.ok then prev
      else match Iterate(fields[|fields| - 1].1)
        case Raised(_) => Step(prev.state, false)
        case Ok(cs) => Step(WatchListSpec(cs, ctx, prev.state), true)
  }

  /** Detection over one more chat continues from where the shorter one left off. */
  lemma DetectAllStep(fields: seq<(string, Json)>, i: nat, ctx: Context, t: World)
    requires i < |fields| && ChainCacheSliced(t.chains) && DetectAll(fields[..i], ctx, t).ok
    ensures var prev := DetectAll(fields[..i], ctx, t).state;
      DetectAll(fields[..i + 1], ctx, t)
        == match Iterate(fields[i].1)
           case Raised(_) => Step(prev, false)
           case Ok(cs) => Step(WatchListSpec(cs, ctx, prev), true)
  {
    assert fields[..i + 1][..i] == fields[..i];
  }

  /** `_detect_whale_activity()`; a watch map that is not a dict raises. */
  function Detect(ctx: Context, t: World): (r: Step<World>)
    requires ChainCacheSliced(t.chains)
    ensures ChainCacheSliced(r.state.chains)
  {
    match MonitoredOrEmpty(ctx.data)
    case JObj(fields) => DetectAll(fields, ctx, t)
    case _ => Step(t, false)
  }

  // ---------------------------------------------------------------------------
  // Alert check

  /** The price cache and the error log, as the alert check leaves them. */
  datatype Prices = Prices(cache: map<string, Entry<PriceData>>, errors: seq<ErrorRow>)

  /** `_check_alerts()`: one price lookup per active alert, in order. Conditions
      are never evaluated, so nothing is sent. */
  function CheckAll(alerts: seq<AlertRow>, exchange: string -> ExchangeReply, now: real, p: Prices): Prices {
    if alerts == [] then p
    else
      var prev := CheckAll(alerts[..|alerts| - 1], exchange, now, p);
      var currency := alerts[|alerts| - 1].currency;
      var looked := PriceLookup(currency, exchange(currency), prev.cache, now);
      Prices(looked.cache, prev.errors + looked.logs)
  }

  /** The alert loop over one more alert continues from where the shorter one left off. */
  lemma CheckAllStep(alerts: seq<AlertRow>, i: nat, exchange: string -> ExchangeReply, now: real, p: Prices)
    requires i < |alerts|
    ensures var prev := CheckAll(alerts[..i], exchange, now, p);
      var looked := PriceLookup(alerts[i].currency, exchange(alerts[i].currency), prev.cache, now);
      CheckAll(alerts[..i + 1], exchange, now, p) == Prices(looked.cache, prev.errors + looked.logs)
  {
    assert alerts[..i + 1][..i] == alerts[..i];
  }

  // ---------------------------------------------------------------------------
  // Hourly reports

  /** What `perform_full_analysis(currency)` returns, or that it raised. */
  datatype AnalysisReply = Analysed(chartPath: string, report: string) | AnalysisFailed

  /** The messages one report produces for a chat: a photo captioned with the
      report's first 1000 characters, then the rest as text when there is more.
      An empty path or report sends nothing; a failed photo ends the currency. */
  function ReportMessages(chat: Json, chartPath: string, report: string, unreachable: set<Json>): (r: seq<Message>)
    ensures chartPath == [] || report == [] || chat in unreachable ==> r == []
    ensures r != [] ==> r[0] == Message(chat, ReportPhoto(chartPath, PyStr.Take(report, 1000)))
    ensures |r| == 2 ==> r[1] == Message(chat, ReportText(PyStr.Drop(report, 1000)))
    ensures r != [] ==> (|r| == 2 <==> |report| > 1000)
    ensures |r| <= 2
  {
    if chartPath == [] || report == [] || chat in unreachable then []
    else
      [Message(chat, ReportPhoto(chartPath, PyStr.Take(report, 1000)))]
        + (if |report| > 1000 then [Message(chat, ReportText(PyStr.Drop(report, 1000)))] else [])
  }

  /** Nothing of the report is lost or repeated: caption and remainder put
      together give the report back, and the caption fits Telegram's limit. */
  lemma ReportSplitRoundTrip(chat: Json, chartPath: string, report: string, unreachable: set<Json>)
    requires chartPath != [] && report != [] && chat !in unreachable
    ensures var r := ReportMessages(chat, chartPath, report, unreachable);
      && |r[0].body.caption| <= 1000
      && (if |r| == 2 then r[0].body.caption + r[1].body.text else r[0].body.caption) == report
  {
  }

  /** The messages for one currency of a chat; a failed analysis is caught and sends nothing. */
  function Reported(chat: Json, reply: AnalysisReply, unreachable: set<Json>): seq<Message> {
    match reply
    case AnalysisFailed => []
    case Analysed(path, report) => ReportMessages(chat, path, report, unreachable)
  }

  /** One chat's watch list in `_hourly_analysis`. */
  function ReportList(chat: Json, cs: seq<Json>, analysis: Json -> AnalysisReply, unreachable: set<Json>): seq<Message> {
    if cs == [] then []
    else ReportList(chat, cs[..|cs| - 1], analysis, unreachable) + Reported(chat, analysis(cs[|cs| - 1]), unreachable)
  }

  /** The report loop over one more currency continues from where the shorter one left off. */
  lemma ReportListStep(chat: Json, cs: seq<Json>, i: nat, analysis: Json -> AnalysisReply, unreachable: set<Json>)
    requires i < |cs|
    ensures ReportList(chat, cs[..i + 1], analysis, unreachable)
      == ReportList(chat, cs[..i], analysis, unreachable) + Reported(chat, analysis(cs[i]), unreachable)
  {
    assert cs[..i + 1][..i] == cs[..i];
  }

  /** A watch-map item with its key passed through `int()`: the chat id, or None
      where `int()` raises. */
  type Item = (Option<int>, Json)

  /** `int(chat_id_str)` for every key of the watch map. `int()` has no side
      effect, so parsing the keys ahead changes nothing in what the loop does. */
  function ChatKeys(fields: seq<(string, Json)>): (r: seq<Item>)
    ensures |r| == |fields|
    ensures forall k :: 0 <= k < |r| ==> r[k].1 == fields[k].1
  {
    seq(|fields|, k requires 0 <= k < |fields| => (PyStr.ParseInt(PyStr.Strip(fields[k].0)), fields[k].1))
  }

  /** One item of the watch map in `_hourly_analysis`. The key and the watch list
      are handled outside the `try`, so a key `int()` rejects, or a watch list
      that cannot be iterated, raises out of the whole analysis. */
  function HourlyEntry(item: Item, analysis: Json -> AnalysisReply, unreachable: set<Json>): (r: Step<seq<Message>>)
    ensures !r.ok ==> r.state == []
  {
    match item.0
    case None => Step([], false)
    case Some(chatId) =>
      match Iterate(item.1)
      case Raised(_) => Step([], false)
      case Ok(cs) => Step(ReportList(JNum(chatId as real), cs, analysis, unreachable), true)
  }

  /** The watch map's items in order, up to the first raise. */
  function HourlyAll(items: seq<Item>, analysis: Json -> AnalysisReply, unreachable: set<Json>): Step<seq<Message>> {
    if items == [] then Step([], true)
    else
      var prev := HourlyAll(items[..|items| - 1], analysis, unreachable);
      if !prev.ok then prev
      else
        var e := HourlyEntry(items[|items| - 1], analysis, unreachable);
        Step(prev.state + e.state, e.ok)
  }

  lemma HourlyAllStep(items: seq<Item>, i: nat, analysis: Json -> AnalysisReply, unreachable: set<Json>)
    requires i < |items| && HourlyAll(items[..i], analysis, unreachable).ok
    ensures var e := HourlyEntry(items[i], analysis, unreachable);
      HourlyAll(items[..i + 1], analysis, unreachable)
        == Step(HourlyAll(items[..i], analysis, unreachable).state + e.state, e.ok)
  {
    assert items[..i + 1][..i] == items[..i];
  }

  /** Once an item raises, the remaining items are not looked at. */
  lemma {:induction false} HourlyAllStopsAtRaise(items: seq<Item>, n: int,
                                                 analysis: Json -> AnalysisReply, unreachable: set<Json>)
    requires 0 < n <= |items| && !HourlyAll(items[..n], analysis, unreachable).ok
    ensures HourlyAll(items, analysis, unreachable) == HourlyAll(items[..n], analysis, unreachable)
    decreases |items| - n
  {
    if n < |items| {
      assert items[..|items| - 1][..n] == items[..n];
      HourlyAllStopsAtRaise(items[..|items| - 1], n, analysis, unreachable);
    } else {
      assert items[..n] == items;
    }
  }

  /** `_hourly_analysis()`; a watch map that is not a dict raises. */
  function Hourly(data: Data, analysis: Json -> AnalysisReply, unreachable: set<Json>): Step<seq<Message>> {
    match MonitoredOrEmpty(data)
    case JObj(fields) => HourlyAll(ChatKeys(fields), analysis, unreachable)
    case _ => Step([], false)
  }

  /** A watch list stored by `update_monitored_currency` is reported to the chat it
      was stored for: the key `str(chat_id)` parses back to `chat_id`. */
  lemma HourlyReportsToWatchingChat(chatId: int, cs: seq<Json>, analysis: Json -> AnalysisReply, unreachable: set<Json>)
    ensures HourlyAll(ChatKeys([(PyStr.IntToString(chatId), JArr(cs))]), analysis, unreachable)
      == Step(ReportList(JNum(chatId as real), cs, analysis, unreachable), true)
  {
    ChatKeyOfChatId(chatId, JArr(cs));
    HourlyAllSingle((Some(chatId), JArr(cs)), analysis, unreachable);
  }

  /** The key `str(chat_id)` parses back to the chat id. */
  lemma ChatKeyOfChatId(chatId: int, v: Json)
    ensures ChatKeys([(PyStr.IntToString(chatId), v)]) == [(Some(chatId), v)]
  {
    var key := PyStr.IntToString(chatId);
    PyStr.StrippedIntStringRoundTrip(chatId);
    var r := ChatKeys([(key, v)]);
    assert |r| == 1 && r[0] == (Some(chatId), v);
  }

  /** A watch map of one item is that item's entry. */
  lemma HourlyAllSingle(item: Item, analysis: Json -> AnalysisReply, unreachable: set<Json>)
    ensures HourlyAll([item], analysis, unreachable) == HourlyEntry(item, analysis, unreachable)
  {
    assert [item][..0] == [];
    assert [] + HourlyEntry(item, analysis, unreachable).state == HourlyEntry(item, analysis, unreachable).state;
  }

  /** An analysis that never yields a (chart, report) pair: every call raises or
      returns something that cannot be unpacked into two names. */
  ghost predicate NeverAPair(analysis: Json -> AnalysisReply) {
    forall c :: analysis(c).AnalysisFailed?
  }

  lemma {:induction false} ReportListWithoutPair(chat: Json, cs: seq<Json>, analysis: Json -> AnalysisReply, unreachable: set<Json>)
    requires NeverAPair(analysis)
    ensures ReportList(chat, cs, analysis, unreachable) == []
    decreases |cs|
  {
    if cs != [] {
      ReportListWithoutPair(chat, cs[..|cs| - 1], analysis, unreachable);
      assert analysis(cs[|cs| - 1]).AnalysisFailed?;
    }
  }

  lemma {:induction false} HourlyAllWithoutPair(items: seq<Item>, analysis: Json -> AnalysisReply, unreachable: set<Json>)
    requires NeverAPair(analysis)
    ensures HourlyAll(items, analysis, unreachable).state == []
    decreases |items|
  {
    if items != [] {
      HourlyAllWithoutPair(items[..|items| - 1], analysis, unreachable);
      var item := items[|items| - 1];
      if item.0.Some? && Iterate(item.1).Ok? {
        ReportListWithoutPair(JNum(item.0.value as real), Iterate(item.1).value, analysis, unreachable);
      }
    }
  }

  /** With an analysis that never yields a pair, the hourly analysis sends nothing
      at all, whatever the watch map holds. */
  lemma HourlyWithoutPairSendsNothing(data: Data, analysis: Json -> AnalysisReply, unreachable: set<Json>)
    requires NeverAPair(analysis)
    ensures Hourly(data, analysis, unreachable).state == []
  {
    if MonitoredOrEmpty(data).JObj? {
      HourlyAllWithoutPair(ChatKeys(MonitoredOrEmpty(data).fields), analysis, unreachable);
    }
  }

  // ---------------------------------------------------------------------------
  // The service

  class MonitoringService {
    var running: bool
    /** The worker thread last started, by its start number. */
    var thread: Option<nat>
    var starts: nat
    const bot: Bot
    const config: Config
    const db: Database
    const api: Api

    constructor (bot: Bot, config: Config, db: Database, api: Api)
      ensures !running && thread == None && starts == 0
      ensures this.bot == bot && this.config == config && this.db == db && this.api == api
    {
      running, thread, starts := false, None, 0;
      this.bot, this.config, this.db, this.api := bot, config, db, api;
    }

    ghost predicate Ready()
      reads db, api.chainCache
    {
      db.Valid() && api.Valid()
    }

    /** The state whale detection works on, as the objects hold it. */
    ghost function Current(): World
      reads bot, db, api.chainCache
    {
      World(bot.outbox, db.whales, db.errors, api.chainCache.cache)
    }

    ghost function Ctx(explorer: (string, string) -> ExplorerReply, now: real): Context
      reads config
    {
      Context(config.data, bot.unreachable, api.keys, explorer, now)
    }

    /** `start()`: a no-op while running; otherwise sets the flag and records a new worker. */
    method Start()
      modifies this`running, this`thread, this`starts
      ensures old(running) ==> running && thread == old(thread) && starts == old(starts)
      ensures !old(running) ==> running && thread == Some(old(starts)) && starts == old(starts) + 1
    {
      if running {
        return;
      }
      running := true;
      thread := Some(starts);
      starts := starts + 1;
    }

    /** `stop()`: clears the flag and joins the recorded worker, if any. */
    method Stop() returns (joined: Option<nat>)
      modifies this`running
      ensures !running && joined == thread
    {
      running := false;
      joined := thread;
    }

    /** `_check_alerts()`; `exchange(symbol)` is what the exchange answers. */
    method CheckAlerts(exchange: string -> ExchangeReply, now: real)
      requires api.Valid()
      modifies api.priceCache`cache, db`errors
      ensures api.Valid()
      ensures Prices(api.priceCache.cache, db.errors)
        == CheckAll(db.GetActiveAlerts(), exchange, now, Prices(old(api.priceCache.cache), old(db.errors)))
    {
      var alerts := db.GetActiveAlerts();
      var i := 0;
      while i < |alerts|
        invariant 0 <= i <= |alerts|
        invariant api.Valid()
        invariant Prices(api.priceCache.cache, db.errors)
          == CheckAll(alerts[..i], exchange, now, Prices(old(api.priceCache.cache), old(db.errors)))
      {
        CheckNext(alerts, i, exchange, now, Prices(old(api.priceCache.cache), old(db.errors)));
        i := i + 1;
      }
      assert alerts[..i] == alerts;
    }

    /** One turn of that loop: the price of the alert at `i`. */
    method CheckNext(alerts: seq<AlertRow>, i: nat, exchange: string -> ExchangeReply, now: real, ghost p0: Prices)
      requires i < |alerts| && api.Valid()
      requires Prices(api.priceCache.cache, db.errors) == CheckAll(alerts[..i], exchange, now, p0)
      modifies api.priceCache`cache, db`errors
      ensures api.Valid()
      ensures Prices(api.priceCache.cache, db.errors) == CheckAll(alerts[..i + 1], exchange, now, p0)
    {
      CheckAllStep(alerts, i, exchange, now, p0);
      var currency := alerts[i].currency;
      var priceData := api.GetCryptoPrice(currency, exchange(currency), db, now);
    }

    /** `_notify_whale_transaction(tx)`: build the alert, then one isolated send
        per subscriber. `ok` is false where building it or reading the subscribers raises. */
    method NotifyWhaleTransaction(tx: Json) returns (ok: bool)
      modifies bot`outbox
      ensures ok <==> AlertOf(tx).Ok? && Subscribers(config.data).Ok?
      ensures ok ==> bot.outbox == old(bot.outbox) + Broadcast(Subscribers(config.data).value, bot.unreachable, AlertOf(tx).value)
      ensures !ok ==> bot.outbox == old(bot.outbox)
    {
      var alert := AlertOf(tx);
      if alert.Raised? {
        return false;
      }
      var subscribers := Subscribers(config.data);
      if subscribers.Raised? {
        return false;
      }
      bot.SendToAll(subscribers.value, alert.value);
      ok := true;
    }

    /** One pass of the transaction loop body. */
    method ProcessTransaction(currency: string, tx: Json) returns (ok: bool)
      requires db.Valid()
      modifies bot`outbox, db`whales
      ensures db.Valid()
      ensures Step(Watch(bot.outbox, db.whales), ok)
        == ProcessTx(currency, tx, config.data, bot.unreachable, Watch(old(bot.outbox), old(db.whales)))
    {
      var whale := IsWhale(tx, config.data);
      if whale.Raised? {
        return false;
      }
      if !whale.value {
        return true;
      }
      ok := NotifyWhaleTransaction(tx);
      if !ok {
        return;
      }
      var row := RowOf(currency, tx);
      if row.Raised? {
        return false;
      }
      db.SaveWhaleTransaction(row.value);
    }

    /** The transaction loop of one currency; the first raise ends it. */
    method ProcessTransactions(currency: string, txs: seq<Json>) returns (ok: bool)
      requires db.Valid()
      modifies bot`outbox, db`whales
      ensures db.Valid()
      ensures Step(Watch(bot.outbox, db.whales), ok)
        == ProcessTxs(currency, txs, config.data, bot.unreachable, Watch(old(bot.outbox), old(db.whales)))
    {
      ok := true;
      var i := 0;
      while i < |txs|
        invariant 0 <= i <= |txs|
        invariant db.Valid()
        invariant Step(Watch(bot.outbox, db.whales), ok)
          == ProcessTxs(currency, txs[..i], config.data, bot.unreachable, Watch(old(bot.outbox), old(db.whales)))
        invariant !ok ==>
          ProcessTxs(currency, txs, config.data, bot.unreachable, Watch(old(bot.outbox), old(db.whales)))
          == ProcessTxs(currency, txs[..i], config.data, bot.unreachable, Watch(old(bot.outbox), old(db.whales)))
      {
        if !ok {
          break;
        }
        ok := ProcessNext(currency, txs, i, Watch(old(bot.outbox), old(db.whales)));
        i := i + 1;
      }
      if i == |txs| {
        assert txs[..i] == txs;
      }
    }

    /** One turn of that loop: the transaction at `i`, from the state the earlier
        ones left. */
    method ProcessNext(currency: string, txs: seq<Json>, i: nat, ghost w0: Watch) returns (ok: bool)
      requires i < |txs| && db.Valid()
      requires ProcessTxs(currency, txs[..i], config.data, bot.unreachable, w0) == Step(Watch(bot.outbox, db.whales), true)
      modifies bot`outbox, db`whales
      ensures db.Valid()
      ensures Step(Watch(bot.outbox, db.whales), ok) == ProcessTxs(currency, txs[..i + 1], config.data, bot.unreachable, w0)
      ensures !ok ==>
                ProcessTxs(currency, txs, config.data, bot.unreachable, w0)
                == ProcessTxs(currency, txs[..i + 1], config.data, bot.unreachable, w0)
    {
      ProcessTxsStep(currency, txs, i, config.data, bot.unreachable, w0);
      ok := ProcessTransaction(currency, txs[i]);
      if !ok {
        ProcessTxsStopsAt(currency, txs, i + 1, config.data, bot.unreachable, w0);
      }
    }

    /** One currency of `_detect_whale_activity`. */
    method WatchCurrency(c: Json, explorer: (string, string) -> ExplorerReply, now: real)
      requires Ready()
      modifies bot`outbox, db`whales, db`errors, api.chainCache`cache
      ensures Ready()
      ensures Current() == WatchCurrencySpec(c, Ctx(explorer, now), old(Current()))
    {
      if !c.JStr? {
        return;
      }
      var txs := api.GetWhaleTransactions(c.s, explorer, db, now);
      var ok := ProcessTransactions(c.s, txs);
    }

    /** The currencies of one watch list. */
    method WatchList(cs: seq<Json>, explorer: (string, string) -> ExplorerReply, now: real)
      requires Ready()
      modifies bot`outbox, db`whales, db`errors, api.chainCache`cache
      ensures Ready()
      ensures Current() == WatchListSpec(cs, Ctx(explorer, now), old(Current()))
    {
      var i := 0;
      while i < |cs|
        invariant 0 <= i <= |cs|
        invariant Ready()
        invariant Current() == WatchListSpec(cs[..i], Ctx(explorer, now), old(Current()))
      {
        assert cs[..i + 1][..i] == cs[..i];
        WatchCurrency(cs[i], explorer, now);
        i := i + 1;
      }
      assert cs[..i] == cs;
    }

    /** `_detect_whale_activity()`; `ok` is false where it raises. */
    method DetectWhaleActivity(explorer: (string, string) -> ExplorerReply, now: real) returns (ok: bool)
      requires Ready()
      modifies bot`outbox, db`whales, db`errors, api.chainCache`cache
      ensures Ready()
      ensures Step(Current(), ok) == Detect(Ctx(explorer, now), old(Current()))
    {
      var monitored := MonitoredOrEmpty(config.data);
      if !monitored.JObj? {
        return false;
      }
      var fields := monitored.fields;
      ok := true;
      var i := 0;
      while i < |fields|
        invariant 0 <= i <= |fields|
        invariant Ready()
        invariant ok
        invariant Step(Current(), true) == DetectAll(fields[..i], Ctx(explorer, now), old(Current()))
      {
        ok := DetectNext(fields, i, explorer, now, old(Current()));
        if !ok {
          return;
        }
        i := i + 1;
      }
      assert fields[..i] == fields;
    }

    /** One turn of that loop: the chat at `i`; `ok` is false where its watch list
        cannot be iterated, which ends detection. */
    method DetectNext(fields: seq<(string, Json)>, i: nat, explorer: (string, string) -> ExplorerReply, now: real,
                      ghost t0: World)
      returns (ok: bool)
      requires i < |fields| && Ready() && ChainCacheSliced(t0.chains)
      requires Step(Current(), true) == DetectAll(fields[..i], Ctx(explorer, now), t0)
      modifies bot`outbox, db`whales, db`errors, api.chainCache`cache
      ensures Ready()
      ensures ok ==> Step(Current(), true) == DetectAll(fields[..i + 1], Ctx(explorer, now), t0)
      ensures !ok ==> Step(Current(), false) == DetectAll(fields, Ctx(explorer, now), t0)
    {
      DetectAllStep(fields, i, Ctx(explorer, now), t0);
      var currencies := Iterate(fields[i].1);
      if currencies.Raised? {
        DetectAllStopsAtRaise(fields, i + 1, Ctx(explorer, now), t0);
        return false;
      }
      WatchList(currencies.value, explorer, now);
      ok := true;
    }

    /** `_hourly_analysis()`; `analysis(currency)` is what `perform_full_analysis`
        yields. `ok` is false where it raises. */
    method HourlyAnalysis(analysis: Json -> AnalysisReply) returns (ok: bool)
      modifies bot`outbox
      ensures var h := Hourly(config.data, analysis, bot.unreachable);
        ok == h.ok && bot.outbox == old(bot.outbox) + h.state
    {
      var monitored := MonitoredOrEmpty(config.data);
      if !monitored.JObj? {
        return false;
      }
      ok := ReportAll(ChatKeys(monitored.fields), analysis);
    }

    /** The outer loop of `_hourly_analysis`, over the watch map's items. */
    method ReportAll(items: seq<Item>, analysis: Json -> AnalysisReply) returns (ok: bool)
      modifies bot`outbox
      ensures var h := HourlyAll(items, analysis, bot.unreachable);
        ok == h.ok && bot.outbox == old(bot.outbox) + h.state
    {
      var i := 0;
      while i < |items|
        invariant 0 <= i <= |items|
        invariant HourlyAll(items[..i], analysis, bot.unreachable).ok
        invariant bot.outbox == old(bot.outbox) + HourlyAll(items[..i], analysis, bot.unreachable).state
      {
        ok := ReportNext(items, i, analysis, old(bot.outbox));
        if !ok {
          return;
        }
        i := i + 1;
      }
      assert items[..i] == items;
      ok := true;
    }

    /** One turn of that loop: the item at `i`; `ok` is false where it raises,
        which ends the analysis. */
    method ReportNext(items: seq<Item>, i: nat, analysis: Json -> AnalysisReply, ghost out0: seq<Message>)
      returns (ok: bool)
      requires i < |items| && HourlyAll(items[..i], analysis, bot.unreachable).ok
      requires bot.outbox == out0 + HourlyAll(items[..i], analysis, bot.unreachable).state
      modifies bot`outbox
      ensures var h := HourlyAll(items[..i + 1], analysis, bot.unreachable);
        ok == h.ok && bot.outbox == out0 + h.state
      ensures !ok ==> HourlyAll(items, analysis, bot.unreachable) == HourlyAll(items[..i + 1], analysis, bot.unreachable)
    {
      HourlyAllStep(items, i, analysis, bot.unreachable);
      ghost var sent := HourlyAll(items[..i], analysis, bot.unreachable).state;
      ok := ReportEntry(items[i], analysis);
      AppendAssoc(out0, sent, HourlyEntry(items[i], analysis, bot.unreachable).state);
      if !ok {
        HourlyAllStopsAtRaise(items, i + 1, analysis, bot.unreachable);
      }
    }

    /** One item of the watch map in `_hourly_analysis`. */
    method ReportEntry(item: Item, analysis: Json -> AnalysisReply) returns (ok: bool)
      modifies bot`outbox
      ensures var e := HourlyEntry(item, analysis, bot.unreachable);
        ok == e.ok && bot.outbox == old(bot.outbox) + e.state
    {
      if item.0.None? {
        return false;
      }
      var currencies := Iterate(item.1);
      if currencies.Raised? {
        return false;
      }
      ReportChat(JNum(item.0.value as real), currencies.value, analysis);
      ok := true;
    }

    /** The inner loop of `_hourly_analysis` for one chat. */
    method ReportChat(chat: Json, cs: seq<Json>, analysis: Json -> AnalysisReply)
      modifies bot`outbox
      ensures bot.outbox == old(bot.outbox) + ReportList(chat, cs, analysis, bot.unreachable)
    {
      var i := 0;
      while i < |cs|
        invariant 0 <= i <= |cs|
        invariant bot.outbox == old(bot.outbox) + ReportList(chat, cs[..i], analysis, bot.unreachable)
      {
        ReportCurrencyAt(chat, cs, i, analysis, old(bot.outbox));
        i := i + 1;
      }
      assert cs[..i] == cs;
    }

    /** One turn of that loop: the currency at `i`, after the earlier ones. */
    method ReportCurrencyAt(chat: Json, cs: seq<Json>, i: nat, analysis: Json -> AnalysisReply, ghost out0: seq<Message>)
      requires i < |cs| && bot.outbox == out0 + ReportList(chat, cs[..i], analysis, bot.unreachable)
      modifies bot`outbox
      ensures bot.outbox == out0 + ReportList(chat, cs[..i + 1], analysis, bot.unreachable)
    {
      ReportListStep(chat, cs, i, analysis, bot.unreachable);
      ReportCurrency(chat, analysis(cs[i]));
      AppendAssoc(out0, ReportList(chat, cs[..i], analysis, bot.unreachable),
                  Reported(chat, analysis(cs[i]), bot.unreachable));
    }

    /** One currency of a chat: nothing when its analysis raised, otherwise its report. */
    method ReportCurrency(chat: Json, reply: AnalysisReply)
      modifies bot`outbox
      ensures bot.outbox == old(bot.outbox) + Reported(chat, reply, bot.unreachable)
    {
      match reply {
        case AnalysisFailed =>
        case Analysed(path, report) => SendReport(chat, path, report);
      }
    }

    /** The sends for one analysed currency: the chart with the report's first
        1000 characters as caption, then the rest of the report if there is any. */
    method SendReport(chat: Json, chartPath: string, report: string)
      modifies bot`outbox
      ensures bot.outbox == old(bot.outbox) + ReportMessages(chat, chartPath, report, bot.unreachable)
    {
      if chartPath != [] && report != [] {
        var delivered := bot.SendMessage(chat, ReportPhoto(chartPath, PyStr.Take(report, 1000)));
        if delivered && |report| > 1000 {
          delivered := bot.SendMessage(chat, ReportText(PyStr.Drop(report, 1000)));
        }
      }
    }

    /** One iteration of `_monitor`: the alert check, whale detection, and on the
        hour (`minute == 0`) the analysis. `ok` is false where the iteration raised
        (the loop then backs off longer). */
    method Tick(minute: int, exchange: string -> ExchangeReply, explorer: (string, string) -> ExplorerReply,
                analysis: Json -> AnalysisReply, now: real) returns (ok: bool)
      requires Ready()
      modifies bot`outbox, db`whales, db`errors, api.chainCache`cache, api.priceCache`cache
      ensures Ready()
      ensures var alerts := CheckAll(old(db.GetActiveAlerts()), exchange, now,
                                     Prices(old(api.priceCache.cache), old(db.errors)));
        var detect := Detect(Ctx(explorer, now), World(old(bot.outbox), old(db.whales), alerts.errors, old(api.chainCache.cache)));
        && api.priceCache.cache == alerts.cache
        && db.whales == detect.state.whales && db.errors == detect.state.errors
        && api.chainCache.cache == detect.state.chains
        && (!detect.ok || minute != 0 ==> bot.outbox == detect.state.outbox && ok == detect.ok)
        && (detect.ok && minute == 0 ==>
              var h := Hourly(config.data, analysis, bot.unreachable);
              bot.outbox == detect.state.outbox + h.state && ok == h.ok)
    {
      CheckAlerts(exchange, now);
      ok := DetectWhaleActivity(explorer, now);
      if !ok {
        return;
      }
      if minute == 0 {
        ok := HourlyAnalysis(analysis);
      }
    }
  }

  /** Once a watch-list entry raises, the remaining entries are not looked at. */
  lemma {:induction false} DetectAllStopsAtRaise(fields: seq<(string, Json)>, n: int, ctx: Context, t: World)
    requires ChainCacheSliced(t.chains)
    requires 0 < n <= |fields| && !DetectAll(fields[..n], ctx, t).ok
    ensures DetectAll(fields, ctx, t) == DetectAll(fields[..n], ctx, t)
    decreases |fields| - n
  {
    if n < |fields| {
      assert fields[..|fields| - 1][..n] == fields[..n];
      DetectAllStopsAtRaise(fields[..|fields| - 1], n, ctx, t);
    } else {
      assert fields[..n] == fields;
    }
  }
}
