/** `config.py`: the bot's settings, a JSON document held in memory and written
    back to `config.json` after every change. One explicitly constructed `Config`
    object stands for the process-wide singleton; `persisted` is the document the
    file holds (None when it holds nothing decodable). */
module Configuration {
  import opened Wrappers
  import opened Json
  import PyStr

  type Data = map<string, Json>

  /** What `_load_config` finds on disk. */
  datatype ConfigFile = Missing | Undecodable | Decoded(doc: Data)

  const MonitoredKey := "monitored_currencies"
  const LstmKey := "lstm_models"
  const AutoImprovementKey := "auto_improvement"
  const SubscribersKey := "subscribers"
  const WhaleThresholdKey := "whale_threshold"

  /** `default_config`, in its declaration order. */
  const Defaults: seq<(string, Json)> := [
    ("favorite_pairs", JArr([JStr("BTC/USDT"), JStr("ETH/USDT"), JStr("SOL/USDT")])),
    (SubscribersKey, JArr([])),
    ("interval", JStr("4h")),
    (WhaleThresholdKey, JNum(500000.0)),
    (MonitoredKey, JObj([])),
    ("alert_settings", JObj([])),
    ("telegram_channels", JArr([JStr("cryptosignals"), JStr("whalepool"), JStr("altcoinbuzz")])),
    ("whale_rating", JObj([])),
    (LstmKey, JObj([])),
    (AutoImprovementKey, JBool(true))
  ]

  /** The dict a list of pairs builds; a later pair wins. */
  function ToMap(pairs: seq<(string, Json)>): (m: Data)
    ensures forall k :: k in m <==> k in Keys(pairs)
  {
    if pairs == [] then map[]
    else
      var init := pairs[..|pairs| - 1];
      assert Keys(pairs) == Keys(init) + [pairs[|pairs| - 1].0];
      ToMap(init)[pairs[|pairs| - 1].0 := pairs[|pairs| - 1].1]
  }

  function DefaultData(): Data {
    ToMap(Defaults)
  }

  /** The back-fill loop of `_load_config`: each default key the document lacks is added. */
  function BackFill(d: Data, defaults: seq<(string, Json)>): Data {
    if defaults == [] then d
    else
      var filled := BackFill(d, defaults[..|defaults| - 1]);
      var (k, v) := defaults[|defaults| - 1];
      if k in filled then filled else filled[k := v]
  }

  /** After back-filling, every default key is present, loaded keys keep their
      loaded values, and a key only the defaults have gets its default value. */
  lemma {:induction false} BackFillProperties(d: Data, defaults: seq<(string, Json)>)
    requires DistinctKeys(defaults)
    ensures forall k :: k in BackFill(d, defaults) <==> k in d || k in Keys(defaults)
    ensures forall k :: k in d ==> BackFill(d, defaults)[k] == d[k]
    ensures forall k :: k in ToMap(defaults) && k !in d ==> BackFill(d, defaults)[k] == ToMap(defaults)[k]
  {
    if defaults != [] {
      var init := defaults[..|defaults| - 1];
      var (k, v) := defaults[|defaults| - 1];
      assert DistinctKeys(init);
      BackFillProperties(d, init);
      assert Keys(defaults) == Keys(init) + [k];
      assert k !in Keys(init) by {
        forall i | 0 <= i < |init| ensures Keys(init)[i] != k {
          assert defaults[i].0 != defaults[|defaults| - 1].0;
        }
      }
    }
  }

  /** With no document, or one that is exactly the defaults, back-filling yields the defaults. */
  lemma BackFillDefaults()
    ensures BackFill(DefaultData(), Defaults) == DefaultData()
  {
    assert DistinctKeys(Defaults);
    BackFillProperties(DefaultData(), Defaults);
  }

  // ---------------------------------------------------------------------------
  // Reads

  /** `config[key]`. */
  function Item(d: Data, key: string): Result<Json> {
    if key in d then Ok(d[key]) else Raised("KeyError")
  }

  /** `config['subscribers']`, iterated. */
  function Subscribers(d: Data): (r: Result<seq<Json>>)
    ensures SubscribersKey in d && d[SubscribersKey].JArr? ==> r == Ok(d[SubscribersKey].items)
  {
    if SubscribersKey in d then Iterate(d[SubscribersKey]) else Raised("KeyError")
  }

  /** `config['whale_threshold']` as the right operand of a float comparison. */
  function WhaleThreshold(d: Data): Result<real> {
    if WhaleThresholdKey !in d then Raised("KeyError")
    else if AsNumber(d[WhaleThresholdKey]).None? then Raised("TypeError")
    else Ok(AsNumber(d[WhaleThresholdKey]).value)
  }

  /** `if config['auto_improvement']:`. */
  function AutoImprovement(d: Data): Result<bool> {
    if AutoImprovementKey in d then Ok(Truthy(d[AutoImprovementKey])) else Raised("KeyError")
  }

  /** `config.get('monitored_currencies', {})`. */
  function MonitoredOrEmpty(d: Data): Json {
    if MonitoredKey in d then d[MonitoredKey] else JObj([])
  }

  /** `get_lstm_model_path(symbol)`: `data['lstm_models'].get(symbol)`. */
  function LstmPath(d: Data, symbol: string): Result<Option<Json>> {
    if LstmKey !in d then Raised("KeyError")
    else if d[LstmKey].JObj? then Ok(ObjGet(d[LstmKey].fields, symbol))
    else Raised("AttributeError")
  }

  // ---------------------------------------------------------------------------
  // Updates

  /** `currency in entry` for whatever JSON value sits in the watch map. */
  function Contains(entry: Json, currency: string): Result<bool> {
    match entry
    case JArr(items) => Ok(JStr(currency) in items)
    case JStr(s) => Ok(PyStr.Find(s, currency, 0) != -1)
    case JObj(fields) => Ok(currency in Keys(fields))
    case _ => Raised("TypeError")
  }

  /** A chat's watch list after adding (only when absent) or removing (the first
      occurrence, only when present) a currency. */
  function WatchListAfter(list: seq<Json>, currency: string, add: bool): (r: seq<Json>)
    ensures add ==> JStr(currency) in r
    ensures add ==> r == list || r == list + [JStr(currency)]
    ensures !add && JStr(currency) in list ==> multiset(r) == multiset(list) - multiset{JStr(currency)}
    ensures !add && JStr(currency) !in list ==> r == list
  {
    if add then
      if JStr(currency) in list then list else list + [JStr(currency)]
    else
      if JStr(currency) in list then RemoveFirst(list, JStr(currency)) else list
  }

  /** Adding keeps a duplicate-free list duplicate-free; removing from one leaves
      the currency absent. */
  lemma WatchListStaysDuplicateFree(list: seq<Json>, currency: string, add: bool)
    requires NoDuplicates(list)
    ensures NoDuplicates(WatchListAfter(list, currency, add))
    ensures !add ==> JStr(currency) !in WatchListAfter(list, currency, add)
  {
    var x := JStr(currency);
    if !add && x in list {
      var i := IndexOf(list, x);
      var r := list[..i] + list[i + 1..];
      assert WatchListAfter(list, currency, add) == r;
      forall a, b | 0 <= a < b < |r| ensures r[a] != r[b] {
        var a' := if a < i then a else a + 1;
        var b' := if b < i then b else b + 1;
        assert r[a] == list[a'] && r[b] == list[b'];
      }
      assert x !in r by {
        forall a | 0 <= a < |r| ensures r[a] != x {
          var a' := if a < i then a else a + 1;
          assert r[a] == list[a'];
          if a < i { assert list[a'] in list[..i]; } else { assert list[i] == x; }
        }
      }
    }
  }

  /** `update_monitored_currency(chat_id, currency, add)` on the document. */
  function UpdateMonitored(d: Data, chatId: int, currency: string, add: bool): Result<Data> {
    if MonitoredKey !in d then Raised("KeyError")
    else if !d[MonitoredKey].JObj? then Raised("TypeError")
    else
      var fields := d[MonitoredKey].fields;
      var key := PyStr.IntToString(chatId);
      var entry := ObjGet(fields, key);
      if entry.None? then
        Ok(d[MonitoredKey := JObj(ObjSet(fields, key, JArr(WatchListAfter([], currency, add))))])
      else
        var present := Contains(entry.value, currency);
        if present.Raised? then Raised(present.exc)
        else if present.value == add then Ok(d)
        else if entry.value.JArr? then
          Ok(d[MonitoredKey := JObj(ObjSet(fields, key, JArr(WatchListAfter(entry.value.items, currency, add))))])
        else Raised("AttributeError")
  }

  /** What a successful update does: the chat (keyed by `str(chat_id)`) has a list
      afterwards, even when removing from an unseen chat; the list is the old one
      (or the empty list) updated; other chats and other settings are untouched. */
  lemma UpdateMonitoredEffect(d: Data, chatId: int, currency: string, add: bool)
    requires UpdateMonitored(d, chatId, currency, add).Ok?
    ensures var d' := UpdateMonitored(d, chatId, currency, add).value;
      && d'.Keys == d.Keys
      && (forall k :: k in d && k != MonitoredKey ==> d'[k] == d[k])
      && d[MonitoredKey].JObj? && d'[MonitoredKey].JObj?
      && var key := PyStr.IntToString(chatId);
         var before := ObjGet(d[MonitoredKey].fields, key);
         var after := ObjGet(d'[MonitoredKey].fields, key);
      && (forall k :: k != key ==> ObjGet(d'[MonitoredKey].fields, k) == ObjGet(d[MonitoredKey].fields, k))
      && (before.None? ==> after == Some(JArr(WatchListAfter([], currency, add))))
      && (before.Some? && before.value.JArr? ==> after == Some(JArr(WatchListAfter(before.value.items, currency, add))))
  {
    var fields := d[MonitoredKey].fields;
    var key := PyStr.IntToString(chatId);
    var entry := ObjGet(fields, key);
    if entry.Some? && entry.value.JArr? && Contains(entry.value, currency).value == add {
      assert WatchListAfter(entry.value.items, currency, add) == entry.value.items;
    }
  }

  /** The update fails only when the watch map is missing or not a dict, or the
      chat's entry is not a list. */
  lemma UpdateMonitoredSucceeds(d: Data, chatId: int, currency: string, add: bool)
    requires MonitoredKey in d && d[MonitoredKey].JObj?
    requires var e := ObjGet(d[MonitoredKey].fields, PyStr.IntToString(chatId)); e.None? || e.value.JArr?
    ensures UpdateMonitored(d, chatId, currency, add).Ok?
  {
  }

  /** `set_lstm_model_path(symbol, path)` on the document. */
  function WithLstmPath(d: Data, symbol: string, path: string): Result<Data> {
    if LstmKey !in d then Raised("KeyError")
    else if d[LstmKey].JObj? then Ok(d[LstmKey := JObj(ObjSet(d[LstmKey].fields, symbol, JStr(path)))])
    else Raised("TypeError")
  }

  /** A stored model path is read back, and no other symbol's path changes. */
  lemma LstmPathRoundTrip(d: Data, symbol: string, path: string, other: string)
    requires WithLstmPath(d, symbol, path).Ok?
    ensures LstmPath(WithLstmPath(d, symbol, path).value, symbol) == Ok(Some(JStr(path)))
    ensures other != symbol ==> LstmPath(WithLstmPath(d, symbol, path).value, other) == LstmPath(d, other)
  {
  }

  class Config {
    var data: Data
    ghost var persisted: Option<Data>

    /** `_load_config`. */
    constructor Load(file: ConfigFile)
      ensures file.Undecodable? ==> data == DefaultData() && persisted == None
      ensures file.Missing? ==> data == DefaultData() && persisted == Some(data)
      ensures file.Decoded? ==> data == BackFill(file.doc, Defaults) && persisted == Some(data)
    {
      data := map[];
      persisted := if file.Decoded? then Some(file.doc) else None;
      new;
      if file.Undecodable? {
        data := DefaultData();
      } else {
        if file.Decoded? {
          data := file.doc;
        } else {
          data := DefaultData();
          Save();
        }
        ghost var loaded := data;
        var i := 0;
        while i < |Defaults|
          invariant 0 <= i <= |Defaults|
          invariant data == BackFill(loaded, Defaults[..i])
          invariant persisted == Some(data)
        {
          assert Defaults[..i + 1][..i] == Defaults[..i];
          var (k, v) := Defaults[i];
          if k !in data {
            data := data[k := v];
            Save();
          }
          i := i + 1;
        }
        assert Defaults[..i] == Defaults;
        if file.Missing? {
          BackFillDefaults();
        }
      }
    }

    /** `save`: the file now holds the in-memory document. */
    method Save()
      modifies this`persisted
      ensures persisted == Some(data)
    {
      persisted := Some(data);
    }

    /** `config[key]`. */
    function GetItem(key: string): (r: Result<Json>)
      reads this
      ensures r.Ok? <==> key in data
      ensures r.Ok? ==> r.value == data[key]
    {
      Item(data, key)
    }

    /** `config.get(key, default)`. */
    function Get(key: string, default: Json): (r: Json)
      reads this
      ensures key in data ==> r == data[key]
      ensures key !in data ==> r == default
    {
      if key in data then data[key] else default
    }

    /** `config[key] = value`. */
    method SetItem(key: string, value: Json)
      modifies this
      ensures data == old(data)[key := value]
      ensures persisted == Some(data)
    {
      data := data[key := value];
      Save();
    }

    /** `update_monitored_currency`; on an exception nothing changes and nothing is saved. */
    method UpdateMonitoredCurrency(chatId: int, currency: string, add: bool) returns (r: Result<()>)
      modifies this
      ensures var u := UpdateMonitored(old(data), chatId, currency, add);
        && (u.Ok? ==> r == Ok(()) && data == u.value && persisted == Some(data))
        && (u.Raised? ==> r == Raised(u.exc) && data == old(data) && persisted == old(persisted))
    {
      var u := UpdateMonitored(data, chatId, currency, add);
      if u.Raised? {
        return Raised(u.exc);
      }
      data := u.value;
      Save();
      return Ok(());
    }

    /** `get_lstm_model_path(symbol)`. */
    function GetLstmModelPath(symbol: string): Result<Option<Json>>
      reads this
    {
      LstmPath(data, symbol)
    }

    /** `set_lstm_model_path(symbol, path)`. */
    method SetLstmModelPath(symbol: string, path: string) returns (r: Result<()>)
      modifies this
      ensures r.Ok? ==> GetLstmModelPath(symbol) == Ok(Some(JStr(path))) && persisted == Some(data)
      ensures r.Ok? <==> WithLstmPath(old(data), symbol, path).Ok?
      ensures r.Ok? ==> data == WithLstmPath(old(data), symbol, path).value
      ensures r.Raised? ==> data == old(data) && persisted == old(persisted)
    {
      var u := WithLstmPath(data, symbol, path);
      if u.Raised? {
        return Raised(u.exc);
      }
      data := u.value;
      Save();
      return Ok(());
    }

    /** `toggle_auto_improvement(status)`. */
    method ToggleAutoImprovement(status: bool)
      modifies this
      ensures data == old(data)[AutoImprovementKey := JBool(status)]
      ensures AutoImprovement(data) == Ok(status)
      ensures persisted == Some(data)
    {
      data := data[AutoImprovementKey := JBool(status)];
      Save();
    }
  }
}
