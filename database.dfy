/** `database.py`: the four SQLite tables and the statements run against them.
    Each table is a sequence of rows in rowid order (the order a full-table scan
    returns them in); a primary key is a function from a row to its key. The
    connection, its lock and the pandas DataFrames are not modelled. */
module Database {
  import opened Wrappers

  /** One OHLCV candle, as the exchange reports it and as the range query returns it. */
  datatype Candle = Candle(timestamp: int, open: real, high: real, low: real, close: real, volume: real)

  /** A `historical_data` row. */
  datatype HistRow = HistRow(symbol: string, candle: Candle)

  /** A `whale_transactions` row. */
  datatype WhaleRow = WhaleRow(
    currency: string, amount: real, amountUsd: real, fromAddress: string, toAddress: string,
    direction: string, chain: string, txHash: string, timestamp: int, whaleRating: real)

  /** A `user_alerts` row. */
  datatype AlertRow = AlertRow(userId: int, currency: string, conditionType: string, threshold: real, isActive: int)

  /** An `error_logs` row. */
  datatype ErrorRow = ErrorRow(timestamp: int, moduleName: string, errorText: string, resolved: int)

  /** An `error_logs` row together with its rowid. */
  datatype ErrorRecord = ErrorRecord(id: int, row: ErrorRow)

  function HistKey(r: HistRow): (string, int) { (r.symbol, r.candle.timestamp) }
  function WhaleKey(r: WhaleRow): string { r.txHash }
  function AlertKey(r: AlertRow): (int, string, string) { (r.userId, r.currency, r.conditionType) }

  // ---------------------------------------------------------------------------
  // Primary-key semantics, shared by the three keyed tables

  /** The table respects its primary key. */
  predicate UniqueKeys<R, K(==)>(rows: seq<R>, key: R -> K) {
    forall i, j :: 0 <= i < j < |rows| ==> key(rows[i]) != key(rows[j])
  }

  /** The first row (in rowid order) whose key is `k`. */
  function Lookup<R, K(==)>(rows: seq<R>, key: R -> K, k: K): (r: Option<R>)
    ensures r.None? <==> forall i :: 0 <= i < |rows| ==> key(rows[i]) != k
    ensures r.Some? ==> r.value in rows && key(r.value) == k
  {
    if rows == [] then None
    else if key(rows[0]) == k then Some(rows[0])
    else Lookup(rows[1..], key, k)
  }

  /** The table with every row keyed `k` deleted, the rest in their order. */
  function WithoutKey<R(!new), K(==)>(rows: seq<R>, key: R -> K, k: K): (r: seq<R>)
    ensures forall x :: x in r <==> x in rows && key(x) != k
    ensures UniqueKeys(rows, key) ==> UniqueKeys(r, key)
  {
    if rows == [] then []
    else
      var rest := WithoutKey(rows[1..], key, k);
      if key(rows[0]) == k then rest
      else
        assert UniqueKeys(rows, key) ==> forall x :: x in rest ==> key(x) != key(rows[0]);
        [rows[0]] + rest
  }

  /** `INSERT OR REPLACE`: the conflicting row is deleted and the new row gets the next rowid. */
  function Upsert<R(!new), K(==)>(rows: seq<R>, key: R -> K, row: R): seq<R> {
    WithoutKey(rows, key, key(row)) + [row]
  }

  /** `INSERT OR IGNORE`: a row whose key is already present is dropped silently. */
  function InsertOrIgnore<R, K(==)>(rows: seq<R>, key: R -> K, row: R): seq<R> {
    if Lookup(rows, key, key(row)).Some? then rows else rows + [row]
  }

  lemma {:induction false} WithoutKeyLookup<R(!new), K>(rows: seq<R>, key: R -> K, k: K, other: K)
    requires other != k
    ensures Lookup(WithoutKey(rows, key, k), key, other) == Lookup(rows, key, other)
  {
    if rows != [] {
      WithoutKeyLookup(rows[1..], key, k, other);
    }
  }

  /** After an upsert the key finds the new row, and every other key finds what it found before. */
  lemma UpsertLookup<R(!new), K>(rows: seq<R>, key: R -> K, row: R, k: K)
    ensures Lookup(Upsert(rows, key, row), key, k) == if k == key(row) then Some(row) else Lookup(rows, key, k)
  {
    var w := WithoutKey(rows, key, key(row));
    LookupAppend(w, key, row, k);
    if k != key(row) {
      WithoutKeyLookup(rows, key, key(row), k);
    }
  }

  lemma {:induction false} LookupAppend<R, K>(rows: seq<R>, key: R -> K, row: R, k: K)
    ensures Lookup(rows + [row], key, k) ==
      if Lookup(rows, key, k).Some? then Lookup(rows, key, k)
      else if key(row) == k then Some(row) else None
  {
    if rows != [] {
      assert (rows + [row])[1..] == rows[1..] + [row];
      LookupAppend(rows[1..], key, row, k);
    }
  }

  lemma UpsertKeepsUnique<R(!new), K>(rows: seq<R>, key: R -> K, row: R)
    requires UniqueKeys(rows, key)
    ensures UniqueKeys(Upsert(rows, key, row), key)
  {
    var w := WithoutKey(rows, key, key(row));
    assert forall i :: 0 <= i < |w| ==> w[i] in w;
  }

  lemma InsertOrIgnoreKeepsUnique<R, K>(rows: seq<R>, key: R -> K, row: R)
    requires UniqueKeys(rows, key)
    ensures UniqueKeys(InsertOrIgnore(rows, key, row), key)
  {
  }

  /** Inserting a transaction whose hash is stored already changes nothing; so does repeating an insert. */
  lemma InsertOrIgnoreIdempotent<R, K>(rows: seq<R>, key: R -> K, row: R)
    ensures Lookup(rows, key, key(row)).Some? ==> InsertOrIgnore(rows, key, row) == rows
    ensures InsertOrIgnore(InsertOrIgnore(rows, key, row), key, row) == InsertOrIgnore(rows, key, row)
  {
    if Lookup(rows, key, key(row)).None? {
      LookupAppend(rows, key, row, key(row));
    }
  }

  // ---------------------------------------------------------------------------
  // historical_data

  /** `save_historical_data`: one `INSERT OR REPLACE` per candle, in batch order. */
  function SaveAll(rows: seq<HistRow>, symbol: string, data: seq<Candle>): seq<HistRow>
    decreases |data|
  {
    if data == [] then rows
    else Upsert(SaveAll(rows, symbol, data[..|data| - 1]), HistKey, HistRow(symbol, data[|data| - 1]))
  }

  /** The last candle of the batch stamped `ts`. */
  function LastAt(data: seq<Candle>, ts: int): (r: Option<Candle>)
    ensures r.Some? ==> r.value in data && r.value.timestamp == ts
    ensures r.None? <==> forall c :: c in data ==> c.timestamp != ts
  {
    if data == [] then None
    else if data[|data| - 1].timestamp == ts then Some(data[|data| - 1])
    else
      assert forall c :: c in data ==> c in data[..|data| - 1] || c == data[|data| - 1];
      LastAt(data[..|data| - 1], ts)
  }

  /** Within a batch the last candle for a timestamp wins; rows of other symbols
      and timestamps outside the batch are left as they were. */
  lemma {:induction false} SaveAllLastWins(rows: seq<HistRow>, symbol: string, data: seq<Candle>, k: (string, int))
    ensures Lookup(SaveAll(rows, symbol, data), HistKey, k) ==
      if k.0 == symbol && LastAt(data, k.1).Some? then Some(HistRow(symbol, LastAt(data, k.1).value))
      else Lookup(rows, HistKey, k)
    decreases |data|
  {
    if data != [] {
      var init := data[..|data| - 1];
      var last := data[|data| - 1];
      SaveAllLastWins(rows, symbol, init, k);
      UpsertLookup(SaveAll(rows, symbol, init), HistKey, HistRow(symbol, last), k);
    }
  }

  lemma {:induction false} SaveAllKeepsUnique(rows: seq<HistRow>, symbol: string, data: seq<Candle>)
    requires UniqueKeys(rows, HistKey)
    ensures UniqueKeys(SaveAll(rows, symbol, data), HistKey)
    decreases |data|
  {
    if data != [] {
      SaveAllKeepsUnique(rows, symbol, data[..|data| - 1]);
      UpsertKeepsUnique(SaveAll(rows, symbol, data[..|data| - 1]), HistKey, HistRow(symbol, data[|data| - 1]));
    }
  }

  /** `WHERE symbol = ? AND timestamp BETWEEN ? AND ?`, in rowid order, projected to the candle columns. */
  function InRange(rows: seq<HistRow>, symbol: string, start: int, end: int): (r: seq<Candle>)
    ensures forall c :: c in r <==> HistRow(symbol, c) in rows && start <= c.timestamp <= end
  {
    if rows == [] then []
    else
      var init := rows[..|rows| - 1];
      var last := rows[|rows| - 1];
      assert forall x :: x in rows <==> x in init || x == last;
      InRange(init, symbol, start, end)
        + (if last.symbol == symbol && start <= last.candle.timestamp <= end then [last.candle] else [])
  }

  /** `ORDER BY timestamp ASC` over rows that share a symbol: timestamps strictly increase. */
  predicate AscendingTime(cs: seq<Candle>) {
    forall i, j :: 0 <= i < j < |cs| ==> cs[i].timestamp < cs[j].timestamp
  }

  /** An ascending sequence is its first candle, earlier than all the others,
      followed by an ascending rest. */
  lemma AscendingSplit(cs: seq<Candle>)
    requires AscendingTime(cs) && cs != []
    ensures AscendingTime(cs[1..])
    ensures forall y :: y in cs[1..] ==> cs[0].timestamp < y.timestamp
  {
    forall y | y in cs[1..] ensures cs[0].timestamp < y.timestamp {
      var k :| 0 <= k < |cs[1..]| && cs[1..][k] == y;
      assert cs[k + 1] == y;
    }
  }

  /** A candle earlier than every candle of an ascending sequence can go in front. */
  lemma AscendingCons(x: Candle, rest: seq<Candle>)
    requires AscendingTime(rest)
    requires forall y :: y in rest ==> x.timestamp < y.timestamp
    ensures AscendingTime([x] + rest)
  {
    var r := [x] + rest;
    forall i, j | 0 <= i < j < |r| ensures r[i].timestamp < r[j].timestamp {
      assert r[j] == rest[j - 1];
      if i > 0 {
        assert r[i] == rest[i - 1];
      }
    }
  }

  /** Insert a candle with a new timestamp into an ascending sequence. */
  function InsertByTime(cs: seq<Candle>, c: Candle): (r: seq<Candle>)
    requires AscendingTime(cs)
    requires forall x :: x in cs ==> x.timestamp != c.timestamp
    ensures AscendingTime(r)
    ensures multiset(r) == multiset(cs) + multiset{c}
    ensures forall x :: x in r <==> x in cs || x == c
  {
    if cs == [] then [c]
    else
      AscendingSplit(cs);
      assert cs == [cs[0]] + cs[1..];
      if c.timestamp < cs[0].timestamp then
        AscendingCons(c, cs);
        [c] + cs
      else
        var rest := InsertByTime(cs[1..], c);
        AscendingCons(cs[0], rest);
        [cs[0]] + rest
  }

  /** What the range query has gathered from the first `i` rows: their matching
      candles, ascending by timestamp. */
  predicate Gathered(result: seq<Candle>, rows: seq<HistRow>, symbol: string, start: int, end: int, i: int)
    requires 0 <= i <= |rows|
  {
    && AscendingTime(result)
    && multiset(result) == multiset(InRange(rows[..i], symbol, start, end))
    && (forall c :: c in result ==> HistRow(symbol, c) in rows[..i])
  }

  /** The range query's next row, taken into what it has gathered. */
  function GatherNext(result: seq<Candle>, rows: seq<HistRow>, symbol: string, start: int, end: int, i: int): (r: seq<Candle>)
    requires UniqueKeys(rows, HistKey) && 0 <= i < |rows| && Gathered(result, rows, symbol, start, end, i)
    ensures Gathered(r, rows, symbol, start, end, i + 1)
  {
    var row := rows[i];
    InRangeStep(rows, symbol, start, end, i);
    assert forall x :: x in rows[..i] ==> x in rows[..i + 1];
    if row.symbol == symbol && start <= row.candle.timestamp <= end then
      NewTimestamp(rows, symbol, i, result);
      InsertByTime(result, row.candle)
    else result
  }

  lemma InRangeStep(rows: seq<HistRow>, symbol: string, start: int, end: int, i: int)
    requires 0 <= i < |rows|
    ensures InRange(rows[..i + 1], symbol, start, end) == InRange(rows[..i], symbol, start, end)
      + (if rows[i].symbol == symbol && start <= rows[i].candle.timestamp <= end then [rows[i].candle] else [])
  {
    assert rows[..i + 1][..i] == rows[..i];
  }

  /** A row's timestamp is new among the earlier rows of the same symbol. */
  lemma NewTimestamp(rows: seq<HistRow>, symbol: string, i: int, earlier: seq<Candle>)
    requires UniqueKeys(rows, HistKey)
    requires 0 <= i < |rows| && rows[i].symbol == symbol
    requires forall c :: c in earlier ==> HistRow(symbol, c) in rows[..i]
    ensures forall c :: c in earlier ==> c.timestamp != rows[i].candle.timestamp
  {
    forall c | c in earlier
      ensures c.timestamp != rows[i].candle.timestamp
    {
      var j :| 0 <= j < i && rows[..i][j] == HistRow(symbol, c);
      assert HistKey(rows[j]) != HistKey(rows[i]);
    }
  }

  // ---------------------------------------------------------------------------
  // user_alerts and error_logs queries

  /** `SELECT * FROM user_alerts WHERE is_active = 1`. */
  function ActiveAlerts(rows: seq<AlertRow>): (r: seq<AlertRow>)
    ensures forall a :: a in r <==> a in rows && a.isActive == 1
    ensures |r| <= |rows|
  {
    if rows == [] then []
    else (if rows[0].isActive == 1 then [rows[0]] else []) + ActiveAlerts(rows[1..])
  }

  /** `SELECT * FROM error_logs WHERE resolved = 0`, each row paired with its rowid
      (`firstId` is the rowid of `rows[0]`), in rowid order. */
  function UnresolvedFrom(rows: seq<ErrorRow>, firstId: int): (r: seq<ErrorRecord>)
    ensures forall e :: e in r <==>
      firstId <= e.id < firstId + |rows| && rows[e.id - firstId] == e.row && e.row.resolved == 0
    ensures forall i, j :: 0 <= i < j < |r| ==> r[i].id < r[j].id
    ensures forall i :: 0 <= i < |r| ==> firstId <= r[i].id < firstId + |rows|
  {
    if rows == [] then []
    else
      var rest := UnresolvedFrom(rows[1..], firstId + 1);
      UnresolvedCons(rows, firstId, rest);
      (if rows[0].resolved == 0 then [ErrorRecord(firstId, rows[0])] else []) + rest
  }

  /** The unresolved records of `rows` are its first row's, if unresolved, then
      those of the other rows. */
  lemma UnresolvedCons(rows: seq<ErrorRow>, firstId: int, rest: seq<ErrorRecord>)
    requires rows != []
    requires forall e :: e in rest <==>
      firstId + 1 <= e.id < firstId + |rows| && rows[1..][e.id - firstId - 1] == e.row && e.row.resolved == 0
    requires forall i, j :: 0 <= i < j < |rest| ==> rest[i].id < rest[j].id
    requires forall i :: 0 <= i < |rest| ==> firstId + 1 <= rest[i].id < firstId + |rows|
    ensures var r := (if rows[0].resolved == 0 then [ErrorRecord(firstId, rows[0])] else []) + rest;
      && (forall e :: e in r <==> firstId <= e.id < firstId + |rows| && rows[e.id - firstId] == e.row && e.row.resolved == 0)
      && (forall i, j :: 0 <= i < j < |r| ==> r[i].id < r[j].id)
      && (forall i :: 0 <= i < |r| ==> firstId <= r[i].id < firstId + |rows|)
  {
    var r := (if rows[0].resolved == 0 then [ErrorRecord(firstId, rows[0])] else []) + rest;
    forall e ensures e in r <==> firstId <= e.id < firstId + |rows| && rows[e.id - firstId] == e.row && e.row.resolved == 0 {
      if firstId + 1 <= e.id < firstId + |rows| {
        assert rows[1..][e.id - firstId - 1] == rows[e.id - firstId];
      }
    }
    if rows[0].resolved == 0 {
      forall i, j | 0 <= i < j < |r| ensures r[i].id < r[j].id {
        assert r[j] == rest[j - 1];
        if i > 0 {
          assert r[i] == rest[i - 1];
        }
      }
    }
  }

  /** `UPDATE error_logs SET resolved = 1 WHERE rowid = ?`; an unknown rowid matches nothing. */
  function MarkResolved(rows: seq<ErrorRow>, id: int): (r: seq<ErrorRow>)
    ensures |r| == |rows|
    ensures forall i :: 0 <= i < |rows| && i + 1 != id ==> r[i] == rows[i]
    ensures 1 <= id <= |rows| ==> r[id - 1] == rows[id - 1].(resolved := 1)
  {
    if 1 <= id <= |rows| then rows[id - 1 := rows[id - 1].(resolved := 1)] else rows
  }

  /** Resolving is idempotent, never clears a resolution, and removes exactly the
      record `id` from the unresolved query. */
  lemma MarkResolvedProperties(rows: seq<ErrorRow>, id: int)
    ensures MarkResolved(MarkResolved(rows, id), id) == MarkResolved(rows, id)
    ensures forall i :: 0 <= i < |rows| && rows[i].resolved == 1 ==> MarkResolved(rows, id)[i].resolved == 1
    ensures forall e :: e in UnresolvedFrom(MarkResolved(rows, id), 1) <==>
      e in UnresolvedFrom(rows, 1) && e.id != id
  {
  }

  /** Python `int(x)` for a float `x`: truncation toward zero. */
  function Truncate(t: real): (r: int)
    ensures t >= 0.0 ==> r as real <= t < r as real + 1.0
    ensures t < 0.0 ==> r as real - 1.0 < t <= r as real
  {
    if t >= 0.0 then t.Floor else -((-t).Floor)
  }

  /** The row `log_error(module, text)` appends at clock reading `now`. */
  function LogRow(moduleName: string, errorText: string, now: real): (r: ErrorRow)
    ensures r.resolved == 0 && r.moduleName == moduleName && r.errorText == errorText
  {
    ErrorRow(Truncate(now), moduleName, errorText, 0)
  }

  // ---------------------------------------------------------------------------
  // The gateway

  class Database {
    var historical: seq<HistRow>
    var whales: seq<WhaleRow>
    var alerts: seq<AlertRow>
    var errors: seq<ErrorRow>

    /** Every keyed table respects its primary key. */
    ghost predicate Valid()
      reads this`historical, this`whales, this`alerts
    {
      && UniqueKeys(historical, HistKey)
      && UniqueKeys(whales, WhaleKey)
      && UniqueKeys(alerts, AlertKey)
    }

    /** `init_db` on a fresh database file: four empty tables. */
    constructor ()
      ensures Valid()
      ensures historical == [] && whales == [] && alerts == [] && errors == []
    {
      historical, whales, alerts, errors := [], [], [], [];
    }

    /** `save_historical_data(symbol, data)`. */
    method SaveHistoricalData(symbol: string, data: seq<Candle>)
      requires Valid()
      modifies this`historical
      ensures Valid()
      ensures historical == SaveAll(old(historical), symbol, data)
    {
      var i := 0;
      while i < |data|
        invariant 0 <= i <= |data|
        invariant historical == SaveAll(old(historical), symbol, data[..i])
        invariant Valid()
      {
        assert data[..i + 1][..i] == data[..i];
        UpsertKeepsUnique(historical, HistKey, HistRow(symbol, data[i]));
        historical := Upsert(historical, HistKey, HistRow(symbol, data[i]));
        i := i + 1;
      }
      assert data[..i] == data;
    }

    /** The range query of `fetch_historical_data`: the candles of `symbol` stamped
        within [start, end], ascending by timestamp. */
    method FetchHistoricalData(symbol: string, start: int, end: int) returns (result: seq<Candle>)
      requires Valid()
      ensures AscendingTime(result)
      ensures multiset(result) == multiset(InRange(historical, symbol, start, end))
    {
      result := [];
      var i := 0;
      while i < |historical|
        invariant 0 <= i <= |historical|
        invariant Gathered(result, historical, symbol, start, end, i)
      {
        result := GatherNext(result, historical, symbol, start, end, i);
        i := i + 1;
      }
      assert historical[..i] == historical;
    }

    /** `add_user_alert`: upsert on (user, currency, condition), active. */
    method AddUserAlert(userId: int, currency: string, conditionType: string, threshold: real) returns (ok: bool)
      requires Valid()
      modifies this`alerts
      ensures Valid()
      ensures ok
      ensures alerts == Upsert(old(alerts), AlertKey, AlertRow(userId, currency, conditionType, threshold, 1))
    {
      UpsertKeepsUnique(alerts, AlertKey, AlertRow(userId, currency, conditionType, threshold, 1));
      alerts := Upsert(alerts, AlertKey, AlertRow(userId, currency, conditionType, threshold, 1));
      ok := true;
    }

    /** `get_active_alerts`. */
    function GetActiveAlerts(): (r: seq<AlertRow>)
      reads this`alerts
      ensures forall a :: a in r <==> a in alerts && a.isActive == 1
    {
      ActiveAlerts(alerts)
    }

    /** `save_whale_transaction`: `INSERT OR IGNORE` keyed by the transaction hash. */
    method SaveWhaleTransaction(row: WhaleRow)
      requires Valid()
      modifies this`whales
      ensures Valid()
      ensures whales == InsertOrIgnore(old(whales), WhaleKey, row)
    {
      InsertOrIgnoreKeepsUnique(whales, WhaleKey, row);
      if Lookup(whales, WhaleKey, row.txHash).None? {
        whales := whales + [row];
      }
    }

    /** `log_error`: append one unresolved row stamped with the clock's whole seconds. */
    method LogError(moduleName: string, errorText: string, now: real)
      modifies this`errors
      ensures errors == old(errors) + [LogRow(moduleName, errorText, now)]
    {
      errors := errors + [LogRow(moduleName, errorText, now)];
    }

    /** `get_unresolved_errors`, with each record's rowid. */
    function GetUnresolvedErrors(): (r: seq<ErrorRecord>)
      reads this
      ensures forall e :: e in r <==> 1 <= e.id <= |errors| && errors[e.id - 1] == e.row && e.row.resolved == 0
    {
      UnresolvedFrom(errors, 1)
    }

    /** `mark_error_resolved(error_id)`. */
    method MarkErrorResolved(id: int)
      modifies this`errors
      ensures errors == MarkResolved(old(errors), id)
    {
      if 1 <= id <= |errors| {
        errors := errors[id - 1 := errors[id - 1].(resolved := 1)];
      }
    }
  }
}
