# CryptoMasterPro core, modelled in Dafny

CryptoMasterPro is a Telegram bot for crypto traders. This project models its bookkeeping and decision layer and proves properties of it.

The bookkeeping and decision layer covers:

- **Expiring cache and currency check.** The expiring cache memoises price and explorer lookups (`DataCache`), and `is_valid_currency` checks currency symbols.
- **Persistence gateway.** It covers the four SQLite tables and the statements run against them: `INSERT OR REPLACE`, `INSERT OR IGNORE`, append, `UPDATE … WHERE rowid`, and the range query.
- **Configuration store.** The JSON settings document is held in memory. It is written back after every change, back-fills default keys on load, and keeps a per-chat watch list.
- **Cached lookups.** `get_crypto_price` caches the exchange ticker. `get_whale_transactions` looks up each chain of `BLOCKCHAIN_APIS` and caches per chain.
- **Auto-coder's string handling.** It extracts the first fenced Python block from an AI reply, derives a module file name, and decides a fix's success from the test run's return code.
- **Error handler.** Every handled exception is logged. Subscribers are notified only for `MemoryError` and `SystemError`, with the text cut to 300 characters.
- **Monitoring service.** The model covers the start/stop flag and one iteration of the monitoring loop:
  - the alert check;
  - whale detection, which filters on `value` with a strict `>`, notifies before it saves, and isolates failures per currency and per subscriber;
  - the hourly report, split into a 1000-character caption and a remainder. With `analysis.py` as it stands no report is ever sent (see "## Left out").
- **Self-improvement system.** It covers the start gate on `auto_improvement`, and one cycle that tries to fix each unresolved error record: a fix resolves the record, and a failure is escalated to the subscribers.

Python's behaviour is written out wherever the outcome depends on it:

- Truthiness.
- Dictionaries keep insertion order, so JSON objects are ordered association lists.
- `for x in value` over a list, a string or a dict.
- `str.find`, `strip`, `split`, `replace` and slicing.
- `int()` and `float()` on strings.
- `int()` on a float truncates toward zero.
- A primary-key conflict.

Anything outside the program is an input to the model:

- the clock;
- the environment's API keys;
- the exchange's ticker;
- each explorer's reply;
- the AI's replies;
- pytest's return code;
- the analysis result;
- which chats cannot be reached.

Each place where Python raises is an explicit error value: `Result.Raised` with the exception's class name, or a `Step` whose `ok` flag is false.

Files, one Dafny module each:

- Modules that follow the source files:
  - `utils.dfy` (module Utils)
  - `database.dfy` (Database)
  - `config.dfy` (Configuration)
  - `api.dfy` (Api)
  - `auto_coder.dfy` (AutoCoder)
  - `error_handler.dfy` (ErrorHandler)
  - `monitoring.dfy` (Monitoring)
  - `self_improvement.dfy` (SelfImprovement)
- Shared modules:
  - `wrappers.dfy`: Option and Result.
  - `json.dfy`: JSON values with Python's dict and iteration semantics.
  - `pystr.dfy`: the `str` built-ins the core uses.
  - `transport.dfy`: the bot's outbox. A send to an unreachable chat is the send that raises.

Objects whose state the source changes in place are classes with `modifies` frames. Each such class is proved against a specification function of its old state: `DataCache`, `Database`, `Config`, `Api`, `AutoCoder`, `ErrorHandler`, `MonitoringService`, `SelfImprovementSystem` and `Bot`. Loops over chains, candles, alerts, currencies, transactions, subscribers and error records stay loops with invariants.

Where the source and its documentation disagree, the model follows the code:

- whales are filtered on `value`, not `valueUSD`;
- a repeated transaction hash is announced again on every tick;
- alert conditions are never evaluated;
- a successful fix logs a "Fixed error" row that is itself unresolved.

## Model

| member | source | states |
|---|---|---|
| Utils.DataCache.constructor | utils.py:7-9 | a new cache is empty and keeps the given TTL |
| Utils.DataCache.Get | utils.py:11-15 | a hit exactly when the key is present and strictly less than `ttl` seconds old, returning the stored data; the cache is not changed (expiry is lazy) |
| Utils.DataCache.Set | utils.py:17-21 | the key's entry is replaced by the new data stamped `now`; every other entry is unchanged |
| Utils.FreshAfterSet | utils.py:13-21 | a value just stored is returned at the same instant exactly when `ttl > 0` |
| Utils.FreshAfterSetOther | utils.py:17-21 | storing under one key does not change what any other key yields at any time |
| Utils.ExpiredFromTtlOn | utils.py:13-15 | once `ttl` seconds or more have passed, the entry is no longer returned |
| Utils.IsValidCurrencyMatchesPattern | utils.py:24-25 | the check accepts exactly 2–6 ASCII capitals, then optionally "/USDT", then optionally one final line feed (what `$` tolerates) |
| Database.UpsertLookup | database.py:78-84 | after `INSERT OR REPLACE` the key finds the new row and every other key finds what it found before |
| Database.UpsertKeepsUnique | database.py:31-36 | `INSERT OR REPLACE` keeps the primary key unique |
| Database.InsertOrIgnoreKeepsUnique | database.py:55-58 | `INSERT OR IGNORE` keeps the primary key unique |
| Database.InsertOrIgnoreIdempotent | database.py:176-182 | inserting a row whose key is stored already changes nothing, and repeating an insert changes nothing |
| Database.SaveAllLastWins | database.py:133-144 | after saving a batch, each (symbol, timestamp) in the batch holds the batch's last candle for it; all other keys find what they found before |
| Database.SaveAllKeepsUnique | database.py:133-144 | saving a batch keeps (symbol, timestamp) unique |
| Database.InRange | database.py:119-124 | a candle is in the range query exactly when its row has the symbol and a timestamp within [start, end] |
| Database.ActiveAlerts | database.py:168 | exactly the alert rows with `is_active = 1`, never more rows than the table |
| Database.UnresolvedFrom | database.py:201 | exactly the rows with `resolved = 0`, each paired with its rowid, in ascending rowid order |
| Database.MarkResolved | database.py:209-213 | only the row with that rowid gets `resolved = 1`; an unknown rowid changes nothing |
| Database.MarkResolvedProperties | database.py:205-214 | resolving is idempotent, never clears a resolution, and removes exactly that record from the unresolved query |
| Database.Truncate | database.py:190 | `int()` of the clock truncates toward zero, so the result is within one second of the reading |
| Database.LogRow | database.py:190-194 | the logged row carries the module and text given and `resolved = 0` |
| Database.Database.constructor | database.py:9-108 | a fresh database has four empty tables that respect their keys |
| Database.Database.SaveHistoricalData | database.py:129-145 | the table becomes one `INSERT OR REPLACE` per candle, in batch order; keys stay unique |
| Database.Database.FetchHistoricalData | database.py:111-126 | the result is in strictly ascending timestamp order and is a permutation of the rows of the symbol within [start, end] |
| Database.Database.AddUserAlert | database.py:148-162 | upserts an active row on (user, currency, condition), keeps the key unique, returns True |
| Database.Database.GetActiveAlerts | database.py:165-169 | exactly the stored alerts that are active |
| Database.Database.SaveWhaleTransaction | database.py:172-183 | the whale table becomes `INSERT OR IGNORE` of the row keyed by its hash; keys stay unique |
| Database.Database.LogError | database.py:186-195 | appends exactly one unresolved row stamped with `int()` of the clock reading; older rows are untouched |
| Database.Database.GetUnresolvedErrors | database.py:198-202 | exactly the unresolved rows, each with its rowid |
| Database.Database.MarkErrorResolved | database.py:205-214 | the error log becomes `MarkResolved` of the old log |
| Configuration.BackFillProperties | config.py:40-44 | after back-filling, every default key is present, loaded keys keep their loaded values, and missing keys get their default |
| Configuration.BackFillDefaults | config.py:36-44 | back-filling the defaults into themselves yields the defaults |
| Configuration.WatchListAfter | config.py:70-75 | adding appends the currency only when absent; removing drops exactly one occurrence when present and otherwise changes nothing |
| Configuration.WatchListStaysDuplicateFree | config.py:70-75 | a duplicate-free watch list stays duplicate-free, and after removal the currency is absent |
| Configuration.UpdateMonitoredEffect | config.py:64-77 | the chat keyed `str(chat_id)` has a list afterwards, even when removing from an unseen chat; its list is updated as above; other chats and other settings are untouched |
| Configuration.UpdateMonitoredSucceeds | config.py:64-77 | the update raises only when the watch map is missing or not a dict, or the chat's entry is not a list |
| Configuration.LstmPathRoundTrip | config.py:79-85 | a stored model path is read back, and every other symbol's path is unchanged |
| Configuration.Config.Load | config.py:17-47 | a missing file gives the defaults (saved); a decoded file gives the document back-filled with defaults (saved); an undecodable file gives the defaults, unsaved |
| Configuration.Config.Save | config.py:49-51 | the persisted snapshot equals the in-memory document |
| Configuration.Config.GetItem | config.py:53-54 | the stored value, or KeyError exactly when the key is absent |
| Configuration.Config.Get | config.py:61-62 | the stored value, or the default exactly when the key is absent |
| Configuration.Config.SetItem | config.py:56-59 | only that key changes, and the snapshot is saved |
| Configuration.Config.UpdateMonitoredCurrency | config.py:64-77 | on success the document is the updated one and is saved; on a raise nothing changes and nothing is saved |
| Configuration.Config.SetLstmModelPath | config.py:82-85 | on success `get_lstm_model_path(symbol)` returns the path and the snapshot is saved; it raises exactly when the model map is missing or not a dict |
| Configuration.Config.ToggleAutoImprovement | config.py:87-90 | the flag reads back as the given status, nothing else changes, and the snapshot is saved |
| Api.FromTicker | api.py:66-73 | price, high, low, change and volume come from last, high, low, percentage and quoteVolume, tagged with the symbol |
| Api.PriceLookup | api.py:58-78 | a fresh cached value is returned with nothing else done; on a miss a ticker is cached under the symbol and returned; an exchange failure returns None, leaves the cache alone and logs one "PRICE" row |
| Api.PriceServedFromCache | api.py:59-61 | for 60 seconds after a fetch the same value is served from the cache, whatever the exchange would say, and nothing is logged |
| Api.CacheKeysDistinct | api.py:101 | different chains never share a cache slot for one currency |
| Api.FirstFive | api.py:118 | `result[:5]` of a list is its first five items; anything but a list or string raises |
| Api.Query | api.py:107-122 | the cache changes only on a `status == '1'` reply, and only in the chain's slot; what is cached is what is contributed, at most five items; any other reply contributes nothing; a failed request logs the one "API" row of `safe_api_request` (api.py line 54), a non-dict body or an unsliceable result one "WHALE_TX" row, a falsy body or another status nothing |
| Api.FetchChain | api.py:97-122 | a chain without a key is skipped; a fresh, truthy cached value is used verbatim without a request; only the chain's own `currency_chain` slot is ever written, stamped `now`; at most five items; on a miss, a failing request or a reply without status '1' contributes nothing, with the failure's log row |
| Api.FetchChainKeepsFirstFive | api.py:117-120 | a fresh `status == '1'` reply contributes, and caches, exactly its first five results |
| Api.EmptyCachedListIsMiss | api.py:102-103 | a cached empty list is treated as a miss: the same transactions and log rows as with nothing cached |
| Api.FetchChains | api.py:95-124 | each chain's contribution in table order, at most five per chain; the cache stays well formed |
| Api.SilentChainSkipped | api.py:95-124 | a chain that contributes nothing does not stop the loop: the transactions and cache are those of the table without that chain |
| Api.SilentChainUpTo | api.py:95-124 | over any prefix of the table, a silent chain leaves the transactions and cache of the table without it, and its log rows sit in its place |
| Api.FailedReplyIsSilent | api.py:107-124 | on a miss, a reply without status '1' makes its chain contribute nothing |
| Api.FetchChainsWithoutKeys | api.py:97-99 | with no API key set, nothing is returned, cached or logged |
| Api.Api.constructor | api.py:10-11 | both caches start empty with TTLs 60 and 3600 |
| Api.Api.GetCryptoPrice | api.py:58-78 | result, price cache and error log are exactly those of `PriceLookup` |
| Api.Api.FetchFromChain | api.py:98-122 | result, chain cache and error log are exactly those of `FetchChain` |
| Api.Api.GetWhaleTransactions | api.py:95-124 | result, chain cache and error log are exactly those of `FetchChains` over `BLOCKCHAIN_APIS` |
| Api.Api.FetchFromChains | api.py:96-124 | the chain loop over any table of chains: result, chain cache and error log are those of `FetchChains` over it |
| AutoCoder.ExtractCode | auto_coder.py:62-71 | with no "```python" there is no code; otherwise the code is the stripped text between the first opening tag and the first "```" after the tag |
| AutoCoder.ExtractCodeExact | auto_coder.py:65-71 | given the first tag and the first fence after it, extraction yields exactly the stripped text between them |
| AutoCoder.ExtractCodeNeedsClosingFence | auto_coder.py:66-69 | with no fence after the opening tag, extraction fails; the tag's own backticks never close it |
| AutoCoder.CodeOf | auto_coder.py:57-59 | a missing or empty reply yields no code before any extraction |
| AutoCoder.ModuleFileName | auto_coder.py:118-123 | "new_feature.py" when the first line starts with "class" or "def"; otherwise the first line's last word with every ':' removed, plus ".py" |
| AutoCoder.ModuleFileNameOfStripped | auto_coder.py:116-132 | for stripped code, a file name is found exactly when the code is not empty (empty code makes `split()[-1]` raise, and the call returns False) |
| AutoCoder.AutoCoder.AttemptAutoFix | auto_coder.py:46-89 | returns True exactly when a block was extracted and `<module>_test.py` then exits 0; the extracted code is written to `<module>.py` whenever there is one |
| AutoCoder.AutoCoder.CreateFeature | auto_coder.py:91-132 | returns True exactly when code and a file name are found; that file then holds the code, and otherwise no file changes |
| ErrorHandler.AdminNotices | error_handler.py:26-37 | every message carries the module and at most the first 300 characters of the error; a message reaches exactly the subscribers before the first failed send, in list order; none when the subscriber list cannot be read |
| ErrorHandler.ErrorHandler.HandleError | error_handler.py:10-17 | exactly one row "Type: message\ntrace" is logged under the module, and admins are notified if and only if the exception is a MemoryError or SystemError, subclasses included |
| ErrorHandler.ErrorHandler.HandleCriticalError | error_handler.py:19-24 | logs under "CRITICAL" and always notifies |
| ErrorHandler.ErrorHandler.NotifyAdmin | error_handler.py:26-37 | the outbox gains exactly the admin notices; a failed send ends the loop and nothing escapes |
| Transport.BroadcastReachesReachable | monitoring.py:96-100 | with a `try` around each send, a message reaches exactly the reachable recipients, each with the same body |
| Transport.SendUntilFailure | error_handler.py:27-37 | with one `try` around the loop, exactly the recipients before the first failure get the message |
| Transport.SendUntilFailureAllReachable | self_improvement.py:58-70 | when every recipient is reachable, a loop that stops on failure and one that isolates each send deliver the same messages |
| Transport.Bot.SendMessage | monitoring.py:98 | a message is delivered exactly when its chat is reachable |
| Transport.Bot.SendUntilFirstFailure | error_handler.py:27-37 | the outbox gains `SendUntilFailure`, and the failure is reported exactly when some recipient is unreachable |
| Transport.Bot.SendToAll | monitoring.py:96-100 | the outbox gains `Broadcast`: every reachable recipient gets one message |
| PyStr.Find | auto_coder.py:65-66 | `str.find`: the first occurrence at or after `start`, or -1 when there is none |
| PyStr.Strip | auto_coder.py:71 | the slice left once the whitespace runs at both ends are removed |
| PyStr.IntStringRoundTrip | config.py:66 | `int(str(n)) == n` |
| PyStr.StrippedIntStringRoundTrip | monitoring.py:105 | `int(str(n).strip()) == n`, so a key written as `str(chat_id)` is read back as that chat id |
| PyStr.IntToStringInjective | config.py:66 | different chat ids give different watch-map keys |
| PyStr.ParseFloatExtendsParseInt | monitoring.py:74 | on integer strings the model's exact `float()` agrees with `int()` (Python's doubles only up to 2^53, see "## Left out") |
| Json.ObjSet | config.py:68 | `d[k] = v` makes `k` read `v`, leaves other keys alone, and keeps key order with new keys last |
| Json.Iterate | monitoring.py:69-70 | iteration yields a list's items; lists, strings and dicts iterate, anything else raises |
| Monitoring.IsWhale | monitoring.py:74 | a transaction is a whale exactly when `float(tx['value'])` is strictly greater than the threshold; it raises when either cannot be read |
| Monitoring.AlertOf | monitoring.py:85-93 | the alert is built exactly when every field it reads is usable; it carries the token symbol, `float(valueUSD)`, the first 10 characters of each address, and the chain or "UNKNOWN" |
| Monitoring.RowOf | monitoring.py:76-81 | the saved row has the currency, the hash, rating 0.0, and direction and chain defaulting to "UNKNOWN" |
| Monitoring.ProcessTxNotifiesIffWhale | monitoring.py:73-81 | a readable transaction is announced to every reachable subscriber, and then inserted-or-ignored, exactly when its value exceeds the threshold |
| Monitoring.RepeatedWhaleRenotified | monitoring.py:75-81 | the same whale processed twice is announced twice, while the whale table keeps one row |
| Monitoring.FailedSaveKeepsNotification | monitoring.py:75-83 | when the row cannot be built, the announcement stands, nothing is saved and the currency is abandoned |
| Monitoring.ProcessTxsStopsAtRaise | monitoring.py:71-83 | after a transaction raises, the currency's remaining transactions have no effect |
| Monitoring.WatchCurrencySpec | monitoring.py:70-83 | one currency only adds messages, whale rows and log rows, and keeps the chain cache well formed |
| Monitoring.WatchListAppend | monitoring.py:69-83 | failure isolation: the currencies after a prefix are processed from whatever state the prefix left |
| Monitoring.DetectAllStopsAtRaise | monitoring.py:69-70 | a watch list that cannot be iterated ends detection: the later chats have no effect |
| Monitoring.ReportMessages | monitoring.py:108-118 | nothing is sent for an empty path or report, or an unreachable chat; otherwise a photo with caption `report[:1000]`, then `report[1000:]` exactly when the report is longer than 1000 |
| Monitoring.ReportSplitRoundTrip | monitoring.py:114-118 | the caption fits in 1000 characters, and caption plus remainder is the report |
| Monitoring.HourlyReportsToWatchingChat | monitoring.py:104-105 | the watch list stored under `str(chat_id)` is reported to that chat id |
| Monitoring.HourlyWithoutPairSendsNothing | monitoring.py:107-120 | when the analysis never yields a (chart, report) pair, as with analysis.py:132-233, the hourly analysis sends nothing |
| Monitoring.HourlyAllStopsAtRaise | monitoring.py:104-106 | a chat key `int()` rejects ends the hourly analysis: the later chats have no effect |
| Monitoring.MonitoringService.constructor | monitoring.py:13-17 | a new service is not running and has no thread |
| Monitoring.MonitoringService.Start | monitoring.py:19-25 | a no-op while running; otherwise `running` becomes true and a new thread is recorded |
| Monitoring.MonitoringService.Stop | monitoring.py:27-31 | `running` becomes false and the recorded thread, if any, is joined |
| Monitoring.MonitoringService.CheckAlerts | monitoring.py:51-65 | one price lookup per active alert, in order; only the price cache and the error log change, so nothing is sent |
| Monitoring.MonitoringService.NotifyWhaleTransaction | monitoring.py:85-100 | when the alert and the subscriber list can be read, each subscriber gets its own isolated send; otherwise nothing is sent |
| Monitoring.MonitoringService.ProcessTransaction | monitoring.py:73-81 | outbox, whale table and success are those of `ProcessTx` |
| Monitoring.MonitoringService.ProcessTransactions | monitoring.py:72-83 | outbox, whale table and success are those of `ProcessTxs`, which stops at the first raise |
| Monitoring.MonitoringService.WatchCurrency | monitoring.py:70-83 | the state becomes `WatchCurrencySpec` of the old state |
| Monitoring.MonitoringService.WatchList | monitoring.py:70-83 | the state becomes `WatchListSpec` of the old state |
| Monitoring.MonitoringService.DetectWhaleActivity | monitoring.py:67-83 | the state and success are those of `Detect` over the watch map in insertion order |
| Monitoring.MonitoringService.HourlyAnalysis | monitoring.py:102-120 | the outbox gains exactly the hourly reports up to the first raise; success as `Hourly` says |
| Monitoring.MonitoringService.ReportAll | monitoring.py:104-106 | the outbox gains `HourlyAll` of the parsed items |
| Monitoring.MonitoringService.ReportEntry | monitoring.py:105-106 | the outbox gains `HourlyEntry` of the item |
| Monitoring.MonitoringService.ReportChat | monitoring.py:106-120 | the outbox gains, per currency, the report messages of a successful analysis |
| Monitoring.MonitoringService.ReportCurrency | monitoring.py:107-120 | a failed analysis sends nothing; a successful one sends its report |
| Monitoring.MonitoringService.SendReport | monitoring.py:110-118 | the outbox gains exactly `ReportMessages`: the chart with a 1000-character caption, then the remainder only when the report is longer |
| Monitoring.MonitoringService.Tick | monitoring.py:33-49 | alert check, then whale detection, then on minute 0 the hourly analysis; a raise skips the rest of the tick |
| SelfImprovement.AttentionBody | self_improvement.py:62-66 | the escalation carries the module, the record id and at most the first 200 characters of the error |
| SelfImprovement.AttentionNotices | self_improvement.py:58-68 | exactly the subscribers before the first failed send get the escalation |
| SelfImprovement.EscalationLog | self_improvement.py:69-70 | at most one "ADMIN_NOTIFY" row, logged exactly when reading the subscribers or a send fails |
| SelfImprovement.FixStep | self_improvement.py:43-52 | a success resolves the record, logs "Fixed error", sends nothing and returns True; a failure leaves the record, escalates and returns False |
| SelfImprovement.Outcomes | self_improvement.py:31-32 | one result per record, in query order, True exactly where that record's fix succeeds |
| SelfImprovement.CycleStep | self_improvement.py:31-32 | each record of a cycle is attempted once, on the state the earlier attempts left |
| SelfImprovement.FailedFixStaysUnresolved | self_improvement.py:50-52 | a record whose fix fails stays unresolved, so the next cycle retries and re-escalates it |
| SelfImprovement.ResolveOneCount | database.py:209-213 | resolving an unresolved row removes exactly one record from the unresolved query |
| SelfImprovement.AppendUnresolvedCount | database.py:95-98 | appending a row with the default `resolved = 0` adds exactly one unresolved record |
| SelfImprovement.SuccessKeepsUnresolvedCount | self_improvement.py:45-47 | as written, a successful fix leaves the number of unresolved records unchanged, because its "Fixed error" row is itself unresolved |
| SelfImprovement.SelfImprovementSystem.constructor | self_improvement.py:13-17 | a new system is not running and has no thread |
| SelfImprovement.SelfImprovementSystem.StartSelfCheck | self_improvement.py:19-24 | starts and logs "System started" exactly when `auto_improvement` is truthy, even if already running; a falsy flag changes nothing; a missing flag raises |
| SelfImprovement.SelfImprovementSystem.AttemptFix | self_improvement.py:38-55 | result and state are those of `FixStep` |
| SelfImprovement.SelfImprovementSystem.NotifyAdmin | self_improvement.py:57-70 | the outbox gains the escalation notices and the log gains the escalation row |
| SelfImprovement.SelfImprovementSystem.RunCycle | self_improvement.py:27-33 | one `attempt_fix` per unresolved record of the snapshot, in query order |
| SelfImprovement.SelfImprovementSystem.AddNewFeature | self_improvement.py:72-75 | the coder is called only when `auto_improvement` is truthy; a falsy flag returns False and writes nothing |
| SelfImprovement.SelfImprovementSystem.Stop | self_improvement.py:77-80 | `running` becomes false and the recorded thread, if any, is joined |

## Left out

- **Threads and the `while self.running` loops.** One tick of `_monitor` and one cycle of `_self_check_loop` are modelled; the thread is a recorded start number. Concurrency, `time.sleep` and the 60/120/600/3600-second backoffs are left out.
- **The minute check in `_monitor`.** `datetime.now().minute` is the `minute` parameter of `Tick`.
- **The clock.** One clock reading `now` serves a whole tick or call.
- **Outbound services.** The exchange, the block explorers, the AI API, pytest and `perform_full_analysis` are oracle parameters. The AI's reply is taken as given; parsing its HTTP JSON (`get_ai_recommendation`, `get_ai_code_suggestion`) is left out.
- **Message text.** Markdown rendering and number formatting are not modelled; a message is the fields it is built from.
- **A failed send.** It is a chat in the bot's unreachable set. Its exception text is the fixed "message not delivered".
- **Exception messages.** A logged exception is its class name (e.g. "KeyError") rather than Python's full message.
- **Persistence mechanics.** The SQLite connection and lock, pandas DataFrames, the JSON write in `save`, `open(...).write` of generated code, `traceback.format_exc` (a parameter) and `generate_file_hash` are left out.
- **Files that cannot be written or opened.** Failures of `open(chart_path)` in the hourly report, and of the code file write in the auto-coder, are left out.
- **`Config` creation.** The singleton created in `__new__` and the class-level lock are replaced by one explicitly built `Config`.
- **Sharing inside the defaults.** `default_config.copy()` is shallow, so the defaults' nested lists and dicts are shared with `data`; the model copies values.
- **A non-dict `config.json` top level.** It is not modelled; a decoded file is a dict.
- **API keys.** They are the environment as read once at import time (the `keys` map).
- **`fetch_historical_data`'s window.** The window is computed from `utcnow()`, including the naive-timestamp offset; `Database.Database.FetchHistoricalData` takes `start` and `end` as parameters.
- **`fetch_historical_data_from_exchange`.** It is not part of this model; `save_historical_data` is.
- **The hourly report's success branch.** `perform_full_analysis` returns None (analysis.py:142, 233) or a nine-key dict (analysis.py:220-230). Neither unpacks into `chart_path, report` (monitoring.py:108), so every currency raises and is caught at monitoring.py:119-120. The `Analysed` reply models the pair that `monitoring.py` expects; with `analysis.py` as it stands that branch is unreachable, and `Monitoring.HourlyWithoutPairSendsNothing` shows that nothing is then sent.
- Database.Database.LogError: the row is stamped `int()` of the clock reading `now`. The source stamps `int(datetime.utcnow().timestamp())` (database.py:190); `utcnow()` is naive, so that stamp is off by the host's UTC offset from the `time.time()` that stamps the caches. The offset is not modelled.
- ErrorHandler.ErrorHandler.NotifyAdmin: the source reads `self.bot.config['subscribers']` (error_handler.py:28), an attribute of the bot that no modelled file sets; the model takes the bot's config to be the `Config` document.
- **`analysis.py`, `commands.py`, `main.py`, `run.py`, `start.py` and `launcher.py`.** These are not part of this model.
- **`utils.log_error`.** It only prints, so errors caught in `monitoring.py` and `auto_coder.py` leave no trace in the model's state. `database.log_error`, which `api.py`, `error_handler.py` and `self_improvement.py` use, is modelled.
- **The error record id.** It is taken as given, as the record's rowid. In the source, `get_unresolved_errors` runs `SELECT *`, which returns no `rowid` column (database.py:201). `attempt_fix` then reads `error['rowid']` outside its `try` (self_improvement.py:39), so as written a cycle with any unresolved record raises into `_self_check_loop`'s handler.
- **The `except` branch of `attempt_fix`.** It is reachable only through the database failing, so it is left out.
- Monitoring.ToFloat: `float()` of a string accepts an optional sign and decimal digits with at most one point; exponents, underscores, `inf` and `nan` are treated as raising. Its result is an exact real, not an IEEE double.
- Monitoring.IsWhale: values are exact reals, so the rounding of doubles is not modelled. For example, "500000.00000000000001" is a whale against the threshold 500000 in the model, while Python rounds it to 500000.0, which is not greater. The stored `amount` is exact in the same way.
- PyStr.ParseFloatExtendsParseInt: holds of the model's exact `float()`; Python's `float()` agrees with `int()` only up to 2^53 (`float("9007199254740993")` is 9007199254740992.0).
- Monitoring.ToInt and Monitoring.ChatKeys: `int()` of a string accepts an optional sign and ASCII decimal digits only; underscores and non-ASCII digits are treated as raising. The program writes chat keys as `str(chat_id)`, which always parses back.
- Monitoring.RowOf: `from`, `to`, `direction`, `chain` and `hash` values that are not strings are treated as raising, where SQLite would store them as they are.
- Monitoring.AlertOf: `from` and `to` values that are not strings are treated as raising, where Python would slice a list just as well.
- Monitoring.WatchCurrencySpec: a watch-list element that is not a string is skipped, where the source would still query the explorers with its `str()`.
- Monitoring.MonitoringService.CheckAlerts: caught errors go to the print-only `utils.log_error`. As in the source, alert conditions are never evaluated.
- Monitoring.MonitoringService.Tick: states only the final state and result of the tick, not the `utils.log_error` call made when the tick raises.
