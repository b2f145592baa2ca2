/** `self_improvement.py`: the loop that walks the unresolved error log, asks the
    auto-coder for a fix of each record, marks fixed records resolved and escalates
    the rest to every subscriber. One cycle of the loop is modelled; the thread
    and its hourly sleep are not. */
module SelfImprovement {
  import opened Wrappers
  import opened Json
  import PyStr
  import opened Transport
  import opened Database
  import opened Configuration
  import AutoCoder

  /** The message `notify_admin(error_id, module, error_text)` sends: at most 200
      characters of the error text. */
  function AttentionBody(record: ErrorRecord): (b: Body)
    ensures b.AttentionNeeded? && b.errorId == record.id && b.moduleName == record.row.moduleName
    ensures |b.excerpt| <= 200 && |b.excerpt| <= |record.row.errorText|
    ensures b.excerpt == record.row.errorText[..|b.excerpt|]
  {
    AttentionNeeded(record.row.moduleName, record.id, PyStr.Take(record.row.errorText, 200))
  }

  /** What `notify_admin` delivers: every subscriber up to the first failed send. */
  function AttentionNotices(data: Data, unreachable: set<Json>, record: ErrorRecord): (r: seq<Message>)
    ensures Subscribers(data).Raised? ==> r == []
    ensures Subscribers(data).Ok? ==>
      r == Broadcast(Subscribers(data).value[..FirstUnreachable(Subscribers(data).value, unreachable)],
                     unreachable, AttentionBody(record))
  {
    match Subscribers(data)
    case Raised(_) => []
    case Ok(subs) => SendUntilFailure(subs, unreachable, AttentionBody(record))
  }

  /** What `notify_admin` logs: one "ADMIN_NOTIFY" row when reading the subscribers
      or a send raises, nothing when every send goes through. */
  function EscalationLog(data: Data, unreachable: set<Json>, now: real): (r: seq<ErrorRow>)
    ensures |r| <= 1
    ensures r == [] <==> Subscribers(data).Ok? && forall x :: x in Subscribers(data).value ==> x !in unreachable
    ensures forall e :: e in r ==> e.moduleName == "ADMIN_NOTIFY" && e.resolved == 0
  {
    match Subscribers(data)
    case Raised(exc) => [LogRow("ADMIN_NOTIFY", "Error: " + exc, now)]
    case Ok(subs) =>
      if FirstUnreachable(subs, unreachable) < |subs| then
        [LogRow("ADMIN_NOTIFY", "Error: " + SendFailure, now)]
      else
        assert forall x :: x in subs ==> x !in unreachable;
        []
  }

  /** The state one fix attempt touches: the error log, the bot's outbox and the
      files the auto-coder has written. */
  datatype Desk = Desk(errors: seq<ErrorRow>, outbox: seq<Message>, files: map<string, string>)

  datatype Attempt = Attempt(desk: Desk, fixed: bool)

  /** `attempt_fix(error)`: `suggest(module, text)` is the AI's reply to the fix
      prompt. A success resolves the record and logs "Fixed error <id> in <module>"
      with no message; a failure escalates and leaves the record as it was. */
  function FixStep(record: ErrorRecord, data: Data, unreachable: set<Json>,
                   suggest: (string, string) -> Option<string>, runTests: (string, string) -> int,
                   now: real, d: Desk): (a: Attempt)
    ensures a.fixed ==> a.desk.outbox == d.outbox
    ensures a.fixed ==>
      a.desk.errors == MarkResolved(d.errors, record.id)
        + [LogRow("SELF_IMPROVE", "Fixed error " + PyStr.IntToString(record.id) + " in " + record.row.moduleName, now)]
    ensures !a.fixed ==> a.desk.errors == d.errors + EscalationLog(data, unreachable, now)
    ensures !a.fixed ==> a.desk.outbox == d.outbox + AttentionNotices(data, unreachable, record)
  {
    var moduleName := record.row.moduleName;
    var response := suggest(moduleName, record.row.errorText);
    var files := AutoCoder.FilesAfterFix(d.files, moduleName, response);
    if AutoCoder.FixSucceeds(moduleName, response, runTests) then
      Attempt(Desk(MarkResolved(d.errors, record.id)
                     + [LogRow("SELF_IMPROVE", "Fixed error " + PyStr.IntToString(record.id) + " in " + moduleName, now)],
                   d.outbox, files), true)
    else
      Attempt(Desk(d.errors + EscalationLog(data, unreachable, now),
                   d.outbox + AttentionNotices(data, unreachable, record), files), false)
  }

  /** One pass of `_self_check_loop` over a snapshot of the unresolved records, in
      query order. */
  function Cycle(records: seq<ErrorRecord>, data: Data, unreachable: set<Json>,
                 suggest: (string, string) -> Option<string>, runTests: (string, string) -> int,
                 now: real, d: Desk): Desk
  {
    if records == [] then d
    else
      var prev := Cycle(records[..|records| - 1], data, unreachable, suggest, runTests, now, d);
      FixStep(records[|records| - 1], data, unreachable, suggest, runTests, now, prev).desk
  }

  /** What `attempt_fix` returns for each record of a cycle, in order. */
  function Outcomes(records: seq<ErrorRecord>, suggest: (string, string) -> Option<string>,
                    runTests: (string, string) -> int): (r: seq<bool>)
    ensures |r| == |records|
    ensures forall k :: 0 <= k < |records| ==>
      r[k] == AutoCoder.FixSucceeds(records[k].row.moduleName,
                                    suggest(records[k].row.moduleName, records[k].row.errorText), runTests)
  {
    if records == [] then []
    else
      var last := records[|records| - 1];
      Outcomes(records[..|records| - 1], suggest, runTests)
        + [AutoCoder.FixSucceeds(last.row.moduleName, suggest(last.row.moduleName, last.row.errorText), runTests)]
  }

  /** One more record in a cycle: one more attempt, on the state the earlier ones left. */
  lemma CycleStep(records: seq<ErrorRecord>, i: int, data: Data, unreachable: set<Json>,
                  suggest: (string, string) -> Option<string>, runTests: (string, string) -> int,
                  now: real, d: Desk)
    requires 0 <= i < |records|
    ensures Cycle(records[..i + 1], data, unreachable, suggest, runTests, now, d)
      == FixStep(records[i], data, unreachable, suggest, runTests, now,
                 Cycle(records[..i], data, unreachable, suggest, runTests, now, d)).desk
    ensures Outcomes(records[..i + 1], suggest, runTests)
      == Outcomes(records[..i], suggest, runTests)
         + [FixStep(records[i], data, unreachable, suggest, runTests, now,
                    Cycle(records[..i], data, unreachable, suggest, runTests, now, d)).fixed]
  {
    assert records[..i + 1][..i] == records[..i];
  }

  /** A record whose fix fails stays unresolved, so the next cycle retries and
      re-escalates it. */
  lemma FailedFixStaysUnresolved(record: ErrorRecord, data: Data, unreachable: set<Json>,
                                 suggest: (string, string) -> Option<string>, runTests: (string, string) -> int,
                                 now: real, d: Desk)
    requires record in UnresolvedFrom(d.errors, 1)
    requires !FixStep(record, data, unreachable, suggest, runTests, now, d).fixed
    ensures record in UnresolvedFrom(FixStep(record, data, unreachable, suggest, runTests, now, d).desk.errors, 1)
  {
  }

  /** Dropping a row's unresolved mark removes exactly one record from the query. */
  lemma {:induction false} ResolveOneCount(rows: seq<ErrorRow>, i: int, firstId: int)
    requires 0 <= i < |rows| && rows[i].resolved == 0
    ensures |UnresolvedFrom(rows[i := rows[i].(resolved := 1)], firstId)| == |UnresolvedFrom(rows, firstId)| - 1
  {
    var rows' := rows[i := rows[i].(resolved := 1)];
    if i == 0 {
      assert rows'[1..] == rows[1..];
    } else {
      assert rows'[1..] == rows[1..][i - 1 := rows[i].(resolved := 1)];
      ResolveOneCount(rows[1..], i - 1, firstId + 1);
    }
  }

  /** Appending an unresolved row adds exactly one record to the query. */
  lemma {:induction false} AppendUnresolvedCount(rows: seq<ErrorRow>, row: ErrorRow, firstId: int)
    requires row.resolved == 0
    ensures |UnresolvedFrom(rows + [row], firstId)| == |UnresolvedFrom(rows, firstId)| + 1
  {
    if rows != [] {
      assert (rows + [row])[1..] == rows[1..] + [row];
      AppendUnresolvedCount(rows[1..], row, firstId + 1);
    }
  }

  /** As written, a successful fix does not shrink the unresolved log: the record
      is resolved, but the "Fixed error" notice goes through `log_error` into the
      same table as a new unresolved row. */
  lemma SuccessKeepsUnresolvedCount(record: ErrorRecord, data: Data, unreachable: set<Json>,
                                    suggest: (string, string) -> Option<string>, runTests: (string, string) -> int,
                                    now: real, d: Desk)
    requires record in UnresolvedFrom(d.errors, 1)
    requires FixStep(record, data, unreachable, suggest, runTests, now, d).fixed
    ensures |UnresolvedFrom(FixStep(record, data, unreachable, suggest, runTests, now, d).desk.errors, 1)|
         == |UnresolvedFrom(d.errors, 1)|
  {
    var i := record.id - 1;
    ResolveOneCount(d.errors, i, 1);
    var resolved := MarkResolved(d.errors, record.id);
    assert resolved == d.errors[i := d.errors[i].(resolved := 1)];
    AppendUnresolvedCount(resolved, LogRow("SELF_IMPROVE", "Fixed error " + PyStr.IntToString(record.id) + " in " + record.row.moduleName, now), 1);
  }

  class SelfImprovementSystem {
    var running: bool
    /** The worker thread last started, by its start number. */
    var thread: Option<nat>
    var starts: nat
    const bot: Bot
    const config: Config
    const db: Database
    const coder: AutoCoder.AutoCoder

    constructor (bot: Bot, config: Config, db: Database, coder: AutoCoder.AutoCoder)
      ensures !running && thread == None && starts == 0
      ensures this.bot == bot && this.config == config && this.db == db && this.coder == coder
    {
      running, thread, starts := false, None, 0;
      this.bot, this.config, this.db, this.coder := bot, config, db, coder;
    }

    /** The desk as the objects hold it. */
    ghost function Current(): Desk
      reads db, bot, coder
    {
      Desk(db.errors, bot.outbox, coder.files)
    }

    /** `start_self_check()`: starts a worker only when `auto_improvement` is truthy,
        and does so even when one is already running. A missing flag raises. */
    method StartSelfCheck(now: real) returns (r: Result<()>)
      modifies this`running, this`thread, this`starts, db`errors
      ensures AutoImprovement(config.data).Raised? ==>
        r == Raised(AutoImprovement(config.data).exc) && running == old(running) && thread == old(thread)
        && starts == old(starts) && db.errors == old(db.errors)
      ensures AutoImprovement(config.data) == Ok(false) ==>
        r == Ok(()) && running == old(running) && thread == old(thread) && starts == old(starts) && db.errors == old(db.errors)
      ensures AutoImprovement(config.data) == Ok(true) ==>
        r == Ok(()) && running && thread == Some(old(starts)) && starts == old(starts) + 1
        && db.errors == old(db.errors) + [LogRow("SELF_IMPROVE", "System started", now)]
    {
      var flag := AutoImprovement(config.data);
      if flag.Raised? {
        return Raised(flag.exc);
      }
      if flag.value {
        running := true;
        thread := Some(starts);
        starts := starts + 1;
        db.LogError("SELF_IMPROVE", "System started", now);
      }
      return Ok(());
    }

    /** `attempt_fix(error)`. */
    method AttemptFix(record: ErrorRecord, suggest: (string, string) -> Option<string>,
                      runTests: (string, string) -> int, now: real) returns (fixed: bool)
      modifies db`errors, bot`outbox, coder`files
      ensures var a := FixStep(record, config.data, bot.unreachable, suggest, runTests, now, old(Current()));
        fixed == a.fixed && Current() == a.desk
    {
      var moduleName := record.row.moduleName;
      fixed := coder.AttemptAutoFix(moduleName, record.row.errorText, suggest(moduleName, record.row.errorText), runTests);
      if fixed {
        db.MarkErrorResolved(record.id);
        db.LogError("SELF_IMPROVE", "Fixed error " + PyStr.IntToString(record.id) + " in " + moduleName, now);
        return;
      }
      NotifyAdmin(record, now);
    }

    /** `notify_admin(error_id, module, error_text)`: one `try` around the whole
        send loop; what it catches is logged under "ADMIN_NOTIFY". */
    method NotifyAdmin(record: ErrorRecord, now: real)
      modifies db`errors, bot`outbox
      ensures bot.outbox == old(bot.outbox) + AttentionNotices(config.data, bot.unreachable, record)
      ensures db.errors == old(db.errors) + EscalationLog(config.data, bot.unreachable, now)
    {
      var subscribers := Subscribers(config.data);
      if subscribers.Raised? {
        db.LogError("ADMIN_NOTIFY", "Error: " + subscribers.exc, now);
        return;
      }
      var failed := bot.SendUntilFirstFailure(subscribers.value, AttentionBody(record));
      if failed {
        db.LogError("ADMIN_NOTIFY", "Error: " + SendFailure, now);
      }
    }

    /** One cycle of `_self_check_loop`: `attempt_fix` once per unresolved record,
        in query order, over the records as they were when the cycle began. */
    method RunCycle(suggest: (string, string) -> Option<string>, runTests: (string, string) -> int, now: real)
      returns (outcomes: seq<bool>)
      modifies db`errors, bot`outbox, coder`files
      ensures var records := UnresolvedFrom(old(db.errors), 1);
        && outcomes == Outcomes(records, suggest, runTests)
        && Current() == Cycle(records, config.data, bot.unreachable, suggest, runTests, now, old(Current()))
    {
      var records := db.GetUnresolvedErrors();
      outcomes := [];
      var i := 0;
      while i < |records|
        invariant 0 <= i <= |records|
        invariant outcomes == Outcomes(records[..i], suggest, runTests)
        invariant Current() == Cycle(records[..i], config.data, bot.unreachable, suggest, runTests, now, old(Current()))
      {
        CycleStep(records, i, config.data, bot.unreachable, suggest, runTests, now, old(Current()));
        var fixed := AttemptFix(records[i], suggest, runTests, now);
        outcomes := outcomes + [fixed];
        i := i + 1;
      }
      assert records[..i] == records;
    }

    /** `add_new_feature(description)`: the coder is called only while
        `auto_improvement` is truthy; a missing flag raises. */
    method AddNewFeature(description: string, response: Option<string>) returns (r: Result<bool>)
      modifies coder`files
      ensures AutoImprovement(config.data).Raised? ==> r.Raised? && coder.files == old(coder.files)
      ensures AutoImprovement(config.data) == Ok(false) ==> r == Ok(false) && coder.files == old(coder.files)
      ensures AutoImprovement(config.data) == Ok(true) ==>
        var code := AutoCoder.CodeOf(response);
        && r.Ok?
        && (r.value <==> code.Some? && AutoCoder.ModuleFileName(code.value).Some?)
        && (r.value ==> coder.files == old(coder.files)[AutoCoder.ModuleFileName(code.value).value := code.value])
        && (!r.value ==> coder.files == old(coder.files))
    {
      var flag := AutoImprovement(config.data);
      if flag.Raised? {
        return Raised(flag.exc);
      }
      if !flag.value {
        return Ok(false);
      }
      var created := coder.CreateFeature(description, response);
      return Ok(created);
    }

    /** `stop()`: clears the flag and joins the recorded worker, if any. */
    method Stop() returns (joined: Option<nat>)
      modifies this`running
      ensures !running && joined == thread
    {
      running := false;
      joined := thread;
    }
  }
}
