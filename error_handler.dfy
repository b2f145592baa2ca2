/** `error_handler.py`: every handled exception is logged to the database; the
    critical ones are also reported to each subscriber. The traceback text is a
    parameter, as is the clock. */
module ErrorHandler {
  import opened Wrappers
  import opened Json
  import PyStr
  import opened Transport
  import opened Database
  import opened Configuration

  /** An exception as the handler sees it: its class name, `str(exception)`, and
      the names of its class's ancestors. */
  datatype PyException = PyException(typeName: string, message: string, bases: set<string>)

  /** `isinstance(e, cls)` for a class named `cls`. */
  predicate IsInstanceOf(e: PyException, cls: string) {
    e.typeName == cls || cls in e.bases
  }

  /** `isinstance(exception, (MemoryError, SystemError))`. */
  predicate IsCritical(e: PyException) {
    IsInstanceOf(e, "MemoryError") || IsInstanceOf(e, "SystemError")
  }

  /** `f"{type(exception).__name__}: {str(exception)}"`. */
  function ErrorMessage(e: PyException): string {
    e.typeName + ": " + e.message
  }

  /** What `notify_admin(module, error_msg)` delivers: one message per subscriber
      up to the first failed send (a single `try` wraps the loop), each carrying at
      most 300 characters of the error; a missing or non-iterable subscriber list
      means no message at all. */
  function AdminNotices(data: Data, unreachable: set<Json>, moduleName: string, errorMsg: string): (r: seq<Message>)
    ensures forall m :: m in r ==>
      && m.body == CriticalError(moduleName, PyStr.Take(errorMsg, 300))
      && |m.body.excerpt| <= 300
      && m.body.excerpt == errorMsg[..|m.body.excerpt|]
    ensures Subscribers(data).Raised? ==> r == []
    // the notice goes, in list order, to the subscribers before the first unreachable one
    ensures Subscribers(data).Ok? ==>
      r == Broadcast(Subscribers(data).value[..FirstUnreachable(Subscribers(data).value, unreachable)],
                     unreachable, CriticalError(moduleName, PyStr.Take(errorMsg, 300)))
    ensures Subscribers(data).Ok? ==> forall m :: m in r <==>
      && m.body == CriticalError(moduleName, PyStr.Take(errorMsg, 300))
      && m.to in Subscribers(data).value[..FirstUnreachable(Subscribers(data).value, unreachable)]
      && m.to !in unreachable
    ensures Subscribers(data).Ok? ==> |r| <= |Subscribers(data).value|
    ensures Subscribers(data).Ok? && (forall x :: x in Subscribers(data).value ==> x !in unreachable) ==>
      |r| == |Subscribers(data).value|
  {
    match Subscribers(data)
    case Raised(_) => []
    case Ok(subs) =>
      SendUntilFailureAllReachableLength(subs, unreachable, CriticalError(moduleName, PyStr.Take(errorMsg, 300)));
      BroadcastReachesReachable(subs[..FirstUnreachable(subs, unreachable)], unreachable, CriticalError(moduleName, PyStr.Take(errorMsg, 300)));
      SendUntilFailure(subs, unreachable, CriticalError(moduleName, PyStr.Take(errorMsg, 300)))
  }

  lemma SendUntilFailureAllReachableLength(recipients: seq<Json>, unreachable: set<Json>, body: Body)
    ensures (forall x :: x in recipients ==> x !in unreachable) ==>
      |SendUntilFailure(recipients, unreachable, body)| == |recipients|
  {
    if forall x :: x in recipients ==> x !in unreachable {
      FirstUnreachableAt(recipients, unreachable, |recipients|);
    }
  }

  class ErrorHandler {
    const bot: Bot
    const config: Config
    const db: Database

    constructor (bot: Bot, config: Config, db: Database)
      ensures this.bot == bot && this.config == config && this.db == db
    {
      this.bot := bot;
      this.config := config;
      this.db := db;
    }

    /** `handle_error(module, exception)`: exactly one log row, then the admin
        notices if and only if the exception is critical. */
    method HandleError(moduleName: string, e: PyException, trace: string, now: real)
      modifies bot`outbox, db`errors
      ensures db.errors == old(db.errors) + [LogRow(moduleName, ErrorMessage(e) + "\n" + trace, now)]
      ensures bot.outbox == old(bot.outbox)
        + (if IsCritical(e) then AdminNotices(config.data, bot.unreachable, moduleName, ErrorMessage(e)) else [])
    {
      var errorMsg := ErrorMessage(e);
      db.LogError(moduleName, errorMsg + "\n" + trace, now);
      if IsCritical(e) {
        NotifyAdmin(moduleName, errorMsg);
      }
    }

    /** `handle_critical_error(exception)`: logged under "CRITICAL", always reported. */
    method HandleCriticalError(e: PyException, trace: string, now: real)
      modifies bot`outbox, db`errors
      ensures db.errors == old(db.errors) + [LogRow("CRITICAL", ErrorMessage(e) + "\n" + trace, now)]
      ensures bot.outbox == old(bot.outbox) + AdminNotices(config.data, bot.unreachable, "CRITICAL", ErrorMessage(e))
    {
      var errorMsg := ErrorMessage(e);
      db.LogError("CRITICAL", errorMsg + "\n" + trace, now);
      NotifyAdmin("CRITICAL", errorMsg);
    }

    /** `notify_admin(module, error_msg)`; nothing it raises escapes. */
    method NotifyAdmin(moduleName: string, errorMsg: string)
      modifies bot`outbox
      ensures bot.outbox == old(bot.outbox) + AdminNotices(config.data, bot.unreachable, moduleName, errorMsg)
    {
      var subscribers := Subscribers(config.data);
      if subscribers.Raised? {
        return;
      }
      var failed := bot.SendUntilFirstFailure(subscribers.value, CriticalError(moduleName, PyStr.Take(errorMsg, 300)));
    }
  }
}
