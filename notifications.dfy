/**
 * Logging and Telegram broadcasting (notifications.py). The logger, the HTTP
 * client and `print` become trace fields of `NotificationHandler`; the relay's
 * answer to the k-th POST is the input `network(k)`.
 */
module Notifications {
  import opened Wrappers
  import opened Text
  import opened Config

  datatype Level = Debug | Info | Warning | Error

  /** One call of the Python logger. */
  datatype LogEntry = LogEntry(level: Level, message: string)

  /** One `requests.post` call: URL, headers and JSON body. */
  datatype Request = Request(url: string, headers: map<string, string>, body: map<string, string>)

  /** What one POST to the relay produced: a status code and JSON body, or an exception. */
  datatype Reply = Reply(status: int, json: string) | Raised(error: string)

  /** Outcome of `_send_telegram_message`: the decoded JSON, `None`, or a `NotificationError`. */
  datatype SendResult = Response(json: string) | NoResponse | NotificationError(message: string)

  /** The logger's threshold is INFO: only entries at INFO or above reach the file and the console. */
  function Output(entries: seq<LogEntry>): (r: seq<LogEntry>)
    ensures |r| <= |entries|
    ensures forall i :: 0 <= i < |r| ==> r[i].level != Debug
  {
    if entries == [] then []
    else if entries[|entries| - 1].level == Debug then Output(entries[..|entries| - 1])
    else Output(entries[..|entries| - 1]) + [entries[|entries| - 1]]
  }

  /** The request `_send_telegram_message` builds for an enabled configuration. */
  function TelegramRequest(t: TelegramConfig, message: string): (req: Request)
    requires t.enabled
    ensures req.url == t.apiUrl.value
    ensures req.headers.Keys == {"X-API-Key", "Content-Type"}
    ensures req.headers["X-API-Key"] == t.apiKey.value && req.headers["Content-Type"] == "application/json"
    ensures req.body.Keys == {"message", "channel_name", "channel_secret"}
    ensures req.body["message"] == message
    ensures req.body["channel_name"] == t.channelName.value && req.body["channel_secret"] == t.channelSecret.value
  {
    Request(
      t.apiUrl.value,
      map["X-API-Key" := t.apiKey.value, "Content-Type" := "application/json"],
      map["message" := message, "channel_name" := t.channelName.value, "channel_secret" := t.channelSecret.value])
  }

  /** How `_send_telegram_message` turns the relay's reply into its result. */
  function ReplyResult(reply: Reply): SendResult
  {
    match reply
    case Reply(status, json) => if status == 200 then Response(json) else NoResponse
    case Raised(e) => NotificationError("Failed to send Telegram message: " + e)
  }

  /** The requests `_broadcast_to_telegram` issues. */
  function BroadcastRequests(t: TelegramConfig, message: string): seq<Request>
  {
    if t.enabled then [TelegramRequest(t, message)] else []
  }

  /** The local logger entries `_broadcast_to_telegram` writes about a failed send. */
  function BroadcastNotes(t: TelegramConfig, reply: Reply): seq<LogEntry>
  {
    if !t.enabled then []
    else match ReplyResult(reply)
      case Response(_) => []
      case NoResponse => [LogEntry(Warning, "Failed to send Telegram message")]
      case NotificationError(e) => [LogEntry(Error, "Telegram API Error: " + e)]
  }

  /** Only DEBUG stays local; INFO, WARNING and ERROR are broadcast. */
  predicate Broadcasts(level: Level)
  {
    level != Debug
  }

  /** Logger entries written by one `log_<level>` call when the next POST is answered by `reply`. */
  function LogEntries(t: TelegramConfig, reply: Reply, level: Level, message: string): seq<LogEntry>
  {
    [LogEntry(level, message)] + (if Broadcasts(level) then BroadcastNotes(t, reply) else [])
  }

  /** Requests issued by one `log_<level>` call. */
  function LogRequests(t: TelegramConfig, level: Level, message: string): seq<Request>
  {
    if Broadcasts(level) then BroadcastRequests(t, message) else []
  }

  /** Where `log_and_broadcast` sends a message, by its level string. */
  datatype Route = ToLogger(level: Level) | ToPrint

  function RouteOf(level: string): (r: Route)
    ensures r.ToLogger? <==> level in {"INFO", "WARNING", "ERROR", "DEBUG"}
  {
    if level == "INFO" then ToLogger(Info)
    else if level == "WARNING" then ToLogger(Warning)
    else if level == "ERROR" then ToLogger(Error)
    else if level == "DEBUG" then ToLogger(Debug)
    else ToPrint
  }

  /** The checks of `test_telegram_connection`. */
  predicate TelegramUsable(t: TelegramConfig)
  {
    && t.enabled
    && Truthy(t.apiKey) && |t.apiKey.value| >= 10
    && ApiUrlOk(t.apiUrl.value)
    && Truthy(t.channelName) && Truthy(t.channelSecret)
  }

  /** `get_telegram_status`. */
  function TelegramStatus(t: TelegramConfig): (r: string)
    ensures r == "disabled" <==> !t.enabled
    ensures t.enabled ==> StartsWith(r, "enabled for channel ") && r[|"enabled for channel "|..] == t.channelName.value
  {
    if t.enabled then "enabled for channel " + OrNone(t.channelName) else "disabled"
  }

  class NotificationHandler {
    const telegram: TelegramConfig
    const logPath: string
    /** The relay's answer to the k-th POST this handler issues. */
    const network: nat -> Reply
    /** Every call of the logger, in order. */
    var local: seq<LogEntry>
    /** Every POST issued, in order. */
    var posts: seq<Request>
    /** Lines written by the `print` fallback. */
    var printed: seq<string>

    constructor (telegram: TelegramConfig, logPath: string, network: nat -> Reply)
      ensures this.telegram == telegram && this.logPath == logPath && this.network == network
      ensures local == [] && posts == [] && printed == []
    {
      this.telegram := telegram;
      this.logPath := logPath;
      this.network := network;
      local, posts, printed := [], [], [];
    }

    /** `_send_telegram_message`: POST the request once, or do nothing when disabled. */
    method SendTelegramMessage(message: string) returns (r: SendResult)
      modifies this`posts
      ensures posts == old(posts) + BroadcastRequests(telegram, message)
      ensures r == if telegram.enabled then ReplyResult(network(|old(posts)|)) else NoResponse
    {
      if !telegram.enabled {
        return NoResponse;
      }
      var reply := network(|posts|);
      posts := posts + [TelegramRequest(telegram, message)];
      r := ReplyResult(reply);
    }

    /** `_broadcast_to_telegram`: a failed send is noted in the local log only and never raised. */
    method BroadcastToTelegram(message: string)
      modifies this`posts, this`local
      ensures posts == old(posts) + BroadcastRequests(telegram, message)
      ensures local == old(local) + BroadcastNotes(telegram, network(|old(posts)|))
    {
      if !telegram.enabled {
        return;
      }
      var response := SendTelegramMessage(message);
      match response
      case Response(_) =>
      case NoResponse =>
        local := local + [LogEntry(Warning, "Failed to send Telegram message")];
      case NotificationError(e) =>
        local := local + [LogEntry(Error, "Telegram API Error: " + e)];
    }

    method LogInfo(message: string)
      modifies this`posts, this`local
      ensures posts == old(posts) + LogRequests(telegram, Info, message)
      ensures local == old(local) + LogEntries(telegram, network(|old(posts)|), Info, message)
      ensures printed == old(printed)
    {
      local := local + [LogEntry(Info, message)];
      BroadcastToTelegram(message);
    }

    method LogWarning(message: string)
      modifies this`posts, this`local
      ensures posts == old(posts) + LogRequests(telegram, Warning, message)
      ensures local == old(local) + LogEntries(telegram, network(|old(posts)|), Warning, message)
      ensures printed == old(printed)
    {
      local := local + [LogEntry(Warning, message)];
      BroadcastToTelegram(message);
    }

    method LogError(message: string)
      modifies this`posts, this`local
      ensures posts == old(posts) + LogRequests(telegram, Error, message)
      ensures local == old(local) + LogEntries(telegram, network(|old(posts)|), Error, message)
      ensures printed == old(printed)
    {
      local := local + [LogEntry(Error, message)];
      BroadcastToTelegram(message);
    }

    /** Debug messages are written locally and never broadcast. */
    method LogDebug(message: string)
      modifies this`local
      ensures local == old(local) + [LogEntry(Debug, message)]
      ensures posts == old(posts) && printed == old(printed)
    {
      local := local + [LogEntry(Debug, message)];
    }

    /**
     * The `log_<level>` method for `level`, as the other components call it: the message
     * is the next local entry at that level (a failed broadcast may add a note after it).
     */
    method Log(level: Level, message: string)
      modifies this`posts, this`local
      ensures posts == old(posts) + LogRequests(telegram, level, message)
      ensures local == old(local) + LogEntries(telegram, network(|old(posts)|), level, message)
      ensures |local| > |old(local)| && local[|old(local)|] == LogEntry(level, message)
      ensures printed == old(printed)
    {
      ghost var reply := network(|posts|);
      BroadcastFailureSwallowed(telegram, reply, level, message);
      match level {
        case Debug => LogDebug(message);
        case Info => LogInfo(message);
        case Warning => LogWarning(message);
        case Error => LogError(message);
      }
    }

    /** `log_and_broadcast`: dispatch on the level string; any other level is only printed. */
    method LogAndBroadcast(message: string, level: string)
      modifies this`posts, this`local, this`printed
      ensures RouteOf(level).ToLogger? ==>
        && posts == old(posts) + LogRequests(telegram, RouteOf(level).level, message)
        && local == old(local) + LogEntries(telegram, network(|old(posts)|), RouteOf(level).level, message)
        && printed == old(printed)
      ensures RouteOf(level).ToPrint? ==>
        && posts == old(posts) && local == old(local)
        && printed == old(printed) + ["[" + level + "] " + message]
    {
      if level == "INFO" {
        LogInfo(message);
      } else if level == "WARNING" {
        LogWarning(message);
      } else if level == "ERROR" {
        LogError(message);
      } else if level == "DEBUG" {
        LogDebug(message);
      } else {
        printed := printed + ["[" + level + "] " + message];
      }
    }

    /** `test_telegram_connection`: checks the configuration's format and logs the verdict locally. */
    method TestTelegramConnection() returns (ok: bool)
      modifies this`local
      ensures ok == TelegramUsable(telegram)
      ensures |local| == |old(local)| + 1 && local[..|old(local)|] == old(local)
      ensures local[|old(local)|].level == (if ok then Info else if telegram.enabled then Error else Info)
      ensures posts == old(posts) && printed == old(printed)
    {
      if !telegram.enabled {
        local := local + [LogEntry(Info, "Telegram notifications disabled - configuration incomplete")];
        return false;
      }
      if !Truthy(telegram.apiKey) || |telegram.apiKey.value| < 10 {
        local := local + [LogEntry(Error, "Invalid Telegram API key format")];
        return false;
      }
      if !ApiUrlOk(telegram.apiUrl.value) {
        local := local + [LogEntry(Error, "Invalid Telegram API URL format")];
        return false;
      }
      if !Truthy(telegram.channelName) || !Truthy(telegram.channelSecret) {
        // "Missing Telegram channel configuration": an enabled configuration always has both.
        assert false;
      }
      local := local + [LogEntry(Info, "Telegram configuration valid - notifications enabled")];
      ok := true;
    }

    /** `get_telegram_status`. */
    function GetTelegramStatus(): (r: string)
      ensures r == TelegramStatus(telegram)
    {
      TelegramStatus(telegram)
    }
  }

  /**
   * A log call issues exactly one POST when Telegram is enabled and the level is not
   * DEBUG, whatever the relay answers; a failed send adds one local WARNING or ERROR
   * entry and nothing else: no second POST, no exception.
   */
  lemma BroadcastFailureSwallowed(t: TelegramConfig, reply: Reply, level: Level, message: string)
    ensures |LogRequests(t, level, message)| == (if t.enabled && Broadcasts(level) then 1 else 0)
    ensures LogEntries(t, reply, level, message)[0] == LogEntry(level, message)
    ensures |LogEntries(t, reply, level, message)| <= 2
    ensures forall i :: 1 <= i < |LogEntries(t, reply, level, message)| ==>
      LogEntries(t, reply, level, message)[i].level in {Warning, Error}
    ensures |LogEntries(t, reply, level, message)| == 2 <==>
      t.enabled && Broadcasts(level) && !ReplyResult(reply).Response?
  {
  }

  /** With Telegram disabled every log call is one local entry and no request. */
  lemma DisabledIsLocalOnly(t: TelegramConfig, reply: Reply, level: Level, message: string)
    requires !t.enabled
    ensures LogEntries(t, reply, level, message) == [LogEntry(level, message)]
    ensures LogRequests(t, level, message) == []
  {
  }

  /** A DEBUG entry never reaches the logger's output. */
  lemma {:induction false} DebugIsSilent(entries: seq<LogEntry>, message: string)
    ensures Output(entries + [LogEntry(Debug, message)]) == Output(entries)
  {
    var e := entries + [LogEntry(Debug, message)];
    assert e[..|e| - 1] == entries;
  }

  /** The logger's output keeps every INFO-or-above entry in the order written: it distributes over concatenation. */
  lemma {:induction false} OutputKeepsOrder(first: seq<LogEntry>, second: seq<LogEntry>)
    ensures Output(first + second) == Output(first) + Output(second)
    decreases |second|
  {
    if second == [] {
      assert first + second == first;
    } else {
      var init, last := second[..|second| - 1], second[|second| - 1];
      var all := first + second;
      assert all[..|all| - 1] == first + init;
      assert all[|all| - 1] == last;
      OutputKeepsOrder(first, init);
      if last.level == Debug {
        assert Output(all) == Output(first + init);
        assert Output(second) == Output(init);
      } else {
        assert Output(all) == Output(first + init) + [last];
        assert Output(second) == Output(init) + [last];
      }
    }
  }

  /** An entry written at or after position `from` of the log. */
  lemma LoggedAt(x: LogEntry, from: nat, log: seq<LogEntry>, j: nat)
    requires from <= j < |log| && log[j] == x
    ensures x in log[from..]
  {
    assert log[from..][j - from] == x;
  }

  /** An entry written after position `from` is still there once the log has grown. */
  lemma StillLogged(x: LogEntry, from: nat, log: seq<LogEntry>, later: seq<LogEntry>)
    requires from <= |log| && log <= later && x in log[from..]
    ensures x in later[from..]
  {
    var k :| 0 <= k < |log| - from && log[from..][k] == x;
    assert later[from..][k] == x;
  }

  /** A log that grew twice has grown. */
  lemma Grown(first: seq<LogEntry>, mid: seq<LogEntry>, last: seq<LogEntry>)
    requires first <= mid && mid <= last
    ensures first <= last && (|mid| < |last| ==> first < last)
  {
  }

  /** An entry written after position `mid` was written after any earlier position. */
  lemma LoggedSince(x: LogEntry, from: nat, mid: nat, log: seq<LogEntry>)
    requires from <= mid <= |log| && x in log[mid..]
    ensures x in log[from..]
  {
    var k :| 0 <= k < |log| - mid && log[mid..][k] == x;
    assert log[from..][k + mid - from] == x;
  }

  /** An entry reaches the logger's output exactly when it was written at INFO or above. */
  lemma {:induction false} OutputMembers(entries: seq<LogEntry>, e: LogEntry)
    ensures e in Output(entries) <==> e in entries && e.level != Debug
    decreases |entries|
  {
    if entries != [] {
      var init, last := entries[..|entries| - 1], entries[|entries| - 1];
      assert entries == init + [last];
      OutputMembers(init, e);
    }
  }

  /** Only INFO, WARNING and ERROR reach Telegram through `log_and_broadcast`. */
  lemma RoutedBroadcast(t: TelegramConfig, level: string, message: string)
    requires t.enabled
    ensures (RouteOf(level).ToLogger? && |LogRequests(t, RouteOf(level).level, message)| == 1)
      <==> level in {"INFO", "WARNING", "ERROR"}
  {
  }

  /**
   * For a configuration that passed `validate_config`, `test_telegram_connection`
   * succeeds exactly when Telegram is enabled.
   */
  lemma ValidatedTelegramUsable(c: Config)
    requires ValidateConfig(c).None?
    ensures TelegramUsable(c.telegram) <==> c.telegram.enabled
  {
  }

  /** A key shorter than ten characters fails the connection test even when enabled. */
  lemma ShortKeyUnusable(t: TelegramConfig)
    requires t.enabled && |t.apiKey.value| < 10
    ensures !TelegramUsable(t)
  {
  }
}
