/**
 * The application object `NetflixVerifyBot` (app.py): start-up checks, the reconnect
 * loop with exponential back-off, shutdown, and the process entry point `main`.
 * A run of the bot is driven by the sessions the mail server grants it, in order;
 * when they run out the operator has pressed Ctrl-C.
 */
module Bot {
  import opened Wrappers
  import opened Text
  import opened Config
  import opened Notifications
  import opened Mail

  /** One connection attempt: the login's error, if any, the polls it serves, and the logout's error. */
  datatype Session = Session(loginError: Option<string>, polls: seq<Poll>, logoutError: Option<string>)

  /** How `_run_email_loop` ends: the `EmailConnectionError`, a `break` to reconnect, or the interrupt. */
  datatype SessionOutcome = LoginFailed(error: string) | Reconnecting | SessionInterrupted

  /** How `start` (or the main loop) ends: normally, through `sys.exit(code)`, or by the operator's interrupt. */
  datatype Completion = Returned | Exited(code: int) | UserStopped

  /** The end of `_run_main_loop`: `_retry_count`, the back-off waits, how it ended, the sessions used. */
  datatype MainResult = MainResult(retry: nat, waits: seq<int>, completion: Completion, used: nat)

  function SessionOutcomeOf(session: Session): SessionOutcome
  {
    if session.loginError.Some? then LoginFailed("Failed to connect to email server: " + session.loginError.value)
    else if FirstCritical(session.polls).Some? then Reconnecting
    else SessionInterrupted
  }

  /** The handler's state after one session: a failed login changes nothing; the dedup set carries over. */
  function SessionState(s: HandlerState, session: Session, minutesToWait: int): HandlerState
  {
    if session.loginError.Some? then s else RunLoop(s, true, 0, session.polls, minutesToWait).state
  }

  /** The `asyncio.sleep` pauses of one session's polling loop; a failed login polls nothing. */
  function SessionPauses(s: HandlerState, session: Session, minutesToWait: int, interval: int): seq<int>
  {
    if session.loginError.Some? then []
    else Repeat(interval, Pauses(RunLoop(s, true, 0, session.polls, minutesToWait)))
  }

  function Pow2(n: nat): (r: nat)
    ensures r >= 1
  {
    if n == 0 then 1 else 2 * Pow2(n - 1)
  }

  /** The wait after the `k+1`-th failed login in a row: `check_interval * 2^k` seconds. */
  function Backoff(interval: int, k: nat): int
  {
    interval * Pow2(k)
  }

  /** Records waits taken before the rest of a run. */
  function After(waits: seq<int>, used: nat, r: MainResult): MainResult
  {
    r.(waits := waits + r.waits, used := used + r.used)
  }

  /** The end of one iteration of `_run_main_loop`: the new count, the wait taken, and whether the loop stops. */
  datatype TurnEnd = TurnEnd(retry: nat, waits: seq<int>, stop: Option<Completion>)

  /**
   * One iteration of `_run_main_loop`: a session that ran resets the count, a failed
   * login increments it and waits `check_interval * 2^(count-1)` seconds, and the
   * failure that reaches `max_retry_attempts` ends the process with exit code 0.
   */
  function Turn(retry: nat, maxRetry: int, interval: int, outcome: SessionOutcome): TurnEnd
  {
    match outcome
    case Reconnecting => TurnEnd(0, [], None)
    case SessionInterrupted => TurnEnd(retry, [], Some(UserStopped))
    case LoginFailed(_) =>
      if retry + 1 >= maxRetry then TurnEnd(retry + 1, [], Some(Exited(0)))
      else TurnEnd(retry + 1, [Backoff(interval, retry)], None)
  }

  /** `_run_main_loop` from a given `_retry_count`, over the sessions granted from index `i` on. */
  function MainLoop(retry: nat, maxRetry: int, interval: int, sessions: seq<Session>, i: nat): MainResult
    decreases |sessions| - i
  {
    if retry >= maxRetry then MainResult(retry, [], Returned, 0)
    else if i >= |sessions| then MainResult(retry, [], UserStopped, 0)
    else
      var t := Turn(retry, maxRetry, interval, SessionOutcomeOf(sessions[i]));
      if t.stop.Some? then MainResult(t.retry, [], t.stop.value, 1)
      else After(t.waits, 1, MainLoop(t.retry, maxRetry, interval, sessions, i + 1))
  }

  /** `n` failed logins in a row starting at index `j`. */
  predicate FailureRun(sessions: seq<Session>, j: nat, n: nat)
  {
    j + n <= |sessions| && forall t :: j <= t < j + n ==> sessions[t].loginError.Some?
  }

  /** One iteration of the main loop, seen from the whole run: `taken` waits and `used` sessions so far. */
  lemma MainStep(retry: nat, maxRetry: int, interval: int, sessions: seq<Session>, i: nat,
                 taken: seq<int>, used: nat)
    requires retry < maxRetry && i < |sessions|
    ensures var t := Turn(retry, maxRetry, interval, SessionOutcomeOf(sessions[i]));
      After(taken, used, MainLoop(retry, maxRetry, interval, sessions, i))
      == if t.stop.Some? then MainResult(t.retry, taken, t.stop.value, used + 1)
         else After(taken + t.waits, used + 1, MainLoop(t.retry, maxRetry, interval, sessions, i + 1))
  {
    var t := Turn(retry, maxRetry, interval, SessionOutcomeOf(sessions[i]));
    var rest := MainLoop(t.retry, maxRetry, interval, sessions, i + 1);
    assert taken + (t.waits + rest.waits) == (taken + t.waits) + rest.waits;
    assert taken + [] == taken;
  }

  /** What `start` reports once the main loop has ended: the interrupt is caught and logged. */
  function Finish(c: Completion): Completion
  {
    if c.UserStopped? then Returned else c
  }

  // ---------------------------------------------------------------------------
  // Properties of the back-off

  /** With a positive retry limit the main loop never falls through: it exits or is interrupted. */
  lemma {:induction false} MainLoopNeverFallsThrough(retry: nat, maxRetry: int, interval: int,
                                                     sessions: seq<Session>, i: nat)
    requires retry < maxRetry
    ensures MainLoop(retry, maxRetry, interval, sessions, i).completion != Returned
    ensures MainLoop(retry, maxRetry, interval, sessions, i).completion.Exited? ==>
      MainLoop(retry, maxRetry, interval, sessions, i).completion.code == 0
    decreases |sessions| - i
  {
    if i < |sessions| {
      match SessionOutcomeOf(sessions[i])
      case Reconnecting => MainLoopNeverFallsThrough(0, maxRetry, interval, sessions, i + 1);
      case SessionInterrupted =>
      case LoginFailed(_) =>
        if retry + 1 < maxRetry {
          MainLoopNeverFallsThrough(retry + 1, maxRetry, interval, sessions, i + 1);
        }
    }
  }

  /** The count never passes the limit, and it reaches the limit exactly when the process exits with code 0. */
  lemma {:induction false} RetryCountBounded(retry: nat, maxRetry: int, interval: int, sessions: seq<Session>, i: nat)
    requires retry < maxRetry
    ensures var r := MainLoop(retry, maxRetry, interval, sessions, i);
      r.retry <= maxRetry && (r.retry == maxRetry <==> r.completion == Exited(0))
    decreases |sessions| - i
  {
    if i < |sessions| {
      match SessionOutcomeOf(sessions[i])
      case Reconnecting => RetryCountBounded(0, maxRetry, interval, sessions, i + 1);
      case SessionInterrupted =>
      case LoginFailed(_) =>
        if retry + 1 < maxRetry {
          RetryCountBounded(retry + 1, maxRetry, interval, sessions, i + 1);
        }
    }
  }

  /**
   * `maxRetry - retry` failed logins in a row end the process with exit code 0 after
   * waits that double from `interval * 2^retry`; with `retry == 0` these are
   * `interval, 2 * interval, 4 * interval, ...`.
   */
  lemma {:induction false} ConsecutiveFailuresExit(retry: nat, maxRetry: int, interval: int,
                                                   sessions: seq<Session>, i: nat)
    requires retry < maxRetry
    requires FailureRun(sessions, i, maxRetry - retry)
    ensures var r := MainLoop(retry, maxRetry, interval, sessions, i);
      && r.completion == Exited(0) && r.retry == maxRetry && r.used == maxRetry - retry
      && |r.waits| == maxRetry - retry - 1
      && forall j :: 0 <= j < |r.waits| ==> r.waits[j] == Backoff(interval, retry + j)
    decreases maxRetry - retry
  {
    assert sessions[i].loginError.Some?;
    if retry + 1 < maxRetry {
      ConsecutiveFailuresExit(retry + 1, maxRetry, interval, sessions, i + 1);
      var rest := MainLoop(retry + 1, maxRetry, interval, sessions, i + 1);
      var r := MainLoop(retry, maxRetry, interval, sessions, i);
      assert r.waits == [Backoff(interval, retry)] + rest.waits;
      forall j | 0 <= j < |r.waits| ensures r.waits[j] == Backoff(interval, retry + j) {
        if j > 0 {
          assert r.waits[j] == rest.waits[j - 1];
        }
      }
    }
  }

  /**
   * Exit code 0 comes only from failed logins in a row: the ones that finish the count
   * begun before this run, or `maxRetry` of them somewhere later in the run.
   */
  lemma {:induction false} ExitNeedsConsecutiveFailures(retry: nat, maxRetry: int, interval: int,
                                                        sessions: seq<Session>, i: nat)
    requires retry < maxRetry
    requires MainLoop(retry, maxRetry, interval, sessions, i).completion == Exited(0)
    ensures FailureRun(sessions, i, maxRetry - retry) || exists j: nat :: j >= i && FailureRun(sessions, j, maxRetry)
    decreases |sessions| - i
  {
    match SessionOutcomeOf(sessions[i])
    case Reconnecting =>
      ExitNeedsConsecutiveFailures(0, maxRetry, interval, sessions, i + 1);
    case LoginFailed(_) =>
      if retry + 1 < maxRetry {
        ExitNeedsConsecutiveFailures(retry + 1, maxRetry, interval, sessions, i + 1);
      }
  }

  /** `w` is one of the waits the back-off can produce under `maxRetry`. */
  ghost predicate IsBackoffWait(w: int, interval: int, maxRetry: int)
  {
    exists k: nat :: k < maxRetry - 1 && w == Backoff(interval, k)
  }

  /** Every back-off wait is `interval * 2^k` for some `k` below `maxRetry - 1`. */
  lemma {:induction false} WaitsAreDoublings(retry: nat, maxRetry: int, interval: int, sessions: seq<Session>, i: nat)
    ensures var r := MainLoop(retry, maxRetry, interval, sessions, i);
      forall w :: w in r.waits ==> IsBackoffWait(w, interval, maxRetry)
    decreases |sessions| - i
  {
    var r := MainLoop(retry, maxRetry, interval, sessions, i);
    if retry < maxRetry && i < |sessions| {
      match SessionOutcomeOf(sessions[i])
      case Reconnecting =>
        WaitsAreDoublings(0, maxRetry, interval, sessions, i + 1);
        assert r.waits == [] + MainLoop(0, maxRetry, interval, sessions, i + 1).waits;
      case SessionInterrupted =>
      case LoginFailed(_) =>
        if retry + 1 < maxRetry {
          WaitsAreDoublings(retry + 1, maxRetry, interval, sessions, i + 1);
          var rest := MainLoop(retry + 1, maxRetry, interval, sessions, i + 1);
          assert r.waits == [Backoff(interval, retry)] + rest.waits;
          var k: nat := retry;
          assert k < maxRetry - 1 && r.waits[0] == Backoff(interval, k);
          assert IsBackoffWait(r.waits[0], interval, maxRetry);
          forall w | w in r.waits ensures IsBackoffWait(w, interval, maxRetry) {
            if w != r.waits[0] {
              assert w in rest.waits;
            }
          }
        }
    }
  }

  // ---------------------------------------------------------------------------
  // Messages of the retry logic

  function AttemptFailedMessage(attempt: int, maxRetry: int, error: string): string
  {
    "❌ Failed to connect (attempt " + Decimal(attempt) + "/" + Decimal(maxRetry) + "): " + error
  }

  function GiveUpMessage(maxRetry: int): string
  {
    "💀 Maximum retry attempts (" + Decimal(maxRetry) + ") reached. Shutting down gracefully."
  }

  const StoppingMessage := "🛑 Netflix VerifyBot is stopping to prevent infinite loops and spam."

  function RetryingMessage(wait: int): string
  {
    "🔄 Retrying in " + Decimal(wait) + " seconds..."
  }

  function StartingMessage(interval: int): string
  {
    "🔄 Starting Netflix Autovalidator - checking every " + Decimal(interval) + " seconds"
  }

  function LoggingMessage(logPath: string, status: string): string
  {
    "📝 Logging to " + logPath + " and Telegram notifications " + status
  }

  const UserStopMessage := "🛑 Application stopped by user"
  const GoodbyeMessage := "👋 Netflix VerifyBot has stopped"

  // ---------------------------------------------------------------------------
  // The application object

  class NetflixVerifyBot {
    const config: Config
    const notifier: NotificationHandler
    const handler: EmailHandler
    /** `_retry_count`. */
    var retryCount: nat
    /** The back-off `asyncio.sleep` durations of `_run_main_loop`, in order. */
    var waits: seq<int>

    /** The handler shares the bot's notifier and configuration. */
    predicate Wired()
    {
      handler.notifier == notifier && handler.app == config.app && handler.email == config.email
    }

    constructor (config: Config, network: nat -> Reply)
      ensures this.config == config && Wired() && fresh(notifier) && fresh(handler)
      ensures notifier.telegram == config.telegram && notifier.logPath == config.app.logPath
      ensures retryCount == 0 && waits == [] && !handler.connected && handler.View() == HandlerState({}, {}, [], [])
    {
      this.config := config;
      var n := new NotificationHandler(config.telegram, config.app.logPath, network);
      notifier := n;
      handler := new EmailHandler(config.email, config.app, n);
      retryCount := 0;
      waits := [];
    }

    /** `_test_configuration`: the `ConfigError` it re-raises is returned. */
    method TestConfiguration() returns (err: Option<Failure>)
      modifies notifier`local, notifier`posts
      ensures err == ValidateConfig(config)
      ensures old(notifier.local) < notifier.local
      ensures notifier.local[|old(notifier.local)|] == LogEntry(Info, "Testing application configuration...")
      ensures err.Some? ==> LogEntry(Error, "❌ Configuration error: " + err.value.message) in notifier.local[|old(notifier.local)|..]
    {
      notifier.Log(Info, "Testing application configuration...");
      err := ValidateConfig(config);
      ghost var before := notifier.local;
      match err {
        case None => notifier.Log(Info, "✅ Configuration validation successful");
        case Some(e) =>
          notifier.Log(Error, "❌ Configuration error: " + e.message);
          LoggedAt(LogEntry(Error, "❌ Configuration error: " + e.message), |old(notifier.local)|, notifier.local, |before|);
      }
      Grown(old(notifier.local), before, notifier.local);
    }

    method ShowStartupInfo()
      modifies notifier`local, notifier`posts
      ensures |notifier.local| >= |old(notifier.local)| + 2 && old(notifier.local) < notifier.local
      ensures notifier.local[|old(notifier.local)|] == LogEntry(Info, StartingMessage(config.app.checkInterval))
      ensures LogEntry(Info, LoggingMessage(config.app.logPath, TelegramStatus(notifier.telegram)))
        in notifier.local[|old(notifier.local)|..]
    {
      notifier.Log(Info, StartingMessage(config.app.checkInterval));
      var status := notifier.GetTelegramStatus();
      ghost var before := notifier.local;
      notifier.Log(Info, LoggingMessage(config.app.logPath, status));
      Grown(old(notifier.local), before, notifier.local);
      LoggedAt(LogEntry(Info, LoggingMessage(config.app.logPath, status)), |old(notifier.local)|, notifier.local, |before|);
    }

    /** `_run_email_loop`: connect, poll until a break or the interrupt, and always disconnect. */
    method RunEmailSession(session: Session) returns (outcome: SessionOutcome)
      requires Wired()
      modifies handler`connected, handler`processed, handler`archived, handler`moves, handler`browser, handler`pauses, notifier`local, notifier`posts
      ensures outcome == SessionOutcomeOf(session)
      ensures !handler.connected
      ensures handler.View() == SessionState(old(handler.View()), session, config.app.minutesToWait)
      ensures handler.pauses == old(handler.pauses)
        + SessionPauses(old(handler.View()), session, config.app.minutesToWait, config.app.checkInterval)
      ensures old(notifier.local) <= notifier.local
    {
      var err := handler.Connect(session.loginError);
      ghost var log1 := notifier.local;
      if err.Some? {
        handler.Disconnect(session.logoutError);
        Grown(old(notifier.local), log1, notifier.local);
        return LoginFailed(err.value);
      }
      var exit := handler.RunEmailLoop(session.polls);
      Grown(old(notifier.local), log1, notifier.local);
      LoopBreaksAtFirstCritical(old(handler.View()), 0, session.polls, config.app.minutesToWait);
      ghost var log2 := notifier.local;
      handler.Disconnect(session.logoutError);
      Grown(old(notifier.local), log2, notifier.local);
      outcome := if exit.Reconnect? then Reconnecting else SessionInterrupted;
    }

    /**
     * The `except` block of `_run_main_loop`: count the failure, then give up at the limit
     * or wait `check_interval * 2^(count-1)` seconds.
     */
    method RetryAfterFailure(error: string) returns (giveUp: bool)
      modifies this`retryCount, this`waits, notifier`local, notifier`posts
      ensures retryCount == old(retryCount) + 1
      ensures giveUp <==> retryCount >= config.app.maxRetryAttempts
      ensures waits == old(waits) + if giveUp then [] else [Backoff(config.app.checkInterval, old(retryCount))]
      ensures old(notifier.local) < notifier.local
      ensures notifier.local[|old(notifier.local)|]
        == LogEntry(Error, AttemptFailedMessage(retryCount, config.app.maxRetryAttempts, error))
      ensures giveUp ==>
        && LogEntry(Error, GiveUpMessage(config.app.maxRetryAttempts)) in notifier.local[|old(notifier.local)|..]
        && LogEntry(Error, StoppingMessage) in notifier.local[|old(notifier.local)|..]
      ensures !giveUp ==>
        LogEntry(Info, RetryingMessage(Backoff(config.app.checkInterval, old(retryCount)))) in notifier.local[|old(notifier.local)|..]
    {
      var failures := retryCount;
      retryCount := failures + 1;
      notifier.Log(Error, AttemptFailedMessage(retryCount, config.app.maxRetryAttempts, error));
      ghost var log1 := notifier.local;
      ghost var mid := |notifier.local|;
      if retryCount >= config.app.maxRetryAttempts {
        ReportGiveUp();
        Grown(old(notifier.local), log1, notifier.local);
        LoggedSince(LogEntry(Error, GiveUpMessage(config.app.maxRetryAttempts)), |old(notifier.local)|, mid, notifier.local);
        LoggedSince(LogEntry(Error, StoppingMessage), |old(notifier.local)|, mid, notifier.local);
        return true;
      }
      var wait := Backoff(config.app.checkInterval, failures);
      notifier.Log(Info, RetryingMessage(wait));
      Grown(old(notifier.local), log1, notifier.local);
      LoggedAt(LogEntry(Info, RetryingMessage(wait)), |old(notifier.local)|, notifier.local, mid);
      waits := waits + [wait];
      giveUp := false;
    }

    /** The two farewell lines logged when the retry limit is reached. */
    method ReportGiveUp()
      modifies notifier`local, notifier`posts
      ensures old(notifier.local) < notifier.local
      ensures LogEntry(Error, GiveUpMessage(config.app.maxRetryAttempts)) in notifier.local[|old(notifier.local)|..]
      ensures LogEntry(Error, StoppingMessage) in notifier.local[|old(notifier.local)|..]
    {
      notifier.Log(Error, GiveUpMessage(config.app.maxRetryAttempts));
      LoggedAt(LogEntry(Error, GiveUpMessage(config.app.maxRetryAttempts)), |old(notifier.local)|, notifier.local, |old(notifier.local)|);
      ghost var before, at := notifier.local, |notifier.local|;
      notifier.Log(Error, StoppingMessage);
      Grown(old(notifier.local), before, notifier.local);
      LoggedAt(LogEntry(Error, StoppingMessage), |old(notifier.local)|, notifier.local, at);
      StillLogged(LogEntry(Error, GiveUpMessage(config.app.maxRetryAttempts)), |old(notifier.local)|, before, notifier.local);
    }

    /** One iteration of `_run_main_loop`'s `while` loop; `stop` carries how the loop ends, if it does. */
    method RunTurn(session: Session) returns (stop: Option<Completion>)
      requires Wired()
      modifies this`retryCount, this`waits, handler`connected, handler`processed, handler`archived, handler`moves, handler`browser, handler`pauses, notifier`local, notifier`posts
      ensures var t := Turn(old(retryCount), config.app.maxRetryAttempts, config.app.checkInterval, SessionOutcomeOf(session));
        stop == t.stop && retryCount == t.retry && waits == old(waits) + t.waits
      ensures !handler.connected
      ensures handler.View() == SessionState(old(handler.View()), session, config.app.minutesToWait)
      ensures handler.pauses == old(handler.pauses)
        + SessionPauses(old(handler.View()), session, config.app.minutesToWait, config.app.checkInterval)
      ensures old(notifier.local) <= notifier.local
    {
      var outcome := RunEmailSession(session);
      ghost var log1 := notifier.local;
      match outcome {
        case Reconnecting =>
          retryCount := 0;
          stop := None;
        case SessionInterrupted =>
          stop := Some(UserStopped);
        case LoginFailed(e) =>
          var giveUp := RetryAfterFailure(e);
          stop := if giveUp then Some(Exited(0)) else None;
      }
      Grown(old(notifier.local), log1, notifier.local);
    }

    /** `_run_main_loop` over the sessions the server grants before the operator's interrupt. */
    method RunMainLoop(sessions: seq<Session>) returns (c: Completion)
      requires Wired()
      modifies this`retryCount, this`waits, handler`connected, handler`processed, handler`archived, handler`moves, handler`browser, handler`pauses, notifier`local, notifier`posts
      ensures var r := MainLoop(old(retryCount), config.app.maxRetryAttempts, config.app.checkInterval, sessions, 0);
        && c == r.completion && retryCount == r.retry && waits == old(waits) + r.waits
        && r.used <= |sessions|
      ensures old(notifier.local) <= notifier.local
    {
      ghost var total := MainLoop(retryCount, config.app.maxRetryAttempts, config.app.checkInterval, sessions, 0);
      ghost var taken: seq<int> := [];
      var i := 0;
      while retryCount < config.app.maxRetryAttempts
        invariant 0 <= i <= |sessions| && waits == old(waits) + taken
        invariant old(notifier.local) <= notifier.local
        invariant After(taken, i, MainLoop(retryCount, config.app.maxRetryAttempts, config.app.checkInterval, sessions, i))
          == total
        decreases |sessions| - i
      {
        if i == |sessions| {
          return UserStopped;
        }
        MainStep(retryCount, config.app.maxRetryAttempts, config.app.checkInterval, sessions, i, taken, i);
        ghost var t := Turn(retryCount, config.app.maxRetryAttempts, config.app.checkInterval, SessionOutcomeOf(sessions[i]));
        ghost var log0 := notifier.local;
        var stop := RunTurn(sessions[i]);
        Grown(old(notifier.local), log0, notifier.local);
        if stop.Some? {
          assert total == MainResult(t.retry, taken, t.stop.value, i + 1);
          return stop.value;
        }
        taken := taken + t.waits;
        i := i + 1;
      }
      c := Returned;
    }

    /** `_cleanup`: disconnect (a no-op once every session has disconnected) and say goodbye. */
    method Cleanup()
      requires Wired()
      modifies handler`connected, notifier`local, notifier`posts
      ensures !handler.connected
      ensures old(notifier.local) < notifier.local
      ensures LogEntry(Info, GoodbyeMessage) in notifier.local[|old(notifier.local)|..]
    {
      handler.Disconnect(None);
      ghost var before := notifier.local;
      notifier.Log(Info, GoodbyeMessage);
      Grown(old(notifier.local), before, notifier.local);
      LoggedAt(LogEntry(Info, GoodbyeMessage), |old(notifier.local)|, notifier.local, |before|);
    }

    /**
     * `start`: an invalid configuration ends the process with code 1; otherwise the main
     * loop runs, the interrupt is logged and swallowed, and cleanup always runs.
     */
    method Start(sessions: seq<Session>) returns (c: Completion)
      requires Wired()
      modifies this`retryCount, this`waits, handler`connected, handler`processed, handler`archived, handler`moves, handler`browser, handler`pauses, notifier`local, notifier`posts
      ensures !handler.connected
      ensures old(notifier.local) < notifier.local
      ensures ValidateConfig(config).Some? ==>
        && c == Exited(1) && handler.View() == old(handler.View()) && handler.pauses == old(handler.pauses)
        && LogEntry(Error, "💀 Fatal error: " + ValidateConfig(config).value.message) in notifier.local[|old(notifier.local)|..]
      ensures ValidateConfig(config).None? ==>
        c == Finish(MainLoop(old(retryCount), config.app.maxRetryAttempts, config.app.checkInterval, sessions, 0).completion)
      ensures ValidateConfig(config).None?
        && MainLoop(old(retryCount), config.app.maxRetryAttempts, config.app.checkInterval, sessions, 0).completion == UserStopped
        ==> LogEntry(Info, UserStopMessage) in notifier.local[|old(notifier.local)|..]
      ensures LogEntry(Info, GoodbyeMessage) in notifier.local[|old(notifier.local)|..]
    {
      var err := TestConfiguration();
      ghost var log1 := notifier.local;
      if err.Some? {
        notifier.Log(Error, "💀 Fatal error: " + err.value.message);
        LoggedAt(LogEntry(Error, "💀 Fatal error: " + err.value.message), |old(notifier.local)|, notifier.local, |log1|);
        ghost var log2 := notifier.local;
        Grown(old(notifier.local), log1, log2);
        Cleanup();
        Grown(old(notifier.local), log2, notifier.local);
        StillLogged(LogEntry(Error, "💀 Fatal error: " + err.value.message), |old(notifier.local)|, log2, notifier.local);
        LoggedSince(LogEntry(Info, GoodbyeMessage), |old(notifier.local)|, |log2|, notifier.local);
        return Exited(1);
      }
      ShowStartupInfo();
      Grown(old(notifier.local), log1, notifier.local);
      ghost var log2 := notifier.local;
      var done := RunMainLoop(sessions);
      Grown(old(notifier.local), log2, notifier.local);
      ghost var log3 := notifier.local;
      if done.UserStopped? {
        notifier.Log(Info, UserStopMessage);
        LoggedAt(LogEntry(Info, UserStopMessage), |old(notifier.local)|, notifier.local, |log3|);
      }
      Grown(old(notifier.local), log3, notifier.local);
      ghost var log4 := notifier.local;
      Cleanup();
      Grown(old(notifier.local), log4, notifier.local);
      if done.UserStopped? {
        StillLogged(LogEntry(Info, UserStopMessage), |old(notifier.local)|, log4, notifier.local);
      }
      LoggedSince(LogEntry(Info, GoodbyeMessage), |old(notifier.local)|, |log4|, notifier.local);
      c := Finish(done);
    }
  }

  /**
   * `main`: load the configuration from the environment and run the bot. Returns the
   * process exit code and what was printed to the console.
   */
  method RunApplication(env: Env, network: nat -> Reply, sessions: seq<Session>) returns (code: int, console: seq<string>)
    ensures code == if LoadConfig(env).Ok? && ValidateConfig(LoadConfig(env).value).None? then 0 else 1
    ensures LoadConfig(env).Err? ==> console == [
      (if LoadConfig(env).error.ConfigError? then "❌ Configuration error: " else "❌ Fatal error: ")
      + LoadConfig(env).error.message]
    ensures LoadConfig(env).Ok? ==> console == []
  {
    var loaded := LoadConfig(env);
    if loaded.Err? {
      match loaded.error {
        case ConfigError(m) => return 1, ["❌ Configuration error: " + m];
        case ValueError(m) => return 1, ["❌ Fatal error: " + m];
      }
    }
    var config := loaded.value;
    var bot := new NetflixVerifyBot(config, network);
    var done := bot.Start(sessions);
    if ValidateConfig(config).None? {
      StartEndsCleanly(config, sessions);
    }
    code := if done.Exited? then done.code else 0;
    console := [];
  }

  /** With a validated configuration `start` ends normally or through `sys.exit(0)`. */
  lemma StartEndsCleanly(c: Config, sessions: seq<Session>)
    requires ValidateConfig(c).None?
    ensures var done := Finish(MainLoop(0, c.app.maxRetryAttempts, c.app.checkInterval, sessions, 0).completion);
      done == Returned || done == Exited(0)
  {
    assert c.app.maxRetryAttempts > 0;
    MainLoopNeverFallsThrough(0, c.app.maxRetryAttempts, c.app.checkInterval, sessions, 0);
  }
}
