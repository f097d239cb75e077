# Netflix VerifyBot, modelled in Dafny

Netflix VerifyBot watches an IMAP inbox for Netflix verification mail. It handles each
new message by the first rule that applies:

- It skips a message it has already seen. A message's fingerprint is `uid_date_subject`,
  or the uid alone.
- It archives old, read mail to the "Gelesen" folder.
- It handles the three kinds of Netflix message:
  - account access: reports the four-digit code from the message's table cell;
  - travel verification: has a browser read the code behind the link;
  - primary-location update: has a browser click the confirmation.

  Each of these branches then archives the message.

Each message the bot logs through `log_info`, `log_warning` or `log_error` is also broadcast
to a Telegram relay. The notes the notifier writes straight to its logger, about a failed
send or the connection test, are not. A reconnect loop
with exponential back-off wraps the mailbox session, and the configuration comes from
environment variables.

The project models the four pieces of that logic. External effects become inputs or
recorded traces:

| module | file | form |
|---|---|---|
| `Config` | `config.dfy` | Pure functions over the environment map for `load_config` and `validate_config` (config.py). |
| `Notifications` | `notifications.dfy` | Class `NotificationHandler` (notifications.py). Its fields are traces: the logger's entries, the POSTs issued, the `print` fallback. The relay's answer to the k-th POST is the input `network(k)`. |
| `Extract` | `extract.dfy` | The two pure extractors of email_handler.py: the link cut at the next `"`, and the code found by `<td[^>]*>\s*(\d{4})\s*</td>`, with a greedy matcher proved equal to the pattern. |
| `Mail` | `mail.dfy` | `EmailHandler` (email_handler.py), in two parts: specification functions (`Process`, `Batch`, `Check`, `RunLoop`), and a class whose methods are proved against them. It mutates the processed set, the archive, the move log, the browser calls and the sleep durations. |
| `Bot` | `bot.dfy` | Class `NetflixVerifyBot` (app.py): `start`, the retry loop `_run_main_loop` proved against `MainLoop`, `_run_email_loop`, `_cleanup`, and `main` as `RunApplication`. |
| `Text`, `Wrappers` | `text.dfy`, `wrappers.dfy` | Python string operations the code relies on (`find`, `in`, `lower`, `int()`, `str(int)`), plus `Option`/`Result`. |

The mail server, the browser and the relay answer through input values:

- A `Session` is one connection attempt: the login error, the polls served, the logout error.
- A `Poll` is one `check_emails` call: the clock reading and the fetched `Delivery` items, then the exception that ended the fetch, if any.
- A `Delivery` is one message plus the answers given while it is handled: the exception it raises, the scraped code, the confirmation result, the move error.

The endless loops run over finite input sequences. When those run out, the model treats it as the operator's Ctrl-C.

Behaviour of the code worth noting:

- The travel-verification and location-update branches archive the message whether or
  not the browser step succeeded (email_handler.py:247-252 and 273-278).
- No voluntary connection-age refresh exists anywhere in the code, and `AppConfig` has no field for one.
- `run_email_loop` catches `EmailProcessingError` and breaks (email_handler.py:374-378).
  So a session whose polling fails returns normally, and `_run_main_loop` resets the
  retry count. Only a failed login (`EmailConnectionError`) counts as an attempt.
- A message that carries a marker but lacks the full `https://www.netflix.com/...` link is
  still fingerprinted, though nothing was done with it (email_handler.py:143-151).

## Model

| member | source | states |
|---|---|---|
| `Config.Getenv` | config.py:99-101 | `os.getenv(name)` is present exactly when the variable is set, and then it is the variable's value. |
| `Config.GetenvOr` | config.py:102 | `os.getenv(name, default)` is the default when the variable is unset, and the variable's value otherwise. |
| `Config.LoadEmailConfig` | config.py:97-120 | The load succeeds exactly when EMAIL, PASSWORD and IMAP_SERVER are set and non-empty and IMAP_PORT (default "993") parses as an integer. Every failure is a `ConfigError`. On success the fields are the variables' values and the parsed port. |
| `Config.LoadTelegramConfig` | config.py:123-139 | The four fields are the four lookups. `enabled` holds exactly when all four variables are set and non-empty. |
| `Config.LoadAppConfig` | config.py:142-156 | The load succeeds exactly when CHECK_INTERVAL, MINUTES_TO_WAIT and MAX_RETRY_ATTEMPTS (defaults "3", "900", "3") parse. A failure is a bare `ValueError`, never a `ConfigError`. On success each of the three settings is what `int()` reads from its variable or default, and the log path and folder are the variables or their defaults. |
| `Config.LoadConfig` | config.py:65-94 | Email settings are loaded first, and their error wins. Then the application settings' error. Otherwise the result assembles the three parts. |
| `Config.ValidateConfig` | config.py:159-198 | Passes exactly when every condition of `Acceptable` holds: address with `@`, password, server, port in 1..65535, the three positive settings, and for enabled Telegram an http(s) URL and a key of at least 10 characters. Every failure is a `ConfigError`. A bad address is reported as "Invalid email address". |
| `Config.DisabledTelegramIgnored` | config.py:193-198 | With Telegram disabled, its fields never change the outcome of validation. |
| `Config.EmailCheckedFirst` | config.py:170-171 | A bad address is the error reported, whatever the port and interval are. |
| `Config.PortCheckedBeforeAppSettings` | config.py:176-190 | A bad port is reported before any application setting is looked at. |
| `Config.AppDefaults` | config.py:144-148 | With the variables unset, the settings are 3, 900, 3, "netflix-validator.log" and "Gelesen". |
| `Config.EmailPortRead` | config.py:102-108 | An unset IMAP_PORT gives port 993, and a port written in decimal is read back exactly. |
| `Config.EmailPortMalformed` | config.py:104-110 | With the three required variables set, any IMAP_PORT that `int()` rejects fails with the `ConfigError` that quotes the text. |
| `Config.WordPortRejected` | config.py:107-110 | `int()` rejects a word such as "imap", so the port error above applies to it. |
| `Text.FindFrom` | email_handler.py:292 | `str.find` returns the first index at or after the start where the needle occurs, and `None` only when it occurs nowhere there. |
| `Text.ParseDecimal` | config.py:108 | `int()` reads back the decimal rendering of every integer. |
| `Text.SeparatorIsWhitespace` | config.py:108 | `int()` skips the information separators 0x1C-0x1F as whitespace: "993\x1c" reads as 993. |
| `Notifications.Output` | notifications.py:49-56 | With the logger's INFO threshold, the output never holds a DEBUG entry and is never longer than the entries. |
| `Notifications.OutputMembers` | notifications.py:49-56 | An entry reaches the output exactly when it was logged at INFO, WARNING or ERROR. |
| `Notifications.OutputKeepsOrder` | notifications.py:49-56 | The output of two runs of entries is the output of the first followed by that of the second: order is kept. |
| `Notifications.TelegramRequest` | notifications.py:150-167 | The POST goes to `api_url`. Its headers are `X-API-Key` (the key) and `Content-Type: application/json`. Its body is exactly `message`, `channel_name` and `channel_secret`. |
| `Notifications.RouteOf` | notifications.py:108-118 | A level goes to the logger exactly when it is INFO, WARNING, ERROR or DEBUG. |
| `Notifications.TelegramStatus` | notifications.py:211-214 | The status is "disabled" exactly when Telegram is disabled. Otherwise it is "enabled for channel " followed by the channel name. |
| `Notifications.NotificationHandler.constructor` | notifications.py:24-34 | A new handler has empty log, request and print traces. |
| `Notifications.NotificationHandler.SendTelegramMessage` | notifications.py:137-170 | When disabled: no request, and the result is `None`. Otherwise: exactly one POST of `TelegramRequest`. A 200 reply yields its JSON, another status `None`, an exception a `NotificationError`. |
| `Notifications.NotificationHandler.BroadcastToTelegram` | notifications.py:120-135 | Issues the send's requests. A `None` reply adds one local WARNING and an exception one local ERROR. Nothing is re-broadcast and nothing raises. |
| `Notifications.NotificationHandler.LogInfo` | notifications.py:60-68 | Writes one INFO entry, then broadcasts, with the broadcast's requests and notes. |
| `Notifications.NotificationHandler.LogWarning` | notifications.py:70-78 | Writes one WARNING entry, then broadcasts. |
| `Notifications.NotificationHandler.LogError` | notifications.py:80-88 | Writes one ERROR entry, then broadcasts. |
| `Notifications.NotificationHandler.LogDebug` | notifications.py:90-98 | Writes one DEBUG entry: no request and no print. |
| `Notifications.NotificationHandler.Log` | notifications.py:60-98 | Every `log_<level>` call makes its message the next local entry at that level, followed only by the broadcast's notes. The requests are those of the broadcast (none for DEBUG). Earlier entries and requests are kept and nothing is printed. |
| `Notifications.NotificationHandler.LogAndBroadcast` | notifications.py:100-118 | The four level names dispatch to the matching method. Any other level only prints `[level] message`: no log entry and no request. |
| `Notifications.NotificationHandler.TestTelegramConnection` | notifications.py:172-202 | Returns true exactly for `TelegramUsable`: enabled, a key of at least 10 characters, an http(s) URL, and a channel name and secret. It writes one local entry, ERROR for a failed enabled check and INFO otherwise, and sends nothing. |
| `Notifications.NotificationHandler.GetTelegramStatus` | notifications.py:204-214 | Returns the handler's `TelegramStatus` (see above). |
| `Notifications.BroadcastFailureSwallowed` | notifications.py:127-135 | A non-DEBUG log call with Telegram enabled makes exactly one POST, whatever the reply. A failed send adds exactly one extra local WARNING or ERROR entry, and only then. |
| `Notifications.DisabledIsLocalOnly` | notifications.py:127-128 | With Telegram disabled, each log call is one local entry and no request. |
| `Notifications.DebugIsSilent` | notifications.py:90-98 | A DEBUG entry never reaches the logger's output. |
| `Notifications.RoutedBroadcast` | notifications.py:108-118 | Through `log_and_broadcast`, exactly the INFO, WARNING and ERROR levels reach Telegram. |
| `Notifications.ValidatedTelegramUsable` | notifications.py:179-198 | For a configuration that passed `validate_config`, the connection test succeeds exactly when Telegram is enabled. |
| `Notifications.ShortKeyUnusable` | notifications.py:185-187 | A key shorter than 10 characters fails the connection test. |
| `Extract.ExtractNetflixUrl` | email_handler.py:280-302 | Returns `None` exactly when the base is absent or no `"` follows its first occurrence. Otherwise it returns the text from that occurrence up to the next `"`: the text holds no quote, is followed by one, and starts with the base. |
| `Extract.UrlOfQuotedLink` | email_handler.py:291-300 | In `pre + base + tail + '"' + post`, where the base does not occur earlier, the URL is `base + tail`. |
| `Extract.CellAtDecides` | email_handler.py:317 | The greedy scan at a position returns a code exactly when the pattern matches there with that group. |
| `Extract.ExtractVerificationCode` | email_handler.py:304-320 | A code found is four digits. |
| `Extract.FindCellLeftmost` | email_handler.py:317-318 | Scanning from a position returns the group of the leftmost match, or `None` when nothing matches from there. |
| `Extract.ExtractVerificationCodeIsLeftmost` | email_handler.py:317-318 | The code is the group of the leftmost match. `None` holds exactly when the pattern matches nowhere. |
| `Extract.FiveDigitCellNeverMatches` | email_handler.py:317 | A cell whose digit run is longer than four admits no match. |
| `Extract.CodeOfCell` | email_handler.py:317-318 | `<td ATTRS> CODE </td>` with surrounding whitespace yields CODE. |
| `Extract.FiveDigitCellYieldsNothing` | email_handler.py:317-318 | `<td>12345</td>` yields no code. |
| `Mail.ShouldMoveOldEmail` | email_handler.py:153-171 | False without a date. With a date, true exactly when `now - date` exceeds `minutes_to_wait` seconds and `\Seen` is among the flags. |
| `Mail.Fingerprint` | email_handler.py:129 | The key starts with the uid. It is `uid_...` when uid, date and subject are all present, and the uid alone otherwise. |
| `Mail.Classify` | email_handler.py:143-151 | First match wins: account access exactly when its marker occurs, and travel verification exactly when its marker occurs without the first. No branch applies exactly when none of the three markers occurs. |
| `Mail.DuplicateIgnored` | email_handler.py:129-132 | A message whose fingerprint is already processed changes nothing. |
| `Mail.AgedOutWithoutClassification` | email_handler.py:137-140 | An old, read message that is not yet fingerprinted is moved with the age reason and fingerprinted. No link is sought. It is archived only if the server moved it. |
| `Mail.AgeRuleNeedsDateAndSeen` | email_handler.py:164-171 | Without a date, without `\Seen`, or not older than `minutes_to_wait` seconds, the age rule does not fire. |
| `Mail.UnrecognisedUntouched` | email_handler.py:143-151 | A body with none of the three markers is neither moved nor fingerprinted. |
| `Mail.MarkerWithoutLinkOnlyFingerprinted` | email_handler.py:143-151 | A marker without its full link adds the fingerprint and changes nothing else. |
| `Mail.LinkFoundMeansMoved` | email_handler.py:205-278 | Once the link is found, exactly one move is recorded for the message and the fingerprint is added. The code, scrape and click results change none of archive, dedup set or browser calls. |
| `Mail.AccountAccessFirst` | email_handler.py:143-145 | An account-access body never reaches the browser, even if it names other links too. |
| `Mail.BenignErrorIsSuccess` | email_handler.py:195-200 | A move error whose lower-cased text contains "already moved" or "not found" is logged as SUCCESS. |
| `Mail.UpperCaseBenign` | email_handler.py:195-200 | The check is made on the lower-cased text, so "Message NOT FOUND" also counts as SUCCESS. |
| `Mail.ArchiveGrowsByUid` | email_handler.py:173-203 | Handling a message archives at most its own uid and unarchives nothing. |
| `Mail.ProcessedGrowsByFingerprint` | email_handler.py:129-151 | Handling a message adds at most its own fingerprint and forgets none. |
| `Mail.BatchAppend` | email_handler.py:104-111 | A batch handled in two parts is handled as a whole. |
| `Mail.MalformedSkipped` | email_handler.py:105-111 | A message that raises is skipped, and the rest of the batch is handled as if it were absent. |
| `Mail.BatchProcessedBound` | email_handler.py:104-111 | After a batch, no fingerprint is forgotten, and every new one belongs to a delivered message. |
| `Mail.RepeatedDeliveryHandledOnce` | email_handler.py:128-132 | A message delivered twice in a batch is handled once. A later message with the same fingerprint changes nothing once the first was fingerprinted. |
| `Mail.CheckRaisesOnlyWhenCritical` | email_handler.py:97-118 | `check_emails` raises exactly when not connected, or when the fetch failed with "connection", "timeout" or "ssl" in any letter case. |
| `Mail.LoopAdvances` | email_handler.py:359-373 | A successful check moves the loop on to the rest of the polls, with the next count and the cleared set at the 100th check. |
| `Mail.LoopBreaks` | email_handler.py:374-378 | A check that raises ends the loop at that poll, after its batch. |
| `Mail.LoopBreaksAtFirstCritical` | email_handler.py:352-378 | A connected loop breaks exactly at the first critically failing poll, after one successful check per earlier poll. Without such a poll it runs until interrupted. |
| `Mail.LoopWithoutConnection` | email_handler.py:97-98 | Without a connection the loop breaks at once and changes nothing. |
| `Mail.LoopCountModulo` | email_handler.py:358-368 | `check_count` stays in [0, 100) and equals the successful checks modulo 100. |
| `Mail.LoopProcessedBound` | email_handler.py:363-368 | The dedup set holds only fingerprints of mail delivered during the run. It keeps the initial ones only while no 100th check has cleared it. |
| `Mail.EmailHandler.constructor` | email_handler.py:32-47 | A new handler is disconnected, with an empty processed set and empty traces. |
| `Mail.EmailHandler.IsConnected` | email_handler.py:86-88 | True exactly when the handler holds a logged-in mailbox. |
| `Mail.EmailHandler.Connect` | email_handler.py:49-73 | A failed login surfaces as "Failed to connect to email server: ...". A successful one connects. The first line logged names the server, port and address. |
| `Mail.EmailHandler.Disconnect` | email_handler.py:75-84 | Never fails and always leaves the handler disconnected. When connected it logs "Disconnected", or a warning naming the logout error. When already disconnected it logs and sends nothing. |
| `Mail.EmailHandler.LogEmailMoved` | email_handler.py:322-350 | Records the uid, reason and SUCCESS/FAILED status of a move, and logs the line that carries them. |
| `Mail.EmailHandler.MoveEmailToGelesen` | email_handler.py:173-203 | The new state is `Move`: the uid is archived only when connected and the server moved it. Exactly one move record is added, with status `MoveSucceeded`. The first line logged is `MoveEntry`: the "Cannot move email: not connected to mailbox" error, the moved line, or the failure line of `ReportMoveFailure`. |
| `Mail.EmailHandler.ReportMoveFailure` | email_handler.py:194-203 | A failed move records SUCCESS exactly for the benign errors, FAILED otherwise. Its first line is the DEBUG "already moved or not found" note for a benign error, else the ERROR "Failed to move email: " followed by the error. |
| `Mail.EmailHandler.ReportAccessCode` | email_handler.py:219-224 | Logs the code at INFO when one was found, and the "No verification code found" warning otherwise. |
| `Mail.EmailHandler.ProcessAccountAccessEmail` | email_handler.py:205-226 | The new state is `HandleKind` for account access: nothing without the link, otherwise a move, whether or not a code was found. Without the link nothing is logged. With it the first line logged is the link, and a code found is logged. |
| `Mail.EmailHandler.ProcessTravelVerifyEmail` | email_handler.py:228-252 | The new state is `HandleKind` for travel verification: the browser reads the link, then the message moves either way. Without the link nothing is logged. With it the first line logged is the link, and a code the browser returned is logged. |
| `Mail.EmailHandler.ProcessUpdateLocationEmail` | email_handler.py:254-278 | The new state is `HandleKind` for the location update: the browser clicks the link, then the message moves either way. Without the link nothing is logged. With it the first line logged is the link. |
| `Mail.EmailHandler.ProcessEmail` | email_handler.py:120-151 | The new state is `Process`: dedup, then the age rule, then the first matching marker. |
| `Mail.EmailHandler.CheckEmails` | email_handler.py:90-118 | The result is the `EmailProcessingError` given by `CheckError`. The new state is the whole batch, handled in order, and only when connected. When not connected nothing is logged. A non-critical fetch error is logged as a warning, and so is every message whose handling raised, with its subject and error. |
| `Mail.EmailHandler.WaitForNextCheck` | email_handler.py:370-373 | One pause of `check_interval` seconds is recorded. |
| `Mail.EmailHandler.ReportAndPause` | email_handler.py:374-377 | Logs the processing error first, then records one pause of `check_interval` seconds before the break. |
| `Mail.EmailHandler.CountCheck` | email_handler.py:363-368 | The count advances and stays below 100. The 100th check clears the processed set. |
| `Mail.EmailHandler.PollOnce` | email_handler.py:359-378 | One pass of the loop: the check's error, and the state of `Check`, then `Tick` and the next count when the check succeeded. One `check_interval` pause either way. |
| `Mail.EmailHandler.RunEmailLoop` | email_handler.py:352-378 | State and exit are those of `RunLoop`, and one `check_interval` pause is recorded per successful check and one before the break. |
| `Bot.MainStep` | app.py:94-118 | One iteration of the main loop: `Turn` followed by the rest of the run. |
| `Bot.MainLoopNeverFallsThrough` | app.py:92-118 | With a positive limit, the loop never ends by its condition: it exits with code 0 or is interrupted. |
| `Bot.RetryCountBounded` | app.py:94-113 | The count never exceeds `max_retry_attempts`, and reaches it exactly when the process exits with code 0. |
| `Bot.ConsecutiveFailuresExit` | app.py:100-118 | `max - k` failed logins in a row from count k exit with code 0 after `max - k - 1` waits. The j-th wait is `check_interval * 2^(k+j)`. |
| `Bot.ExitNeedsConsecutiveFailures` | app.py:94-113 | Exit code 0 comes only from a run of failed logins: the rest of the current count, or `max_retry_attempts` in a row. |
| `Bot.WaitsAreDoublings` | app.py:115-118 | Every back-off wait is `check_interval * 2^k` for some `k < max_retry_attempts - 1`. |
| `Bot.NetflixVerifyBot.constructor` | app.py:20-38 | The handlers share the configuration and the notifier. The retry count is 0 and the email handler is disconnected and empty. |
| `Bot.NetflixVerifyBot.TestConfiguration` | app.py:65-79 | Re-raises exactly the `ConfigError` of `validate_config`. It first logs "Testing application configuration...", and a failure is logged as "❌ Configuration error: ...". |
| `Bot.NetflixVerifyBot.ShowStartupInfo` | app.py:81-90 | Logs the starting line with the check interval first, and then the line with the log file and the Telegram status. |
| `Bot.NetflixVerifyBot.RunEmailSession` | app.py:120-126 | The outcome is a failed login, a reconnect break or the interrupt. The handler ends disconnected in every case. Its state is the session's `RunLoop` state, unchanged after a failed login. Its pauses are those of that run, and none after a failed login. |
| `Bot.NetflixVerifyBot.RetryAfterFailure` | app.py:100-118 | The count grows by one. It gives up exactly at `max_retry_attempts`, and otherwise waits `check_interval * 2^(count-1)` seconds. It first logs the failed attempt, then either the two shut-down lines or the "Retrying in ..." line. |
| `Bot.NetflixVerifyBot.ReportGiveUp` | app.py:106-112 | Logs the "Maximum retry attempts" and "stopping" lines. |
| `Bot.NetflixVerifyBot.RunTurn` | app.py:94-118 | One iteration: a session that returns resets the count, and a failed login goes through the back-off. The handler's state and pauses are the session's. |
| `Bot.NetflixVerifyBot.RunMainLoop` | app.py:92-118 | How the loop ends, the final count and the recorded waits are those of `MainLoop` over the sessions. |
| `Bot.NetflixVerifyBot.Cleanup` | app.py:128-134 | Disconnects, leaves the mail state alone, and logs the goodbye line. |
| `Bot.NetflixVerifyBot.Start` | app.py:40-63 | An invalid configuration exits with code 1, without touching the mail state, and the fatal error is logged. Otherwise: the main loop's end, with the interrupt swallowed and logged as a user stop. Cleanup always leaves the handler disconnected and logs the goodbye line. |
| `Bot.RunApplication` | app.py:137-152 | Exit code 0 exactly when the configuration loads and validates, otherwise 1. A load error prints "❌ Configuration error: " for a `ConfigError` and "❌ Fatal error: " otherwise. |
| `Bot.StartEndsCleanly` | app.py:40-63 | With a valid configuration, `start` returns normally or exits with code 0. |

## Left out

- The browser automation (web_scraper.py) is not part of this model. What it scraped or whether the click succeeded are inputs of each `Delivery`, and the browser is represented only by the calls recorded in `browser`.
- IMAP plumbing is reduced to inputs and an archived-uid set: `MailBox` login, fetch, move and logout, the SSL context, and the 30-second socket timeout. A login, logout or move error is an input string.
- `asyncio.sleep` and the clock: sleeps are recorded as durations, and the clock reading of each poll is an input in whole seconds. Timezones and `total_seconds()` fractions are not modelled.
- The fingerprint writes the date as its decimal second count, where Python writes `str(datetime)`. Dedup depends only on the key being injective enough, which both are for distinct dates.
- Python's Unicode `\d`, `\s`, `str.strip` and `str.lower` are modelled over ASCII only.
- `_log_email_moved`'s timestamp and received date depend on the wall clock. The model keeps the subject, sender, reason and SUCCESS/FAILED status. The unused `NotificationHandler.log_email_moved` is not modelled.
- Log file and directory creation, log formatting, the `requests` timeout and JSON decoding, and dotenv loading are not modelled. The environment is an input map.
- A message uid of `None` (fingerprint "None") is not modelled: uids are strings.
- The loops `while True` in `run_email_loop` and `_run_main_loop` are bounded by finite inputs. Running out of polls or sessions stands for the operator's interrupt.
- An exception raised by the logger itself, or partway through handling a message after some of its effects, is not modelled. A malformed message is skipped whole.
- The exact KeyboardInterrupt propagation through `asyncio.run` is not modelled. The interrupt reaches `start`, which logs it and returns.
- Bot.NetflixVerifyBot.RunMainLoop: states the count, the waits and how the loop ends, but not the mail handler's state across sessions. Each session's effect is stated by `RunTurn` and `RunEmailSession`.
- Bot.NetflixVerifyBot.RunMainLoop, Bot.NetflixVerifyBot.Start: the pauses of the polling loop inside each session are not restated across sessions. `RunTurn` and `RunEmailSession` state them per session.
- Log contents: the methods of `Mail` and `Bot` state the lines that carry their information (links, codes, move and processing errors, retries, the user stop and goodbye), not every DEBUG or status line. They never print, since they change only the notifier's entries and requests.
