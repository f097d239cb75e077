/**
 * Per-message dispatch of `EmailHandler` (email_handler.py), as pure specification
 * functions. The IMAP server is reduced to the batches it delivers and the set of
 * uids moved to the archive ("Gelesen") folder; the browser, the move command and
 * the message parser answer through the fields of `Delivery`.
 */
module Mail {
  import opened Wrappers
  import opened Text
  import opened Extract
  import opened Config
  import opened Notifications

  const AccountAccessMarker := "accountaccess"
  const TravelVerifyMarker := "travel/verify"
  const UpdateLocationMarker := "update-primary-location"
  const AccountAccessUrl := "https://www.netflix.com/accountaccess"
  const TravelVerifyUrl := "https://www.netflix.com/account/travel/verify"
  const UpdateLocationUrl := "https://www.netflix.com/account/update-primary-location"
  const SeenFlag := "\\Seen"
  const AgeReason := "Email older than 15 minutes AND read"
  const AccountAccessReason := "Netflix account access email processed"
  const CodeExtractedReason := "Netflix travel verification code extracted"
  const NoCodeReason := "Netflix travel verification email processed (no code found)"
  const ConfirmedReason := "Netflix update location confirmation clicked"
  const ConfirmationFailedReason := "Netflix update location email processed (confirmation failed)"

  /** A fetched message: its receipt date is in whole seconds, `None` when the header is missing. */
  datatype Message = Message(
    uid: string,
    sender: string,
    date: Option<int>,
    flags: seq<string>,
    subject: string,
    html: string,
    text: string)

  /**
   * One message as the handler meets it, with the answers of everything outside the
   * model while it is handled: an exception raised while reading it (`malformed`),
   * what the browser scraped or confirmed, and the error of the IMAP move, if any.
   */
  datatype Delivery = Delivery(
    msg: Message,
    malformed: Option<string>,
    scrapedCode: Option<string>,
    confirmed: bool,
    moveError: Option<string>)

  /** A `fetch(reverse=True)`: the messages delivered, then the exception that ended the iteration, if any. */
  datatype Fetch = Fetch(items: seq<Delivery>, failure: Option<string>)

  /** One poll cycle: the clock reading taken by `check_emails` and what the server delivered. */
  datatype Poll = Poll(now: int, fetch: Fetch)

  datatype BrowserCall = ReadCode(url: string) | ClickConfirm(url: string)

  /** What `_log_email_moved` records, without its wall-clock timestamp. */
  datatype MoveRecord = MoveRecord(uid: string, reason: string, success: bool)

  /** The handler's observable state apart from the connection and the logs. */
  datatype HandlerState = HandlerState(
    processed: set<string>,
    archived: set<string>,
    moves: seq<MoveRecord>,
    browser: seq<BrowserCall>)

  datatype Kind = AccountAccess | TravelVerify | UpdateLocation

  /** `msg.html or msg.text`. */
  function Body(m: Message): string
  {
    if m.html != "" then m.html else m.text
  }

  /** The dedup key: `uid_date_subject` when all three are present, else the uid alone. */
  function Fingerprint(m: Message): (r: string)
    ensures StartsWith(r, m.uid)
    ensures m.uid != "" && m.date.Some? && m.subject != "" ==> |r| > |m.uid| && r[|m.uid|] == '_'
    ensures !(m.uid != "" && m.date.Some? && m.subject != "") ==> r == m.uid
  {
    if m.uid != "" && m.date.Some? && m.subject != "" then
      m.uid + "_" + Decimal(m.date.value) + "_" + m.subject
    else m.uid
  }

  /** `_should_move_old_email`: older than `minutesToWait` seconds and flagged as seen. */
  predicate ShouldMoveOldEmail(m: Message, now: int, minutesToWait: int): (r: bool)
    ensures m.date.None? ==> !r
    ensures m.date.Some? ==> (r <==> now - m.date.value > minutesToWait && SeenFlag in m.flags)
  {
    m.date.Some? && now - m.date.value > minutesToWait && SeenFlag in m.flags
  }

  /** The markers, tried in this order; the first one in the body decides the branch. */
  function Classify(body: string): (k: Option<Kind>)
    ensures k == Some(AccountAccess) <==> Contains(body, AccountAccessMarker)
    ensures k == Some(TravelVerify) <==> !Contains(body, AccountAccessMarker) && Contains(body, TravelVerifyMarker)
    ensures k.None? <==>
      !Contains(body, AccountAccessMarker) && !Contains(body, TravelVerifyMarker) && !Contains(body, UpdateLocationMarker)
  {
    if Contains(body, AccountAccessMarker) then Some(AccountAccess)
    else if Contains(body, TravelVerifyMarker) then Some(TravelVerify)
    else if Contains(body, UpdateLocationMarker) then Some(UpdateLocation)
    else None
  }

  /** The full link each branch looks for. */
  function LinkBase(k: Kind): string
  {
    match k
    case AccountAccess => AccountAccessUrl
    case TravelVerify => TravelVerifyUrl
    case UpdateLocation => UpdateLocationUrl
  }

  /** Errors of the IMAP move that `_move_email_to_gelesen` counts as success. */
  predicate BenignMoveError(e: string)
  {
    Contains(Lower(e), "already moved") || Contains(Lower(e), "not found")
  }

  /** The SUCCESS/FAILED status `_move_email_to_gelesen` logs. */
  predicate MoveSucceeded(connected: bool, moveError: Option<string>)
  {
    connected && (moveError.None? || BenignMoveError(moveError.value))
  }

  /** Effect of `_move_email_to_gelesen`: only a move the server performs archives the uid. */
  function Move(s: HandlerState, connected: bool, m: Message, moveError: Option<string>, reason: string): HandlerState
  {
    s.(archived := if connected && moveError.None? then s.archived + {m.uid} else s.archived,
       moves := s.moves + [MoveRecord(m.uid, reason, MoveSucceeded(connected, moveError))])
  }

  /** The reason each branch gives when it archives a message. */
  function ArchiveReason(k: Kind, d: Delivery): string
  {
    match k
    case AccountAccess => AccountAccessReason
    case TravelVerify =>
      if Truthy(d.scrapedCode) then CodeExtractedReason
      else NoCodeReason
    case UpdateLocation =>
      if d.confirmed then ConfirmedReason
      else ConfirmationFailedReason
  }

  /** The browser step a branch takes on the extracted link (account access takes none). */
  function BrowserSteps(k: Kind, url: string): seq<BrowserCall>
  {
    match k
    case AccountAccess => []
    case TravelVerify => [ReadCode(url)]
    case UpdateLocation => [ClickConfirm(url)]
  }

  /** Effect of `_process_<kind>_email`: nothing without the link, else the browser step, then the move. */
  function HandleKind(s: HandlerState, connected: bool, d: Delivery, k: Kind, html: string): HandlerState
  {
    match ExtractNetflixUrl(html, LinkBase(k))
    case None => s
    case Some(url) =>
      Move(s.(browser := s.browser + BrowserSteps(k, url)), connected, d.msg, d.moveError, ArchiveReason(k, d))
  }

  /** Effect of `_process_email`: dedup, then the age rule, then the first matching marker. */
  function Process(s: HandlerState, connected: bool, d: Delivery, now: int, minutesToWait: int): HandlerState
  {
    var id := Fingerprint(d.msg);
    if id in s.processed then s
    else if ShouldMoveOldEmail(d.msg, now, minutesToWait) then
      var moved := Move(s, connected, d.msg, d.moveError, AgeReason);
      moved.(processed := moved.processed + {id})
    else match Classify(Body(d.msg))
      case None => s
      case Some(k) =>
        var handled := HandleKind(s, connected, d, k, Body(d.msg));
        handled.(processed := handled.processed + {id})
  }

  /** One iteration of the loop in `check_emails`: a message that raises is skipped. */
  function Step(s: HandlerState, connected: bool, d: Delivery, now: int, minutesToWait: int): HandlerState
  {
    if d.malformed.Some? then s else Process(s, connected, d, now, minutesToWait)
  }

  /** The loop of `check_emails` over a batch, in delivery order. */
  function Batch(s: HandlerState, connected: bool, items: seq<Delivery>, now: int, minutesToWait: int): HandlerState
    decreases |items|
  {
    if items == [] then s
    else Batch(Step(s, connected, items[0], now, minutesToWait), connected, items[1..], now, minutesToWait)
  }

  /** Errors whose text makes `check_emails` raise `EmailProcessingError` to force a reconnection. */
  predicate CriticalError(e: string)
  {
    Contains(Lower(e), "connection") || Contains(Lower(e), "timeout") || Contains(Lower(e), "ssl")
  }

  /** The `EmailProcessingError` message `check_emails` raises, if it raises. */
  function CheckError(connected: bool, f: Fetch): Option<string>
  {
    if !connected then Some("Not connected to email server")
    else if f.failure.Some? && CriticalError(f.failure.value) then Some("Critical email error: " + f.failure.value)
    else None
  }

  /** Effect of one `check_emails` call on the handler's state. */
  function Check(s: HandlerState, connected: bool, p: Poll, minutesToWait: int): HandlerState
  {
    if connected then Batch(s, connected, p.fetch.items, p.now, minutesToWait) else s
  }

  function Fingerprints(items: seq<Delivery>): set<string>
  {
    set d | d in items :: Fingerprint(d.msg)
  }

  // ---------------------------------------------------------------------------
  // Properties of one message

  /** A message whose fingerprint was already seen changes nothing: no move, no browser, no new key. */
  lemma DuplicateIgnored(s: HandlerState, connected: bool, d: Delivery, now: int, minutesToWait: int)
    requires Fingerprint(d.msg) in s.processed
    ensures Process(s, connected, d, now, minutesToWait) == s
  {
  }

  /**
   * The age rule wins over every marker: an old, read message is moved with the age
   * reason and fingerprinted, and no link is looked for whatever its body says.
   */
  lemma AgedOutWithoutClassification(s: HandlerState, connected: bool, d: Delivery, now: int, minutesToWait: int)
    requires Fingerprint(d.msg) !in s.processed
    requires ShouldMoveOldEmail(d.msg, now, minutesToWait)
    ensures var r := Process(s, connected, d, now, minutesToWait);
      && r.browser == s.browser
      && r.moves == s.moves + [MoveRecord(d.msg.uid, AgeReason, MoveSucceeded(connected, d.moveError))]
      && r.processed == s.processed + {Fingerprint(d.msg)}
      && r.archived == (if connected && d.moveError.None? then s.archived + {d.msg.uid} else s.archived)
  {
  }

  /** A message with a missing date or without the seen flag is never moved by the age rule. */
  lemma AgeRuleNeedsDateAndSeen(m: Message, now: int, minutesToWait: int)
    requires m.date.None? || SeenFlag !in m.flags || now - m.date.value <= minutesToWait
    ensures !ShouldMoveOldEmail(m, now, minutesToWait)
  {
  }

  /** A body with none of the three markers is left alone: not moved and not fingerprinted. */
  lemma UnrecognisedUntouched(s: HandlerState, connected: bool, d: Delivery, now: int, minutesToWait: int)
    requires !ShouldMoveOldEmail(d.msg, now, minutesToWait)
    requires !Contains(Body(d.msg), AccountAccessMarker) && !Contains(Body(d.msg), TravelVerifyMarker)
    requires !Contains(Body(d.msg), UpdateLocationMarker)
    ensures Process(s, connected, d, now, minutesToWait) == s
  {
  }

  /** A marker without its full `https://www.netflix.com/...` link is fingerprinted but not moved. */
  lemma MarkerWithoutLinkOnlyFingerprinted(s: HandlerState, connected: bool, d: Delivery, now: int, minutesToWait: int)
    requires Fingerprint(d.msg) !in s.processed && !ShouldMoveOldEmail(d.msg, now, minutesToWait)
    requires Classify(Body(d.msg)).Some?
    requires ExtractNetflixUrl(Body(d.msg), LinkBase(Classify(Body(d.msg)).value)).None?
    ensures Process(s, connected, d, now, minutesToWait) == s.(processed := s.processed + {Fingerprint(d.msg)})
  {
  }

  /**
   * Once a branch finds its link the message is moved, whatever the code search, the
   * scraper or the confirmation click produced: those answers change only the reason.
   */
  lemma LinkFoundMeansMoved(s: HandlerState, connected: bool, d: Delivery, now: int, minutesToWait: int,
                            code: Option<string>, confirmed: bool)
    requires Fingerprint(d.msg) !in s.processed && !ShouldMoveOldEmail(d.msg, now, minutesToWait)
    requires Classify(Body(d.msg)).Some?
    requires ExtractNetflixUrl(Body(d.msg), LinkBase(Classify(Body(d.msg)).value)).Some?
    ensures var r := Process(s, connected, d, now, minutesToWait);
      var r' := Process(s, connected, d.(scrapedCode := code, confirmed := confirmed), now, minutesToWait);
      && |r.moves| == |s.moves| + 1 && r.moves[|s.moves|].uid == d.msg.uid
      && r.archived == r'.archived && r.processed == r'.processed && r.browser == r'.browser
      && r.processed == s.processed + {Fingerprint(d.msg)}
      && (connected && d.moveError.None? ==> d.msg.uid in r.archived)
  {
  }

  /** First match wins: an account-access body never reaches the browser, even if it names other links too. */
  lemma AccountAccessFirst(s: HandlerState, connected: bool, d: Delivery, now: int, minutesToWait: int)
    requires Fingerprint(d.msg) !in s.processed && !ShouldMoveOldEmail(d.msg, now, minutesToWait)
    requires Contains(Body(d.msg), AccountAccessMarker)
    ensures Process(s, connected, d, now, minutesToWait).browser == s.browser
  {
  }

  /** A move error that says "already moved" or "not found", in any letter case, is logged as SUCCESS. */
  lemma BenignErrorIsSuccess(e: string, i: nat, phrase: string)
    requires phrase == "not found" || phrase == "already moved"
    requires i + |phrase| <= |e| && Lower(e[i..i + |phrase|]) == phrase
    ensures MoveSucceeded(true, Some(e))
  {
    var l := Lower(e);
    assert l[i..i + |phrase|] == phrase by {
      forall k | 0 <= k < |phrase| ensures l[i + k] == phrase[k] {
        assert e[i + k] == e[i..i + |phrase|][k];
      }
    }
    ContainsWitness(l, phrase, i);
  }

  /** The benign phrases match in any letter case: "Message NOT FOUND" is a success. */
  lemma UpperCaseBenign()
    ensures MoveSucceeded(true, Some("Message NOT FOUND"))
  {
    var e := "Message NOT FOUND";
    assert e[8..17] == "NOT FOUND";
    assert Lower("NOT FOUND") == "not found";
    BenignErrorIsSuccess(e, 8, "not found");
  }

  /** The archive only grows, and only by the uid of the message being handled. */
  lemma ArchiveGrowsByUid(s: HandlerState, connected: bool, d: Delivery, now: int, minutesToWait: int)
    ensures var r := Process(s, connected, d, now, minutesToWait);
      s.archived <= r.archived <= s.archived + {d.msg.uid}
  {
  }

  /** Processing adds at most the message's own fingerprint and never forgets one. */
  lemma ProcessedGrowsByFingerprint(s: HandlerState, connected: bool, d: Delivery, now: int, minutesToWait: int)
    ensures var r := Process(s, connected, d, now, minutesToWait);
      s.processed <= r.processed <= s.processed + {Fingerprint(d.msg)}
  {
  }

  // ---------------------------------------------------------------------------
  // Properties of a batch

  /** Handling a batch in two parts is handling it whole. */
  lemma {:induction false} BatchAppend(s: HandlerState, connected: bool, a: seq<Delivery>, b: seq<Delivery>,
                                        now: int, minutesToWait: int)
    ensures Batch(s, connected, a + b, now, minutesToWait)
      == Batch(Batch(s, connected, a, now, minutesToWait), connected, b, now, minutesToWait)
    decreases |a|
  {
    if a == [] {
      assert a + b == b;
    } else {
      assert (a + b)[0] == a[0] && (a + b)[1..] == a[1..] + b;
      BatchAppend(Step(s, connected, a[0], now, minutesToWait), connected, a[1..], b, now, minutesToWait);
    }
  }

  /** A message that raises while being handled is skipped; the rest of the batch is handled as if it were absent. */
  lemma MalformedSkipped(s: HandlerState, connected: bool, before: seq<Delivery>, bad: Delivery,
                         after: seq<Delivery>, now: int, minutesToWait: int)
    requires bad.malformed.Some?
    ensures Batch(s, connected, before + [bad] + after, now, minutesToWait)
      == Batch(s, connected, before + after, now, minutesToWait)
  {
    BatchAppend(s, connected, before + [bad], after, now, minutesToWait);
    BatchAppend(s, connected, before, [bad], now, minutesToWait);
    BatchAppend(s, connected, before, after, now, minutesToWait);
  }

  /** After a batch, every new fingerprint belongs to a delivered message, and none is forgotten. */
  lemma {:induction false} BatchProcessedBound(s: HandlerState, connected: bool, items: seq<Delivery>,
                                               now: int, minutesToWait: int)
    ensures s.processed <= Batch(s, connected, items, now, minutesToWait).processed
    ensures Batch(s, connected, items, now, minutesToWait).processed <= s.processed + Fingerprints(items)
    decreases |items|
  {
    if items != [] {
      var s1 := Step(s, connected, items[0], now, minutesToWait);
      ProcessedGrowsByFingerprint(s, connected, items[0], now, minutesToWait);
      BatchProcessedBound(s1, connected, items[1..], now, minutesToWait);
      assert Fingerprints(items[1..]) <= Fingerprints(items) by {
        forall d | d in items[1..] ensures d in items { }
      }
      assert items[0] in items;
    }
  }

  /** A batch of two messages is one step after the other. */
  lemma PairBatch(s: HandlerState, connected: bool, a: Delivery, b: Delivery, now: int, minutesToWait: int)
    ensures Batch(s, connected, [a, b], now, minutesToWait)
      == Step(Step(s, connected, a, now, minutesToWait), connected, b, now, minutesToWait)
  {
    var r := Step(s, connected, a, now, minutesToWait);
    assert [a, b][0] == a && [a, b][1..] == [b] && [b][0] == b && [b][1..] == [];
    assert Batch(r, connected, [b], now, minutesToWait) == Batch(Step(r, connected, b, now, minutesToWait), connected, [], now, minutesToWait);
  }

  /**
   * A batch that repeats a message handles it once. A later message with the same fingerprint
   * meets it in the processed set once the first copy was fingerprinted; a first copy that was
   * not fingerprinted left the state as it was, so its repetition changes nothing either.
   */
  lemma RepeatedDeliveryHandledOnce(s: HandlerState, connected: bool, d: Delivery, d2: Delivery,
                                    now: int, minutesToWait: int)
    requires Fingerprint(d2.msg) == Fingerprint(d.msg)
    ensures Batch(s, connected, [d, d], now, minutesToWait) == Step(s, connected, d, now, minutesToWait)
    ensures Fingerprint(d.msg) in Step(s, connected, d, now, minutesToWait).processed ==>
      Batch(s, connected, [d, d2], now, minutesToWait) == Step(s, connected, d, now, minutesToWait)
  {
    var r := Step(s, connected, d, now, minutesToWait);
    PairBatch(s, connected, d, d, now, minutesToWait);
    PairBatch(s, connected, d, d2, now, minutesToWait);
    if Fingerprint(d.msg) !in r.processed {
      // Nothing was fingerprinted, so nothing happened at all.
      assert r == s;
    }
  }

  /** Only a connection, timeout or SSL failure (in any letter case) makes `check_emails` raise. */
  lemma CheckRaisesOnlyWhenCritical(connected: bool, f: Fetch)
    ensures CheckError(connected, f).Some? <==>
      !connected || (f.failure.Some? && CriticalError(f.failure.value))
  {
  }

  // ---------------------------------------------------------------------------
  // The polling loop

  /** How `run_email_loop` ends: by `break` after the poll at index `at` raised, or by the operator's interrupt. */
  datatype LoopExit = Reconnect(at: nat) | Stopped

  /** The end of a loop run: the state, `check_count`, how it ended and how many checks succeeded. */
  datatype LoopResult = LoopResult(state: HandlerState, count: nat, exit: LoopExit, checks: nat)

  /** Accounts for `i` successful checks run before the ones `r` describes. */
  function Lift(r: LoopResult, i: nat): LoopResult
  {
    r.(exit := if r.exit.Reconnect? then Reconnect(r.exit.at + i) else r.exit, checks := r.checks + i)
  }

  /** The number of `asyncio.sleep` pauses: one per successful check, one before the `break`. */
  function Pauses(r: LoopResult): nat
  {
    r.checks + if r.exit.Reconnect? then 1 else 0
  }

  /** `n` pauses of `seconds` each. */
  function Repeat(seconds: int, n: nat): seq<int>
  {
    if n == 0 then [] else Repeat(seconds, n - 1) + [seconds]
  }

  /**
   * `run_email_loop` from a given `check_count`, over the polls the operator lets it run;
   * when they run out the operator interrupts it during the last pause.
   */
  function RunLoop(s: HandlerState, connected: bool, count: nat, polls: seq<Poll>, minutesToWait: int): LoopResult
    decreases |polls|
  {
    if polls == [] then LoopResult(s, count, Stopped, 0)
    else
      var s1 := Check(s, connected, polls[0], minutesToWait);
      if CheckError(connected, polls[0].fetch).Some? then LoopResult(s1, count, Reconnect(0), 0)
      else Lift(RunLoop(Tick(s1, count), connected, NextCount(count), polls[1..], minutesToWait), 1)
  }

  /** `check_count` after a successful check: the 100th check resets it. */
  function NextCount(count: nat): nat
  {
    if count + 1 >= 100 then 0 else count + 1
  }

  /** The state after a successful check: the 100th check clears the dedup set. */
  function Tick(s: HandlerState, count: nat): HandlerState
  {
    if count + 1 >= 100 then s.(processed := {}) else s
  }

  /** The loop state after a successful check at index `i` is the rest of the run. */
  lemma LoopAdvances(s: HandlerState, connected: bool, count: nat, polls: seq<Poll>, i: nat, minutesToWait: int)
    requires i < |polls| && CheckError(connected, polls[i].fetch).None?
    ensures Lift(RunLoop(s, connected, count, polls[i..], minutesToWait), i)
      == Lift(RunLoop(Tick(Check(s, connected, polls[i], minutesToWait), count), connected, NextCount(count),
                      polls[i + 1..], minutesToWait), i + 1)
  {
    assert polls[i..][0] == polls[i] && polls[i..][1..] == polls[i + 1..];
  }

  /** A check that raises at index `i` ends the run there. */
  lemma LoopBreaks(s: HandlerState, connected: bool, count: nat, polls: seq<Poll>, i: nat, minutesToWait: int)
    requires i < |polls| && CheckError(connected, polls[i].fetch).Some?
    ensures Lift(RunLoop(s, connected, count, polls[i..], minutesToWait), i)
      == LoopResult(Check(s, connected, polls[i], minutesToWait), count, Reconnect(i), i)
  {
    assert polls[i..][0] == polls[i];
  }

  /** The index of the first poll whose fetch fails critically. */
  function FirstCritical(polls: seq<Poll>): (r: Option<nat>)
    ensures r.Some? ==> r.value < |polls| && CheckError(true, polls[r.value].fetch).Some?
    ensures forall j :: 0 <= j < |polls| && (r.None? || j < r.value) ==> CheckError(true, polls[j].fetch).None?
    decreases |polls|
  {
    if polls == [] then None
    else if CheckError(true, polls[0].fetch).Some? then Some(0)
    else match FirstCritical(polls[1..])
      case None => None
      case Some(j) => Some(j + 1)
  }

  function PollFingerprints(polls: seq<Poll>): set<string>
    decreases |polls|
  {
    if polls == [] then {} else Fingerprints(polls[0].fetch.items) + PollFingerprints(polls[1..])
  }

  /**
   * A connected loop leaves by `break` exactly at the first poll that fails critically,
   * after one successful check per earlier poll; with no such poll it runs until interrupted.
   */
  lemma {:induction false} LoopBreaksAtFirstCritical(s: HandlerState, count: nat, polls: seq<Poll>, minutesToWait: int)
    ensures var r := RunLoop(s, true, count, polls, minutesToWait);
      match FirstCritical(polls)
      case Some(j) => r.exit == Reconnect(j) && r.checks == j
      case None => r.exit == Stopped && r.checks == |polls|
    decreases |polls|
  {
    if polls != [] && CheckError(true, polls[0].fetch).None? {
      LoopBreaksAtFirstCritical(Tick(Check(s, true, polls[0], minutesToWait), count), NextCount(count),
                                polls[1..], minutesToWait);
    }
  }

  /** Without a connection the loop breaks at once and nothing is processed. */
  lemma LoopWithoutConnection(s: HandlerState, count: nat, polls: seq<Poll>, minutesToWait: int)
    requires polls != []
    ensures RunLoop(s, false, count, polls, minutesToWait) == LoopResult(s, count, Reconnect(0), 0)
  {
  }

  /** `check_count` stays below 100 and counts successful checks modulo 100. */
  lemma {:induction false} LoopCountModulo(s: HandlerState, connected: bool, count: nat, polls: seq<Poll>, minutesToWait: int)
    requires count < 100
    ensures var r := RunLoop(s, connected, count, polls, minutesToWait);
      r.count < 100 && r.count == (count + r.checks) % 100
    decreases |polls|
  {
    if polls != [] && CheckError(connected, polls[0].fetch).None? {
      LoopCountModulo(Tick(Check(s, connected, polls[0], minutesToWait), count), connected, NextCount(count),
                      polls[1..], minutesToWait);
    }
  }

  /**
   * The dedup set is bounded: it holds only fingerprints of messages delivered during the
   * run, plus the ones it started with while no 100th check has cleared it.
   */
  lemma {:induction false} LoopProcessedBound(s: HandlerState, connected: bool, count: nat, polls: seq<Poll>,
                                              minutesToWait: int)
    requires count < 100
    ensures var r := RunLoop(s, connected, count, polls, minutesToWait);
      r.state.processed <= (if count + r.checks >= 100 then {} else s.processed) + PollFingerprints(polls)
    decreases |polls|
  {
    if polls != [] {
      var s1 := Check(s, connected, polls[0], minutesToWait);
      var items := polls[0].fetch.items;
      if connected {
        BatchProcessedBound(s, connected, items, polls[0].now, minutesToWait);
      }
      assert s1.processed <= s.processed + Fingerprints(items);
      if CheckError(connected, polls[0].fetch).None? {
        LoopProcessedBound(Tick(s1, count), connected, NextCount(count), polls[1..], minutesToWait);
      }
    }
  }

  // ---------------------------------------------------------------------------
  // The handler object

  /** The `_log_email_moved` line, without its wall-clock timestamp and received date. */
  function MovedLine(m: Message, reason: string, success: bool): string
  {
    "📧 EMAIL MOVED TO GELESEN | Subject: " + (if m.subject != "" then m.subject else "No Subject")
    + " | Sender: " + (if m.sender != "" then m.sender else "Unknown Sender")
    + " | Reason: " + reason + " | Status: " + (if success then "SUCCESS" else "FAILED")
  }

  function ConnectingMessage(email: EmailConfig): string
  {
    "📡 Connecting to " + email.imapServer + ":" + Decimal(email.imapPort) + " as " + email.email
  }

  /** What `disconnect` logs for a live connection: a goodbye, or a warning about the failed logout. */
  function DisconnectEntry(logoutError: Option<string>): LogEntry
  {
    match logoutError
    case None => LogEntry(Info, "📤 Disconnected from email server")
    case Some(e) => LogEntry(Warning, "Warning during disconnect: " + e)
  }

  function LinkMessage(url: string): string
  {
    "✅ Found Netflix link!:\n" + url
  }

  function CodeMessage(code: string): string
  {
    "🔢 Verification code: " + code
  }

  function NonCriticalMessage(error: string): string
  {
    "⚠️ Non-critical email error: " + error
  }

  /** The warning `check_emails` logs for a message whose handling raised `error`. */
  function MalformedMessage(m: Message, error: string): string
  {
    "⚠️ Error processing email '" + m.subject + "': " + error
  }

  /** What the `except` block of `_move_email_to_gelesen` logs first for the server's error `e`. */
  function MoveFailureEntry(m: Message, e: string): LogEntry
  {
    if BenignMoveError(e) then LogEntry(Debug, "Email already moved or not found: " + m.subject)
    else LogEntry(Error, "Failed to move email: " + e)
  }

  /** The first line `_move_email_to_gelesen` logs, before the moved-email record. */
  function MoveEntry(connected: bool, m: Message, reason: string, moveError: Option<string>): LogEntry
  {
    if !connected then LogEntry(Error, "Cannot move email: not connected to mailbox")
    else match moveError
      case None => LogEntry(Info, "📦 Email '" + m.subject + "' moved to Gelesen (" + reason + ")")
      case Some(e) => MoveFailureEntry(m, e)
  }

  /** The warnings logged for the malformed items among the first `n` survive further logging. */
  lemma KeptWarnings(items: seq<Delivery>, n: nat, from: nat, log: seq<LogEntry>, later: seq<LogEntry>)
    requires n <= |items| && from <= |log| && log <= later
    requires forall j :: 0 <= j < n && items[j].malformed.Some? ==>
      LogEntry(Warning, MalformedMessage(items[j].msg, items[j].malformed.value)) in log[from..]
    ensures forall j :: 0 <= j < n && items[j].malformed.Some? ==>
      LogEntry(Warning, MalformedMessage(items[j].msg, items[j].malformed.value)) in later[from..]
  {
    forall j | 0 <= j < n && items[j].malformed.Some?
      ensures LogEntry(Warning, MalformedMessage(items[j].msg, items[j].malformed.value)) in later[from..]
    {
      StillLogged(LogEntry(Warning, MalformedMessage(items[j].msg, items[j].malformed.value)), from, log, later);
    }
  }

  class EmailHandler {
    const email: EmailConfig
    const app: AppConfig
    const notifier: NotificationHandler
    /** Whether `self.mailbox` holds a logged-in mailbox. */
    var connected: bool
    /** `_processed_emails`. */
    var processed: set<string>
    /** Uids the server has moved to the archive folder. */
    var archived: set<string>
    /** The `_log_email_moved` records, in order. */
    var moves: seq<MoveRecord>
    /** Links handed to the browser automation, in order. */
    var browser: seq<BrowserCall>
    /** The `asyncio.sleep` durations of `run_email_loop`, in order. */
    var pauses: seq<int>

    function View(): HandlerState
      reads this
    {
      HandlerState(processed, archived, moves, browser)
    }

    constructor (email: EmailConfig, app: AppConfig, notifier: NotificationHandler)
      ensures this.email == email && this.app == app && this.notifier == notifier
      ensures !connected && View() == HandlerState({}, {}, [], []) && pauses == []
    {
      this.email := email;
      this.app := app;
      this.notifier := notifier;
      connected := false;
      processed := {};
      archived := {};
      moves := [];
      browser := [];
      pauses := [];
    }

    /** `connect`: the login either succeeds or surfaces as `EmailConnectionError`'s message. */
    method Connect(loginError: Option<string>) returns (err: Option<string>)
      modifies this`connected, notifier`local, notifier`posts
      ensures err == if loginError.Some? then Some("Failed to connect to email server: " + loginError.value) else None
      ensures connected == (old(connected) || loginError.None?)
      ensures old(notifier.local) < notifier.local
      ensures notifier.local[|old(notifier.local)|] == LogEntry(Info, ConnectingMessage(email))
    {
      notifier.Log(Info, ConnectingMessage(email));
      if loginError.Some? {
        return Some("Failed to connect to email server: " + loginError.value);
      }
      connected := true;
      notifier.Log(Info, "✅ Connected to mailbox successfully");
      err := None;
    }

    /** `disconnect`: a failing logout is only a warning; the handler is disconnected afterwards. */
    method Disconnect(logoutError: Option<string>)
      modifies this`connected, notifier`local, notifier`posts
      ensures !connected
      ensures old(notifier.local) <= notifier.local
      ensures old(connected) ==>
        |notifier.local| > |old(notifier.local)| && notifier.local[|old(notifier.local)|] == DisconnectEntry(logoutError)
      ensures !old(connected) ==> notifier.local == old(notifier.local) && notifier.posts == old(notifier.posts)
    {
      if connected {
        var entry := DisconnectEntry(logoutError);
        notifier.Log(entry.level, entry.message);
        connected := false;
      }
    }

    /** `is_connected`: a logged-in mailbox is held. */
    predicate IsConnected(): (r: bool)
      reads this
      ensures r <==> connected
    {
      connected
    }

    method LogEmailMoved(m: Message, reason: string, success: bool)
      modifies this`moves, notifier`local, notifier`posts
      ensures moves == old(moves) + [MoveRecord(m.uid, reason, success)]
      ensures old(notifier.local) < notifier.local
      ensures notifier.local[|old(notifier.local)|] == LogEntry(Info, MovedLine(m, reason, success))
    {
      moves := moves + [MoveRecord(m.uid, reason, success)];
      notifier.Log(Info, MovedLine(m, reason, success));
    }

    /** `_move_email_to_gelesen`: never raises; success is logged for benign server errors too. */
    method MoveEmailToGelesen(m: Message, reason: string, moveError: Option<string>)
      modifies this`archived, this`moves, notifier`local, notifier`posts
      ensures View() == Move(old(View()), connected, m, moveError, reason)
      ensures old(notifier.local) < notifier.local
      ensures notifier.local[|old(notifier.local)|] == MoveEntry(connected, m, reason, moveError)
    {
      if !IsConnected() {
        notifier.Log(Error, "Cannot move email: not connected to mailbox");
        ghost var before := notifier.local;
        LogEmailMoved(m, reason, false);
        Grown(old(notifier.local), before, notifier.local);
        return;
      }
      match moveError
      case None =>
        archived := archived + {m.uid};
        notifier.Log(Info, "📦 Email '" + m.subject + "' moved to Gelesen (" + reason + ")");
        ghost var before := notifier.local;
        LogEmailMoved(m, reason, true);
        Grown(old(notifier.local), before, notifier.local);
      case Some(e) =>
        ReportMoveFailure(m, reason, e);
    }

    /** The `except` block of `_move_email_to_gelesen`: a benign server answer still counts as SUCCESS. */
    method ReportMoveFailure(m: Message, reason: string, e: string)
      modifies this`moves, notifier`local, notifier`posts
      ensures moves == old(moves) + [MoveRecord(m.uid, reason, BenignMoveError(e))]
      ensures old(notifier.local) < notifier.local
      ensures notifier.local[|old(notifier.local)|] == MoveFailureEntry(m, e)
    {
      var lowered := Lower(e);
      if Contains(lowered, "already moved") || Contains(lowered, "not found") {
        notifier.Log(Debug, "Email already moved or not found: " + m.subject);
        ghost var before := notifier.local;
        LogEmailMoved(m, reason, true);
        Grown(old(notifier.local), before, notifier.local);
      } else {
        notifier.Log(Error, "Failed to move email: " + e);
        ghost var before := notifier.local;
        LogEmailMoved(m, reason, false);
        Grown(old(notifier.local), before, notifier.local);
      }
    }

    /** The code line of `_process_account_access_email`, or its warning when the message has no code. */
    method ReportAccessCode(code: Option<string>)
      modifies notifier`local, notifier`posts
      ensures old(notifier.local) < notifier.local
      ensures notifier.local[|old(notifier.local)|]
        == (if code.Some? then LogEntry(Info, CodeMessage(code.value)) else LogEntry(Warning, "❌ No verification code found"))
    {
      if code.Some? {
        notifier.Log(Info, CodeMessage(code.value));
      } else {
        notifier.Log(Warning, "❌ No verification code found");
      }
    }

    /** `_process_account_access_email`: reports the code found in the message itself, then archives. */
    method ProcessAccountAccessEmail(d: Delivery, html: string)
      modifies this`archived, this`moves, notifier`local, notifier`posts
      ensures View() == HandleKind(old(View()), connected, d, AccountAccess, html)
      ensures old(notifier.local) <= notifier.local
      ensures var url := ExtractNetflixUrl(html, AccountAccessUrl);
        && (url.None? ==> notifier.local == old(notifier.local))
        && (url.Some? ==>
              old(notifier.local) < notifier.local
              && notifier.local[|old(notifier.local)|] == LogEntry(Info, LinkMessage(url.value)))
        && (url.Some? && ExtractVerificationCode(html).Some? ==>
              LogEntry(Info, CodeMessage(ExtractVerificationCode(html).value)) in notifier.local[|old(notifier.local)|..])
    {
      var url := ExtractNetflixUrl(html, AccountAccessUrl);
      if url.None? {
        return;
      }
      notifier.Log(Info, LinkMessage(url.value));
      var code := ExtractVerificationCode(html);
      ghost var at := |notifier.local|;
      ReportAccessCode(code);
      if code.Some? {
        LoggedAt(LogEntry(Info, CodeMessage(code.value)), |old(notifier.local)|, notifier.local, at);
      }
      ghost var before := notifier.local;
      MoveEmailToGelesen(d.msg, AccountAccessReason, d.moveError);
      Grown(old(notifier.local), before, notifier.local);
      if code.Some? {
        StillLogged(LogEntry(Info, CodeMessage(code.value)), |old(notifier.local)|, before, notifier.local);
      }
    }

    /** `_process_travel_verify_email`: the browser reads the code from the link; archived either way. */
    method ProcessTravelVerifyEmail(d: Delivery, html: string)
      modifies this`archived, this`moves, this`browser, notifier`local, notifier`posts
      ensures View() == HandleKind(old(View()), connected, d, TravelVerify, html)
      ensures old(notifier.local) <= notifier.local
      ensures var url := ExtractNetflixUrl(html, TravelVerifyUrl);
        && (url.None? ==> notifier.local == old(notifier.local))
        && (url.Some? ==>
              old(notifier.local) < notifier.local
              && notifier.local[|old(notifier.local)|] == LogEntry(Info, LinkMessage(url.value)))
        && (url.Some? && Truthy(d.scrapedCode) ==>
              LogEntry(Info, CodeMessage(d.scrapedCode.value)) in notifier.local[|old(notifier.local)|..])
    {
      var url := ExtractNetflixUrl(html, TravelVerifyUrl);
      if url.None? {
        return;
      }
      notifier.Log(Info, LinkMessage(url.value));
      ghost var linked := old(View()).(browser := old(View()).browser + BrowserSteps(TravelVerify, url.value));
      browser := browser + [ReadCode(url.value)];
      assert View() == linked;
      ghost var at := |notifier.local|;
      if Truthy(d.scrapedCode) {
        notifier.Log(Info, CodeMessage(d.scrapedCode.value));
        LoggedAt(LogEntry(Info, CodeMessage(d.scrapedCode.value)), |old(notifier.local)|, notifier.local, at);
      } else {
        notifier.Log(Warning, "❌ No verification code found");
      }
      ghost var before := notifier.local;
      MoveEmailToGelesen(d.msg, if Truthy(d.scrapedCode) then CodeExtractedReason else NoCodeReason, d.moveError);
      Grown(old(notifier.local), before, notifier.local);
      if Truthy(d.scrapedCode) {
        StillLogged(LogEntry(Info, CodeMessage(d.scrapedCode.value)), |old(notifier.local)|, before, notifier.local);
      }
    }

    /** `_process_update_location_email`: the browser clicks the confirmation; archived either way. */
    method ProcessUpdateLocationEmail(d: Delivery, html: string)
      modifies this`archived, this`moves, this`browser, notifier`local, notifier`posts
      ensures View() == HandleKind(old(View()), connected, d, UpdateLocation, html)
      ensures old(notifier.local) <= notifier.local
      ensures var url := ExtractNetflixUrl(html, UpdateLocationUrl);
        && (url.None? ==> notifier.local == old(notifier.local))
        && (url.Some? ==>
              old(notifier.local) < notifier.local
              && notifier.local[|old(notifier.local)|] == LogEntry(Info, LinkMessage(url.value)))
    {
      var url := ExtractNetflixUrl(html, UpdateLocationUrl);
      if url.None? {
        return;
      }
      notifier.Log(Info, LinkMessage(url.value));
      ghost var linked := old(View()).(browser := old(View()).browser + BrowserSteps(UpdateLocation, url.value));
      browser := browser + [ClickConfirm(url.value)];
      assert View() == linked;
      if d.confirmed {
        notifier.Log(Info, "✅ Confirmation link clicked successfully!");
      } else {
        notifier.Log(Warning, "❌ Failed to click confirmation link");
      }
      ghost var before := notifier.local;
      MoveEmailToGelesen(d.msg, if d.confirmed then ConfirmedReason else ConfirmationFailedReason, d.moveError);
      Grown(old(notifier.local), before, notifier.local);
    }

    /** `_process_email` at the clock reading `now`. */
    method ProcessEmail(d: Delivery, now: int)
      modifies this`processed, this`archived, this`moves, this`browser, notifier`local, notifier`posts
      ensures View() == Process(old(View()), connected, d, now, app.minutesToWait)
      ensures old(notifier.local) <= notifier.local
    {
      var id := Fingerprint(d.msg);
      if id in processed {
        notifier.Log(Debug, "📧 Email already processed, skipping: " + d.msg.subject);
        return;
      }
      var html := Body(d.msg);
      if ShouldMoveOldEmail(d.msg, now, app.minutesToWait) {
        MoveEmailToGelesen(d.msg, AgeReason, d.moveError);
        processed := processed + {id};
        return;
      }
      if Contains(html, AccountAccessMarker) {
        ProcessAccountAccessEmail(d, html);
        processed := processed + {id};
      } else if Contains(html, TravelVerifyMarker) {
        ProcessTravelVerifyEmail(d, html);
        processed := processed + {id};
      } else if Contains(html, UpdateLocationMarker) {
        ProcessUpdateLocationEmail(d, html);
        processed := processed + {id};
      }
    }

    /**
     * `check_emails` at the clock reading `now`; the `EmailProcessingError` it raises is
     * returned as its message.
     */
    method CheckEmails(fetch: Fetch, now: int) returns (err: Option<string>)
      modifies this`processed, this`archived, this`moves, this`browser, notifier`local, notifier`posts
      ensures err == CheckError(connected, fetch)
      ensures View() == Check(old(View()), connected, Poll(now, fetch), app.minutesToWait)
      ensures old(notifier.local) <= notifier.local
      ensures !connected ==> notifier.local == old(notifier.local)
      ensures connected && fetch.failure.Some? && !CriticalError(fetch.failure.value) ==>
        LogEntry(Warning, NonCriticalMessage(fetch.failure.value)) in notifier.local[|old(notifier.local)|..]
      ensures connected ==> forall j :: 0 <= j < |fetch.items| && fetch.items[j].malformed.Some? ==>
        LogEntry(Warning, MalformedMessage(fetch.items[j].msg, fetch.items[j].malformed.value))
          in notifier.local[|old(notifier.local)|..]
    {
      if !IsConnected() {
        return Some("Not connected to email server");
      }
      notifier.Log(Debug, "📧 Checking for new emails...");
      var i := 0;
      while i < |fetch.items|
        invariant 0 <= i <= |fetch.items|
        invariant Batch(View(), true, fetch.items[i..], now, app.minutesToWait)
          == Batch(old(View()), true, fetch.items, now, app.minutesToWait)
        invariant old(notifier.local) <= notifier.local
        invariant forall j :: 0 <= j < i && fetch.items[j].malformed.Some? ==>
          LogEntry(Warning, MalformedMessage(fetch.items[j].msg, fetch.items[j].malformed.value))
            in notifier.local[|old(notifier.local)|..]
      {
        var d := fetch.items[i];
        assert fetch.items[i..][0] == d && fetch.items[i..][1..] == fetch.items[i + 1..];
        ghost var before := notifier.local;
        if d.malformed.Some? {
          notifier.Log(Warning, MalformedMessage(d.msg, d.malformed.value));
        } else {
          ProcessEmail(d, now);
        }
        Grown(old(notifier.local), before, notifier.local);
        KeptWarnings(fetch.items, i, |old(notifier.local)|, before, notifier.local);
        if d.malformed.Some? {
          LoggedAt(LogEntry(Warning, MalformedMessage(d.msg, d.malformed.value)), |old(notifier.local)|,
            notifier.local, |before|);
        }
        i := i + 1;
      }
      match fetch.failure
      case None =>
        err := None;
      case Some(e) =>
        if CriticalError(e) {
          err := Some("Critical email error: " + e);
        } else {
          ghost var before := notifier.local;
          notifier.Log(Warning, NonCriticalMessage(e));
          Grown(old(notifier.local), before, notifier.local);
          KeptWarnings(fetch.items, |fetch.items|, |old(notifier.local)|, before, notifier.local);
          LoggedAt(LogEntry(Warning, NonCriticalMessage(e)), |old(notifier.local)|, notifier.local, |before|);
          err := None;
        }
    }

    /** The end of a successful poll cycle: announce the wait, then `asyncio.sleep(check_interval)`. */
    method WaitForNextCheck()
      modifies this`pauses, notifier`local, notifier`posts
      ensures pauses == old(pauses) + [app.checkInterval]
      ensures old(notifier.local) < notifier.local
    {
      notifier.Log(Debug, "💤 Waiting " + Decimal(app.checkInterval) + " seconds before next check...");
      pauses := pauses + [app.checkInterval];
    }

    /** The `except EmailProcessingError` block of the polling loop, up to its `break`. */
    method ReportAndPause(error: string)
      modifies this`pauses, notifier`local, notifier`posts
      ensures pauses == old(pauses) + [app.checkInterval]
      ensures old(notifier.local) < notifier.local
      ensures notifier.local[|old(notifier.local)|] == LogEntry(Error, "❌ Error in email processing: " + error)
    {
      notifier.Log(Error, "❌ Error in email processing: " + error);
      notifier.Log(Info, "🔄 Reconnecting...");
      pauses := pauses + [app.checkInterval];
    }

    /** Counts a successful check; every 100th one clears the dedup set and restarts the count. */
    method CountCheck(count: nat) returns (next: nat)
      requires count < 100
      modifies this`processed, notifier`local, notifier`posts
      ensures next == NextCount(count) && next < 100
      ensures old(notifier.local) <= notifier.local
      ensures View() == Tick(old(View()), count)
    {
      next := count + 1;
      if next >= 100 {
        processed := {};
        next := 0;
        notifier.Log(Debug, "🧹 Cleared processed emails cache");
      }
    }

    /**
     * One pass of `run_email_loop`'s `while True`: check the mailbox, then either report the
     * error and pause before the `break`, or count the check and pause until the next one.
     */
    method PollOnce(poll: Poll, count: nat) returns (err: Option<string>, next: nat)
      requires count < 100
      modifies this`processed, this`archived, this`moves, this`browser, this`pauses, notifier`local, notifier`posts
      ensures err == CheckError(connected, poll.fetch)
      ensures var checked := Check(old(View()), connected, poll, app.minutesToWait);
        View() == (if err.Some? then checked else Tick(checked, count))
      ensures err.None? ==> next == NextCount(count) && next < 100
      ensures pauses == old(pauses) + [app.checkInterval]
      ensures old(notifier.local) <= notifier.local
    {
      var failure := CheckEmails(poll.fetch, poll.now);
      ghost var log1 := notifier.local;
      if failure.Some? {
        ReportAndPause(failure.value);
        Grown(old(notifier.local), log1, notifier.local);
        return failure, count;
      }
      next := CountCheck(count);
      ghost var log2 := notifier.local;
      Grown(old(notifier.local), log1, log2);
      WaitForNextCheck();
      Grown(old(notifier.local), log2, notifier.local);
      err := None;
    }

    /**
     * `run_email_loop` over the polls the operator lets it run: returns at the `break`
     * that forces a reconnection, or reports the interrupt when the polls run out.
     */
    method RunEmailLoop(polls: seq<Poll>) returns (exit: LoopExit)
      modifies this`processed, this`archived, this`moves, this`browser, this`pauses, notifier`local, notifier`posts
      ensures old(notifier.local) <= notifier.local
      ensures var r := RunLoop(old(View()), connected, 0, polls, app.minutesToWait);
        View() == r.state && exit == r.exit && pauses == old(pauses) + Repeat(app.checkInterval, Pauses(r))
    {
      var checkCount := 0;
      var i := 0;
      while i < |polls|
        invariant 0 <= i <= |polls| && 0 <= checkCount < 100
        invariant Lift(RunLoop(View(), connected, checkCount, polls[i..], app.minutesToWait), i)
          == RunLoop(old(View()), connected, 0, polls, app.minutesToWait)
        invariant pauses == old(pauses) + Repeat(app.checkInterval, i)
        invariant old(notifier.local) <= notifier.local
      {
        ghost var before, count0 := View(), checkCount;
        ghost var log0 := notifier.local;
        var err;
        err, checkCount := PollOnce(polls[i], checkCount);
        Grown(old(notifier.local), log0, notifier.local);
        if err.Some? {
          LoopBreaks(before, connected, count0, polls, i, app.minutesToWait);
          return Reconnect(i);
        }
        LoopAdvances(before, connected, count0, polls, i, app.minutesToWait);
        i := i + 1;
      }
      return Stopped;
    }
  }
}
