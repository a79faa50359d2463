/**
 * The server of `cloneWep.py`: every database call goes through the retry policy of
 * module `Retry`, the device endpoint POST `/scan_card` always debits (zero or
 * negative coins are refused), GET `/scan_card` answers the cached scan without
 * clearing it, and `/spend_api` is retired.
 *
 * The handlers' queries are taken to go through; only the log insert's retries are
 * modelled, through `tries`, the outcome of each attempt.
 */
module CloneWepServer {
  import opened Options
  import opened Text
  import opened Ledger
  import opened Retry

  /** The machine id recorded when the device sends none. */
  const DefaultMachine: string := "laundry_machine_1"

  function CoinsOnAction(coins: int, machineId: string): string {
    "Used " + Decimal(coins) + " coin(s) on " + machineId
  }

  /** Whether a POST `/scan_card` passes validation; `coins` defaults to 1 when absent. */
  predicate ValidScan(hasData: bool, cardField: string, coins: Option<int>) {
    hasData && Strip(cardField) != [] && coins.GetOr(1) > 0
  }

  /**
   * POST `/scan_card`. A missing JSON body, an empty card id, or coins ≤ 0 is refused
   * with 400 before the cache or any account is touched. Otherwise the scan is cached;
   * an unknown card is reported, an insufficient balance is declined with nothing
   * changed, and a covered request lowers the balance by exactly the coins (so
   * strictly) and logs one row carrying the new balance.
   */
  function ScanDebit(s: Store, cache: Option<ScanRecord>, hasData: bool, cardField: string,
                     coins: Option<int>, machineId: Option<string>, now: string, stored: bool): (r: ScanStep)
    ensures !hasData ==> r == ScanStep(s, cache, ScanError(400, NoJson))
    ensures hasData && Strip(cardField) == [] ==> r == ScanStep(s, cache, ScanError(400, MissingField))
    ensures hasData && Strip(cardField) != [] && coins.GetOr(1) <= 0 ==>
      r == ScanStep(s, cache, ScanError(400, InvalidInput))
    ensures r.reply.ScanError? <==> !ValidScan(hasData, cardField, coins)
    ensures ValidScan(hasData, cardField, coins) ==>
      r.cache == Some(ScanRecord(Strip(cardField), coins.GetOr(1), machineId.GetOr(DefaultMachine), now))
    ensures !r.reply.Welcome?
    ensures r.reply.Unregistered? <==> ValidScan(hasData, cardField, coins) && Strip(cardField) !in s.accounts
    ensures r.reply.Unregistered? ==> r.reply.cardId == Strip(cardField)
    ensures r.reply.Declined? <==>
      ValidScan(hasData, cardField, coins) && Strip(cardField) in s.accounts
      && s.accounts[Strip(cardField)].balance < coins.GetOr(1)
    ensures r.reply.Declined? ==>
      r.reply == Declined(s.accounts[Strip(cardField)].username, s.accounts[Strip(cardField)].balance, coins.GetOr(1))
    ensures r.reply.ActivateMachine() <==>
      ValidScan(hasData, cardField, coins) && Strip(cardField) in s.accounts
      && s.accounts[Strip(cardField)].balance >= coins.GetOr(1)
    ensures !r.reply.ActivateMachine() ==> r.store == s
    ensures r.reply.ActivateMachine() ==>
      var card, n := Strip(cardField), coins.GetOr(1);
      var old_ := s.accounts[card];
      && r.reply == Approved(old_.username, old_.balance - n, n)
      && r.store.accounts.Keys == s.accounts.Keys
      && r.store.accounts[card] == Account(old_.username, old_.balance - n)
      && 0 <= r.store.accounts[card].balance < old_.balance
      && OthersUnchanged(s.accounts, r.store.accounts, card)
      && AppendsRow(s.log, r.store.log,
                    LogEntry(card, old_.username, CoinsOnAction(n, machineId.GetOr(DefaultMachine)), old_.balance - n),
                    stored)
    ensures NonNegative(s.accounts) ==> NonNegative(r.store.accounts)
  {
    var card, n, machine := Strip(cardField), coins.GetOr(1), machineId.GetOr(DefaultMachine);
    if !hasData then ScanStep(s, cache, ScanError(400, NoJson))
    else if card == [] then ScanStep(s, cache, ScanError(400, MissingField))
    else if n <= 0 then ScanStep(s, cache, ScanError(400, InvalidInput))
    else
      var cached := Some(ScanRecord(card, n, machine, now));
      if card !in s.accounts then ScanStep(s, cached, Unregistered(card))
      else
        var acct := s.accounts[card];
        if acct.balance < n then ScanStep(s, cached, Declined(acct.username, acct.balance, n))
        else
          var balance := acct.balance - n;
          var row := LogEntry(card, acct.username, CoinsOnAction(n, machine), balance);
          ScanStep(Store(s.accounts[card := acct.(balance := balance)], LogAction(s.log, row, stored)),
                   cached, Approved(acct.username, balance, n))
  }

  /** The process state: the two tables and the `LAST_RFID` slot. */
  class Server {
    var accounts: map<string, Account>
    var log: seq<LogEntry>
    var lastRfid: Option<ScanRecord>

    /** `init_db` on an empty database, with no card scanned yet. */
    constructor ()
      ensures accounts == map[] && log == [] && lastRfid == None
    {
      accounts := map[];
      log := [];
      lastRfid := None;
    }

    function Tables(): Store
      reads this
    {
      Store(accounts, log)
    }

    /**
     * `log_action` with retries: the row is inserted by the first attempt that commits;
     * a lock error is retried while attempts remain, and any other failure, or a third
     * lock error, gives up with false. It never raises.
     */
    method LogAction(cardId: string, username: string, action: string, balance: int, tries: nat -> Attempt)
      returns (ok: bool)
      modifies this
      ensures ok <==> Policy(tries).Done?
      ensures log == Ledger.LogAction(old(log), LogEntry(cardId, username, action, balance), ok)
      ensures accounts == old(accounts) && lastRfid == old(lastRfid)
    {
      for attempt := 0 to MaxAttempts
        invariant attempt < MaxAttempts
        invariant Policy(tries) == PolicyFrom(tries, attempt)
        invariant log == old(log) && accounts == old(accounts) && lastRfid == old(lastRfid)
      {
        match tries(attempt)
        case Commits =>
          log := log + [LogEntry(cardId, username, action, balance)];
          return true;
        case Raises(e) =>
          if !(e == Locked && attempt < MaxAttempts - 1) {
            return false;
          }
          // `log_action` sleeps BackoffMs(attempt) milliseconds before the next attempt
      }
    }

    /** POST `/add_user`. */
    method AddUser(cardField: string, nameField: string, balance: int, logTries: nat -> Attempt)
      returns (reply: Reply)
      modifies this
      ensures Step(Tables(), reply)
           == Ledger.AddUser(old(Tables()), cardField, nameField, balance, Policy(logTries).Done?)
      ensures lastRfid == old(lastRfid)
    {
      // `spec` is not read: naming the specified result up front only keeps the proof fast.
      ghost var spec := Ledger.AddUser(Tables(), cardField, nameField, balance, Policy(logTries).Done?);
      var cardId := Strip(cardField);
      var username := Strip(nameField);
      if cardId == [] || username == [] {
        return Error(400, MissingField);
      }
      if cardId in accounts {
        return Error(400, DuplicateCard);
      }
      accounts := accounts[cardId := Account(username, balance)];
      var _ := LogAction(cardId, username, UserAddedAction(balance), balance, logTries);
      reply := Redirect;
    }

    /** POST `/update_balance`. */
    method UpdateBalance(cardField: string, added: int, logTries: nat -> Attempt) returns (reply: Reply)
      modifies this
      ensures Step(Tables(), reply) == Ledger.UpdateBalance(old(Tables()), cardField, added, Policy(logTries).Done?)
      ensures lastRfid == old(lastRfid)
    {
      ghost var spec := Ledger.UpdateBalance(Tables(), cardField, added, Policy(logTries).Done?);
      var cardId := Strip(cardField);
      if cardId == [] || added <= 0 {
        return Error(400, InvalidInput);
      }
      if cardId !in accounts {
        return Error(404, UserNotFound);
      }
      var acct := accounts[cardId];
      var balance := acct.balance + added;
      accounts := accounts[cardId := acct.(balance := balance)];
      var _ := LogAction(cardId, acct.username, BalanceAddedAction(added), balance, logTries);
      reply := Redirect;
    }

    /** POST `/spend`. */
    method Spend(cardField: string, hours: int, logTries: nat -> Attempt) returns (reply: Reply)
      modifies this
      ensures Step(Tables(), reply) == Ledger.Spend(old(Tables()), cardField, hours, Policy(logTries).Done?)
      ensures lastRfid == old(lastRfid)
    {
      var cardId := Strip(cardField);
      var cost := hours;
      ghost var spec := Ledger.Spend(Tables(), cardField, hours, Policy(logTries).Done?);
      if cardId == [] {
        return Error(400, MissingField);
      }
      if cardId !in accounts {
        return Error(404, UserNotFound);
      }
      var acct := accounts[cardId];
      if acct.balance < cost {
        return Error(400, InsufficientBalance(acct.balance, cost));
      }
      var balance := acct.balance - cost;
      accounts := accounts[cardId := acct.(balance := balance)];
      var _ := LogAction(cardId, acct.username, UsedHoursAction(hours, cost), balance, logTries);
      reply := Redirect;
    }

    /**
     * POST `/scan_card`; `hasData` is false when the body is missing, not JSON or a
     * falsy JSON value (`{}`, `[]`, `0`), which is the 400 "No JSON data received". A
     * truthy body that is not a JSON object makes `data.get` raise, a 500 that is not
     * modelled. An absent `coins` or `machine_id` is None.
     */
    method ScanCardPost(hasData: bool, cardField: string, coins: Option<int>, machineId: Option<string>,
                        now: string, logTries: nat -> Attempt)
      returns (reply: ScanReply)
      modifies this
      ensures ScanStep(Tables(), lastRfid, reply)
           == ScanDebit(old(Tables()), old(lastRfid), hasData, cardField, coins, machineId, now, Policy(logTries).Done?)
    {
      ghost var spec := ScanDebit(Tables(), lastRfid, hasData, cardField, coins, machineId, now, Policy(logTries).Done?);
      if !hasData {
        return ScanError(400, NoJson);
      }
      var cardId := Strip(cardField);
      var requested := coins.GetOr(1);
      var machine := machineId.GetOr(DefaultMachine);
      if cardId == [] {
        return ScanError(400, MissingField);
      }
      if requested <= 0 {
        return ScanError(400, InvalidInput);
      }
      lastRfid := Some(ScanRecord(cardId, requested, machine, now));
      if cardId !in accounts {
        return Unregistered(cardId);
      }
      var acct := accounts[cardId];
      if acct.balance < requested {
        return Declined(acct.username, acct.balance, requested);
      }
      var balance := acct.balance - requested;
      accounts := accounts[cardId := acct.(balance := balance)];
      var _ := LogAction(cardId, acct.username, CoinsOnAction(requested, machine), balance, logTries);
      reply := Approved(acct.username, balance, requested);
    }

    /**
     * GET `/scan_card`: the cached scan (None is the 404). The slot is not cleared, so
     * repeated reads give the same answer until the next POST.
     */
    method ScanCardGet() returns (record: Option<ScanRecord>)
      ensures record == lastRfid
    {
      record := lastRfid;
    }

    /** `/spend_api`: retired; always 410 Gone, nothing read or changed. */
    method SpendApi() returns (status: nat)
      ensures status == 410
    {
      status := 410;
    }
  }
}
