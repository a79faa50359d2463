/**
 * The server of `Clones/19-01-26clone.py`: the shared ledger handlers, a device
 * endpoint `/scan_card` that either shows a card (zero coins) or debits it, and a
 * single-slot cache `LAST_RFID` that `/get_last_card` empties when it reads it.
 */
module CloneServer {
  import opened Options
  import opened Text
  import opened Ledger

  /** The answer of `/get_last_card` (None is the 404) and the cache after it. */
  datatype CacheRead = CacheRead(cardId: Option<string>, cache: Option<ScanRecord>)

  function MachineUsedAction(machineId: string, coins: int): string {
    "Machine " + machineId + " used " + Decimal(coins) + " coin(s)"
  }

  /**
   * POST `/scan_card`. An empty card id is refused before the cache is touched; any
   * other card id, registered or not, becomes the cached last card. Zero coins only
   * shows the card; otherwise the debit goes through exactly when the balance covers
   * the coins, and only then is the machine activated, the balance lowered by the
   * coins and one row logged with the new balance.
   */
  function ScanOutcome(s: Store, cache: Option<ScanRecord>, cardField: string, coins: int,
                       machineId: string, now: string, stored: bool): (r: ScanStep)
    ensures Strip(cardField) == [] ==> r == ScanStep(s, cache, ScanError(400, MissingField))
    ensures Strip(cardField) != [] ==> r.cache == Some(ScanRecord(Strip(cardField), coins, machineId, now))
    ensures r.reply.Unregistered? <==> Strip(cardField) != [] && Strip(cardField) !in s.accounts
    ensures r.reply.Unregistered? ==> r.reply.cardId == Strip(cardField)
    ensures r.reply.Welcome? <==> Strip(cardField) != [] && Strip(cardField) in s.accounts && coins == 0
    ensures r.reply.Welcome? ==> r.reply == Welcome(s.accounts[Strip(cardField)].username, s.accounts[Strip(cardField)].balance)
    ensures r.reply.Declined? <==>
      Strip(cardField) != [] && Strip(cardField) in s.accounts && coins != 0 && s.accounts[Strip(cardField)].balance < coins
    ensures r.reply.Declined? ==>
      r.reply == Declined(s.accounts[Strip(cardField)].username, s.accounts[Strip(cardField)].balance, coins)
    ensures r.reply.ActivateMachine() <==>
      Strip(cardField) != [] && Strip(cardField) in s.accounts && coins != 0 && s.accounts[Strip(cardField)].balance >= coins
    ensures !r.reply.ActivateMachine() ==> r.store == s
    ensures r.reply.ActivateMachine() ==>
      var card := Strip(cardField);
      var old_ := s.accounts[card];
      && r.reply == Approved(old_.username, old_.balance - coins, coins)
      && r.store.accounts.Keys == s.accounts.Keys
      && r.store.accounts[card] == Account(old_.username, old_.balance - coins)
      && r.store.accounts[card].balance >= 0
      && OthersUnchanged(s.accounts, r.store.accounts, card)
      && AppendsRow(s.log, r.store.log,
                    LogEntry(card, old_.username, MachineUsedAction(machineId, coins), old_.balance - coins), stored)
    ensures NonNegative(s.accounts) ==> NonNegative(r.store.accounts)
  {
    var card := Strip(cardField);
    if card == [] then ScanStep(s, cache, ScanError(400, MissingField))
    else
      var cached := Some(ScanRecord(card, coins, machineId, now));
      if card !in s.accounts then ScanStep(s, cached, Unregistered(card))
      else
        var acct := s.accounts[card];
        if coins == 0 then ScanStep(s, cached, Welcome(acct.username, acct.balance))
        else if acct.balance < coins then ScanStep(s, cached, Declined(acct.username, acct.balance, coins))
        else
          var balance := acct.balance - coins;
          var row := LogEntry(card, acct.username, MachineUsedAction(machineId, coins), balance);
          ScanStep(Store(s.accounts[card := acct.(balance := balance)], LogAction(s.log, row, stored)),
                   cached, Approved(acct.username, balance, coins))
  }

  /**
   * GET `/get_last_card`: answers the cached card id, or 404 when the slot is empty,
   * and leaves the slot empty either way, so a second read without a new scan is a 404.
   */
  function TakeLastCard(cache: Option<ScanRecord>): (r: CacheRead)
    ensures r.cache == None
    ensures r.cardId.Some? <==> cache.Some?
    ensures cache.Some? ==> r.cardId.value == cache.value.cardId
  {
    match cache
    case Some(record) => CacheRead(Some(record.cardId), None)
    case None => CacheRead(None, None)
  }

  /** The process state: the two tables and the `LAST_RFID` slot. */
  class Server {
    var accounts: map<string, Account>
    var log: seq<LogEntry>
    var lastRfid: Option<ScanRecord>

    /** `init_db` on an empty database, with no card scanned yet. */
    constructor ()
      ensures accounts == map[] && log == [] && lastRfid == None
    {
      accounts := map[];
      log := [];
      lastRfid := None;
    }

    function Tables(): Store
      reads this
    {
      Store(accounts, log)
    }

    /** `log_action`: insert one row; a failed insert (`stored` false) is swallowed and reported as false. */
    method LogAction(cardId: string, username: string, action: string, balance: int, stored: bool)
      returns (ok: bool)
      modifies this
      ensures ok == stored
      ensures log == Ledger.LogAction(old(log), LogEntry(cardId, username, action, balance), stored)
      ensures accounts == old(accounts) && lastRfid == old(lastRfid)
    {
      if stored {
        log := log + [LogEntry(cardId, username, action, balance)];
        ok := true;
      } else {
        ok := false;
      }
    }

    /** POST `/add_user`. */
    method AddUser(cardField: string, nameField: string, balance: int, logStored: bool) returns (reply: Reply)
      modifies this
      ensures Step(Tables(), reply) == Ledger.AddUser(old(Tables()), cardField, nameField, balance, logStored)
      ensures lastRfid == old(lastRfid)
    {
      // `spec` is not read: naming the specified result up front only keeps the proof fast.
      ghost var spec := Ledger.AddUser(Tables(), cardField, nameField, balance, logStored);
      var cardId := Strip(cardField);
      var username := Strip(nameField);
      if cardId == [] || username == [] {
        return Error(400, MissingField);
      }
      if cardId in accounts {
        return Error(400, DuplicateCard);
      }
      accounts := accounts[cardId := Account(username, balance)];
      var _ := LogAction(cardId, username, UserAddedAction(balance), balance, logStored);
      reply := Redirect;
    }

    /** POST `/update_balance`. */
    method UpdateBalance(cardField: string, added: int, logStored: bool) returns (reply: Reply)
      modifies this
      ensures Step(Tables(), reply) == Ledger.UpdateBalance(old(Tables()), cardField, added, logStored)
      ensures lastRfid == old(lastRfid)
    {
      ghost var spec := Ledger.UpdateBalance(Tables(), cardField, added, logStored);
      var cardId := Strip(cardField);
      if cardId == [] || added <= 0 {
        return Error(400, InvalidInput);
      }
      if cardId !in accounts {
        return Error(404, UserNotFound);
      }
      var acct := accounts[cardId];
      var balance := acct.balance + added;
      accounts := accounts[cardId := acct.(balance := balance)];
      var _ := LogAction(cardId, acct.username, BalanceAddedAction(added), balance, logStored);
      reply := Redirect;
    }

    /** POST `/spend`. */
    method Spend(cardField: string, hours: int, logStored: bool) returns (reply: Reply)
      modifies this
      ensures Step(Tables(), reply) == Ledger.Spend(old(Tables()), cardField, hours, logStored)
      ensures lastRfid == old(lastRfid)
    {
      var cardId := Strip(cardField);
      var cost := hours;
      ghost var spec := Ledger.Spend(Tables(), cardField, hours, logStored);
      if cardId == [] {
        return Error(400, MissingField);
      }
      if cardId !in accounts {
        return Error(404, UserNotFound);
      }
      var acct := accounts[cardId];
      if acct.balance < cost {
        return Error(400, InsufficientBalance(acct.balance, cost));
      }
      var balance := acct.balance - cost;
      accounts := accounts[cardId := acct.(balance := balance)];
      var _ := LogAction(cardId, acct.username, UsedHoursAction(hours, cost), balance, logStored);
      reply := Redirect;
    }

    /** POST `/scan_card` from the ESP32; `now` is the timestamp written into the cache. */
    method ScanCard(cardField: string, coins: int, machineId: string, now: string, logStored: bool)
      returns (reply: ScanReply)
      modifies this
      ensures ScanStep(Tables(), lastRfid, reply)
           == ScanOutcome(old(Tables()), old(lastRfid), cardField, coins, machineId, now, logStored)
    {
      ghost var spec := ScanOutcome(Tables(), lastRfid, cardField, coins, machineId, now, logStored);
      var cardId := Strip(cardField);
      if cardId == [] {
        return ScanError(400, MissingField);
      }
      lastRfid := Some(ScanRecord(cardId, coins, machineId, now));
      if cardId !in accounts {
        return Unregistered(cardId);
      }
      var acct := accounts[cardId];
      if coins == 0 {
        return Welcome(acct.username, acct.balance);
      }
      if acct.balance < coins {
        return Declined(acct.username, acct.balance, coins);
      }
      var balance := acct.balance - coins;
      accounts := accounts[cardId := acct.(balance := balance)];
      var _ := LogAction(cardId, acct.username, MachineUsedAction(machineId, coins), balance, logStored);
      reply := Approved(acct.username, balance, coins);
    }

    /** GET `/get_last_card`. */
    method GetLastCard() returns (cardId: Option<string>)
      modifies this
      ensures CacheRead(cardId, lastRfid) == TakeLastCard(old(lastRfid))
      ensures accounts == old(accounts) && log == old(log)
    {
      if lastRfid.Some? {
        cardId := Some(lastRfid.value.cardId);
        lastRfid := None;
      } else {
        cardId := None;
      }
    }
  }
}
