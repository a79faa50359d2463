/**
 * The server of `web.py`: the shared ledger handlers, a device endpoint POST
 * `/scan_card` that only looks a card up (it never charges anything), and a
 * `LAST_RFID` slot that GET `/scan_card` empties when it reads it.
 */
module WebServer {
  import opened Options
  import opened Text
  import opened Ledger

  /** `LAST_RFID` in this variant: the card id and when it was seen. */
  datatype CardSeen = CardSeen(cardId: string, timestamp: string)

  /** The answer of GET `/scan_card` (None is the 404) and the cache after it. */
  datatype SeenRead = SeenRead(cardId: Option<string>, cache: Option<CardSeen>)

  /**
   * The answer of POST `/scan_card`: 400 for an empty card id; otherwise whether the
   * card is registered and, when it is, its holder and current balance. It never
   * activates a machine.
   */
  function Lookup(accounts: map<string, Account>, cardField: string): (r: ScanReply)
    ensures r == ScanError(400, MissingField) <==> Strip(cardField) == []
    ensures r.Unregistered? <==> Strip(cardField) != [] && Strip(cardField) !in accounts
    ensures r.Unregistered? ==> r.cardId == Strip(cardField)
    ensures r.UserExists() <==> Strip(cardField) != [] && Strip(cardField) in accounts
    ensures r.UserExists() ==>
      r == Welcome(accounts[Strip(cardField)].username, accounts[Strip(cardField)].balance)
    ensures !r.ActivateMachine()
  {
    var card := Strip(cardField);
    if card == [] then ScanError(400, MissingField)
    else if card in accounts then Welcome(accounts[card].username, accounts[card].balance)
    else Unregistered(card)
  }

  /**
   * GET `/scan_card`: the cached card id, or 404 when the slot is empty; the slot is
   * empty afterwards, so the next read without a new scan is a 404.
   */
  function TakeSeenCard(cache: Option<CardSeen>): (r: SeenRead)
    ensures r.cache == None
    ensures r.cardId.Some? <==> cache.Some?
    ensures cache.Some? ==> r.cardId.value == cache.value.cardId
  {
    match cache
    case Some(seen) => SeenRead(Some(seen.cardId), None)
    case None => SeenRead(None, None)
  }

  /** The process state: the two tables and the `LAST_RFID` slot. */
  class Server {
    var accounts: map<string, Account>
    var log: seq<LogEntry>
    var lastRfid: Option<CardSeen>

    /** `init_db` on an empty database, with no card scanned yet. */
    constructor ()
      ensures accounts == map[] && log == [] && lastRfid == None
    {
      accounts := map[];
      log := [];
      lastRfid := None;
    }

    function Tables(): Store
      reads this
    {
      Store(accounts, log)
    }

    /** `log_action`: insert one row; a failed insert (`stored` false) is swallowed and reported as false. */
    method LogAction(cardId: string, username: string, action: string, balance: int, stored: bool)
      returns (ok: bool)
      modifies this
      ensures ok == stored
      ensures log == Ledger.LogAction(old(log), LogEntry(cardId, username, action, balance), stored)
      ensures accounts == old(accounts) && lastRfid == old(lastRfid)
    {
      if stored {
        log := log + [LogEntry(cardId, username, action, balance)];
        ok := true;
      } else {
        ok := false;
      }
    }

    /** POST `/add_user`. */
    method AddUser(cardField: string, nameField: string, balance: int, logStored: bool) returns (reply: Reply)
      modifies this
      ensures Step(Tables(), reply) == Ledger.AddUser(old(Tables()), cardField, nameField, balance, logStored)
      ensures lastRfid == old(lastRfid)
    {
      // `spec` is not read: naming the specified result up front only keeps the proof fast.
      ghost var spec := Ledger.AddUser(Tables(), cardField, nameField, balance, logStored);
      var cardId := Strip(cardField);
      var username := Strip(nameField);
      if cardId == [] || username == [] {
        return Error(400, MissingField);
      }
      if cardId in accounts {
        return Error(400, DuplicateCard);
      }
      accounts := accounts[cardId := Account(username, balance)];
      var _ := LogAction(cardId, username, UserAddedAction(balance), balance, logStored);
      reply := Redirect;
    }

    /** POST `/update_balance`. */
    method UpdateBalance(cardField: string, added: int, logStored: bool) returns (reply: Reply)
      modifies this
      ensures Step(Tables(), reply) == Ledger.UpdateBalance(old(Tables()), cardField, added, logStored)
      ensures lastRfid == old(lastRfid)
    {
      ghost var spec := Ledger.UpdateBalance(Tables(), cardField, added, logStored);
      var cardId := Strip(cardField);
      if cardId == [] || added <= 0 {
        return Error(400, InvalidInput);
      }
      if cardId !in accounts {
        return Error(404, UserNotFound);
      }
      var acct := accounts[cardId];
      var balance := acct.balance + added;
      accounts := accounts[cardId := acct.(balance := balance)];
      var _ := LogAction(cardId, acct.username, BalanceAddedAction(added), balance, logStored);
      reply := Redirect;
    }

    /** POST `/spend`. */
    method Spend(cardField: string, hours: int, logStored: bool) returns (reply: Reply)
      modifies this
      ensures Step(Tables(), reply) == Ledger.Spend(old(Tables()), cardField, hours, logStored)
      ensures lastRfid == old(lastRfid)
    {
      var cardId := Strip(cardField);
      var cost := hours;
      ghost var spec := Ledger.Spend(Tables(), cardField, hours, logStored);
      if cardId == [] {
        return Error(400, MissingField);
      }
      if cardId !in accounts {
        return Error(404, UserNotFound);
      }
      var acct := accounts[cardId];
      if acct.balance < cost {
        return Error(400, InsufficientBalance(acct.balance, cost));
      }
      var balance := acct.balance - cost;
      accounts := accounts[cardId := acct.(balance := balance)];
      var _ := LogAction(cardId, acct.username, UsedHoursAction(hours, cost), balance, logStored);
      reply := Redirect;
    }

    /** POST `/scan_card`: cache the card (unless its id is empty) and look it up; no account or log row changes. */
    method ScanCardPost(cardField: string, now: string) returns (reply: ScanReply)
      modifies this
      ensures reply == Lookup(old(accounts), cardField)
      ensures lastRfid == if Strip(cardField) == [] then old(lastRfid) else Some(CardSeen(Strip(cardField), now))
      ensures accounts == old(accounts) && log == old(log)
    {
      var cardId := Strip(cardField);
      if cardId == [] {
        return ScanError(400, MissingField);
      }
      lastRfid := Some(CardSeen(cardId, now));
      if cardId in accounts {
        var acct := accounts[cardId];
        reply := Welcome(acct.username, acct.balance);
      } else {
        reply := Unregistered(cardId);
      }
    }

    /** GET `/scan_card`. */
    method ScanCardGet() returns (cardId: Option<string>)
      modifies this
      ensures SeenRead(cardId, lastRfid) == TakeSeenCard(old(lastRfid))
      ensures accounts == old(accounts) && log == old(log)
    {
      if lastRfid.Some? {
        cardId := Some(lastRfid.value.cardId);
        lastRfid := None;
      } else {
        cardId := None;
      }
    }
  }
}
