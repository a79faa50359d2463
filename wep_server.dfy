/**
 * The server of `wep.py`: no input stripping or validation,
 * registration by `INSERT OR IGNORE`, a top-up that logs even an unknown card, and a
 * spend that writes the new balance and its log row in one commit. Its `log_action`
 * does not catch errors, so every call that returns has stored its row.
 */
module WepServer {
  import opened Options
  import opened Text
  import opened Ledger

  /** The holder name logged by a top-up of an unknown card. */
  const UnknownUser: string := "Unknown"

  function RegisteredAction(username: string, balance: int): string {
    "User added (" + username + "), Balance=" + Decimal(balance)
  }

  function MoneyAddedAction(username: string, added: int): string {
    "Money added (" + username + "), +" + Decimal(added)
  }

  function HourCoinAction(username: string, hours: int): string {
    username + " " + Decimal(hours) + " hour coin"
  }

  /**
   * `add_user`: `INSERT OR IGNORE` then a log row. A new card is inserted with the
   * given holder and balance; an existing card keeps its account untouched. Either
   * way one "User added" row is logged with the submitted balance.
   */
  function InsertOrIgnore(s: Store, cardId: string, username: string, balance: int): (r: Store)
    ensures cardId in s.accounts ==> r.accounts == s.accounts
    ensures cardId !in s.accounts ==>
      && r.accounts.Keys == s.accounts.Keys + {cardId}
      && r.accounts[cardId] == Account(username, balance)
      && OthersUnchanged(s.accounts, r.accounts, cardId)
    ensures AppendsRow(s.log, r.log, LogEntry(cardId, username, RegisteredAction(username, balance), balance), true)
  {
    var accounts := if cardId in s.accounts then s.accounts else s.accounts[cardId := Account(username, balance)];
    Store(accounts, LogAction(s.log, LogEntry(cardId, username, RegisteredAction(username, balance), balance), true))
  }

  /**
   * `update_balance`. A missing or empty card id or amount changes nothing and logs
   * nothing (an amount of 0 is present, hence accepted). A registered card grows by the
   * amount and the row carries its new balance; an unknown card changes no account but
   * still logs a row for holder "Unknown" with balance 0.
   */
  function AddMoney(s: Store, cardId: Option<string>, added: Option<int>): (r: Store)
    ensures cardId.None? || cardId == Some([]) || added.None? ==> r == s
    ensures cardId.Some? && cardId.value != [] && added.Some? ==>
      var card, amount := cardId.value, added.value;
      && AppendsRow(s.log, r.log,
                    if card in s.accounts
                    then LogEntry(card, s.accounts[card].username,
                                  MoneyAddedAction(s.accounts[card].username, amount), s.accounts[card].balance + amount)
                    else LogEntry(card, UnknownUser, MoneyAddedAction(UnknownUser, amount), 0),
                    true)
      && r.accounts.Keys == s.accounts.Keys
      && OthersUnchanged(s.accounts, r.accounts, card)
      && (card in s.accounts ==> r.accounts[card] == s.accounts[card].(balance := s.accounts[card].balance + amount))
    ensures NonNegative(s.accounts) && added.GetOr(0) >= 0 ==> NonNegative(r.accounts)
  {
    if cardId.None? || cardId.value == [] || added.None? then s
    else
      var card, amount := cardId.value, added.value;
      var accounts :=
        if card in s.accounts then s.accounts[card := s.accounts[card].(balance := s.accounts[card].balance + amount)]
        else s.accounts;
      var balance := if card in accounts then accounts[card].balance else 0;
      var username := if card in accounts then accounts[card].username else UnknownUser;
      Store(accounts, LogAction(s.log, LogEntry(card, username, MoneyAddedAction(username, amount), balance), true))
  }

  /**
   * `spend`: an absent or unknown card, or a balance below the hours, is refused with
   * 400 and nothing written. Otherwise the balance drops by the hours and its log row
   * is written in the same commit: both happen or neither does.
   */
  function SpendHours(s: Store, cardId: Option<string>, hours: int): (r: Step)
    ensures r.reply == Error(400, UserNotFound) <==> cardId.None? || cardId.value !in s.accounts
    ensures r.reply == Redirect <==>
      cardId.Some? && cardId.value in s.accounts && s.accounts[cardId.value].balance >= hours
    ensures r.reply.Error? ==> r.store == s && r.reply.status == 400
    ensures cardId.Some? && cardId.value in s.accounts ==>
      (r.reply == Error(400, InsufficientBalance(s.accounts[cardId.value].balance, hours))
       <==> s.accounts[cardId.value].balance < hours)
    ensures r.reply == Redirect ==>
      var card := cardId.value;
      var old_ := s.accounts[card];
      && r.store.accounts.Keys == s.accounts.Keys
      && r.store.accounts[card] == Account(old_.username, old_.balance - hours)
      && r.store.accounts[card].balance >= 0
      && OthersUnchanged(s.accounts, r.store.accounts, card)
      && AppendsRow(s.log, r.store.log,
                    LogEntry(card, old_.username, HourCoinAction(old_.username, hours), old_.balance - hours), true)
    ensures NonNegative(s.accounts) ==> NonNegative(r.store.accounts)
  {
    if cardId.None? || cardId.value !in s.accounts then Step(s, Error(400, UserNotFound))
    else
      var card := cardId.value;
      var acct := s.accounts[card];
      var cost := hours;
      if acct.balance < cost then Step(s, Error(400, InsufficientBalance(acct.balance, cost)))
      else
        var balance := acct.balance - cost;
        var row := LogEntry(card, acct.username, HourCoinAction(acct.username, hours), balance);
        Step(Store(s.accounts[card := acct.(balance := balance)], s.log + [row]), Redirect)
  }

  /** The database as this variant sees it (it has no `LAST_RFID` slot). */
  class Server {
    var accounts: map<string, Account>
    var log: seq<LogEntry>

    /** An empty database with the schema `wep.py` reads and writes. */
    constructor ()
      ensures accounts == map[] && log == []
    {
      accounts := map[];
      log := [];
    }

    function Tables(): Store
      reads this
    {
      Store(accounts, log)
    }

    /** `log_action`: insert one row (a failure here is an unhandled 500, not modelled). */
    method LogAction(cardId: string, username: string, action: string, balance: int)
      modifies this
      ensures log == old(log) + [LogEntry(cardId, username, action, balance)]
      ensures accounts == old(accounts)
    {
      log := log + [LogEntry(cardId, username, action, balance)];
    }

    /** POST `/add_user`; always redirects. */
    method AddUser(cardId: string, username: string, balance: int) returns (reply: Reply)
      modifies this
      ensures reply == Redirect
      ensures Tables() == InsertOrIgnore(old(Tables()), cardId, username, balance)
    {
      if cardId !in accounts {
        accounts := accounts[cardId := Account(username, balance)];
      }
      LogAction(cardId, username, RegisteredAction(username, balance), balance);
      reply := Redirect;
    }

    /** POST `/update_balance`; always redirects. */
    method UpdateBalance(cardId: Option<string>, added: Option<int>) returns (reply: Reply)
      modifies this
      ensures reply == Redirect
      ensures Tables() == AddMoney(old(Tables()), cardId, added)
    {
      reply := Redirect;
      if cardId.None? || cardId.value == [] || added.None? {
        return;
      }
      var card, amount := cardId.value, added.value;
      if card in accounts {
        accounts := accounts[card := accounts[card].(balance := accounts[card].balance + amount)];
      }
      var balance := if card in accounts then accounts[card].balance else 0;
      var username := if card in accounts then accounts[card].username else UnknownUser;
      LogAction(card, username, MoneyAddedAction(username, amount), balance);
    }

    /** POST `/spend`: the balance update and the log insert share one commit. */
    method Spend(cardId: Option<string>, hours: int) returns (reply: Reply)
      modifies this
      ensures Step(Tables(), reply) == SpendHours(old(Tables()), cardId, hours)
    {
      if cardId.None? || cardId.value !in accounts {
        return Error(400, UserNotFound);
      }
      var card := cardId.value;
      var acct := accounts[card];
      var cost := hours;
      if acct.balance < cost {
        return Error(400, InsufficientBalance(acct.balance, cost));
      }
      var balance := acct.balance - cost;
      accounts := accounts[card := acct.(balance := balance)];
      log := log + [LogEntry(card, acct.username, HourCoinAction(acct.username, hours), balance)];
      reply := Redirect;
    }
  }
}
