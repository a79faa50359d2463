/**
 * The card ledger shared by the Flask variants: a table of accounts keyed by a
 * unique card id, an append-only table of log rows, and the three form handlers
 * (register a card, top up a balance, spend hours) that every variant except
 * `wep.py` implements the same way.
 *
 * A handler is a transition on a `Store`. Whether the log insert that follows a
 * committed change actually reaches the database is an input (`stored`): the
 * variants' `log_action` swallows a failed insert, so the balance change stands
 * while the log row is missing.
 */
module Ledger {
  import opened Options
  import opened Text

  /** A row of the `USERS` table; the card id is the key of the map that holds it. */
  datatype Account = Account(username: string, balance: int)

  /** A row of the `logs` table (the database timestamp is not modelled). */
  datatype LogEntry = LogEntry(cardId: string, username: string, action: string, balance: int)

  /** The two tables. `card_id` is UNIQUE in the schema, hence a map. */
  datatype Store = Store(accounts: map<string, Account>, log: seq<LogEntry>)

  /** Why a handler refused a request. */
  datatype Reason =
    | MissingField                              // "Card ID and username are required", "Card ID required"
    | InvalidInput                              // "Invalid input", "Coins must be greater than 0"
    | NoJson                                    // "No JSON data received"
    | DuplicateCard                             // "Card ID already exists!"
    | UserNotFound                              // "User not found"
    | InsufficientBalance(current: int, required: int)

  /** Response of a form handler: the redirect of a success, or an HTTP error. */
  datatype Reply = Redirect | Error(status: nat, reason: Reason)

  datatype Step = Step(store: Store, reply: Reply)

  /** The JSON answer of the device endpoint `/scan_card` (POST). */
  datatype ScanReply =
    | ScanError(status: nat, reason: Reason)              // HTTP 400
    | Unregistered(cardId: string)                        // "Card not registered"
    | Welcome(username: string, balance: int)             // card shown, nothing charged
    | Declined(username: string, balance: int, coinsRequired: int)
    | Approved(username: string, balance: int, coinsUsed: int)
  {
    /** The `activate_machine` field. */
    predicate ActivateMachine() { Approved? }

    /** The `user_exists` field. */
    predicate UserExists() { Welcome? || Declined? || Approved? }
  }

  /** One `LAST_RFID` record as `Clones/19-01-26clone.py` and `cloneWep.py` store it. */
  datatype ScanRecord = ScanRecord(cardId: string, coins: int, machineId: string, timestamp: string)

  /** The tables, the `LAST_RFID` slot and the answer after a device scan. */
  datatype ScanStep = ScanStep(store: Store, cache: Option<ScanRecord>, reply: ScanReply)

  /** No account holds a negative balance. */
  predicate NonNegative(accounts: map<string, Account>) {
    forall c :: c in accounts ==> accounts[c].balance >= 0
  }

  /** Every account other than `card` is the same before and after. */
  predicate OthersUnchanged(before: map<string, Account>, after: map<string, Account>, card: string) {
    && (forall c :: c in after && c != card ==> c in before && after[c] == before[c])
    && (forall c :: c in before && c != card ==> c in after)
  }

  /** `after` is `before` plus `row` at the end when the insert was stored, else `before`. */
  predicate AppendsRow(before: seq<LogEntry>, after: seq<LogEntry>, row: LogEntry, stored: bool) {
    && |after| == |before| + (if stored then 1 else 0)
    && after[..|before|] == before
    && (stored ==> after[|before|] == row)
  }

  /** `log_action`: the row is appended when the insert is stored, and the log is left alone otherwise. */
  function LogAction(log: seq<LogEntry>, row: LogEntry, stored: bool): (r: seq<LogEntry>)
    ensures AppendsRow(log, r, row, stored)
  {
    if stored then log + [row] else log
  }

  function UserAddedAction(balance: int): string {
    "User added with balance " + Decimal(balance)
  }

  function BalanceAddedAction(added: int): string {
    "Balance added +" + Decimal(added)
  }

  function UsedHoursAction(hours: int, cost: int): string {
    "Used " + Decimal(hours) + " hour(s) - " + Decimal(cost) + " coin(s)"
  }

  /**
   * `add_user`: register a card. Both fields are stripped and must be non-empty, the
   * card must be new; then the account is inserted with the given balance (any
   * integer: the server does not check its sign) and one row logs that balance.
   */
  function AddUser(s: Store, cardField: string, nameField: string, balance: int, stored: bool): (r: Step)
    ensures r.reply == Error(400, MissingField) <==> Strip(cardField) == [] || Strip(nameField) == []
    ensures r.reply == Error(400, DuplicateCard) <==>
      Strip(cardField) != [] && Strip(nameField) != [] && Strip(cardField) in s.accounts
    ensures r.reply == Redirect <==>
      Strip(cardField) != [] && Strip(nameField) != [] && Strip(cardField) !in s.accounts
    ensures r.reply.Error? ==> r.store == s
    ensures r.reply == Redirect ==>
      var card, name := Strip(cardField), Strip(nameField);
      && r.store.accounts.Keys == s.accounts.Keys + {card}
      && r.store.accounts[card] == Account(name, balance)
      && OthersUnchanged(s.accounts, r.store.accounts, card)
      && AppendsRow(s.log, r.store.log, LogEntry(card, name, UserAddedAction(balance), balance), stored)
    ensures NonNegative(s.accounts) && balance >= 0 ==> NonNegative(r.store.accounts)
  {
    var card, name := Strip(cardField), Strip(nameField);
    if card == [] || name == [] then Step(s, Error(400, MissingField))
    else if card in s.accounts then Step(s, Error(400, DuplicateCard))
    else
      var row := LogEntry(card, name, UserAddedAction(balance), balance);
      Step(Store(s.accounts[card := Account(name, balance)], LogAction(s.log, row, stored)), Redirect)
  }

  /**
   * `update_balance`: top up a card by `added`. An empty card id or a non-positive
   * amount is refused with 400, an unknown card with 404; otherwise the balance
   * grows by exactly `added` and one row logs the new balance.
   */
  function UpdateBalance(s: Store, cardField: string, added: int, stored: bool): (r: Step)
    ensures r.reply == Error(400, InvalidInput) <==> Strip(cardField) == [] || added <= 0
    ensures r.reply == Error(404, UserNotFound) <==>
      Strip(cardField) != [] && added > 0 && Strip(cardField) !in s.accounts
    ensures r.reply == Redirect <==> Strip(cardField) != [] && added > 0 && Strip(cardField) in s.accounts
    ensures r.reply.Error? ==> r.store == s
    ensures r.reply == Redirect ==>
      var card := Strip(cardField);
      var old_ := s.accounts[card];
      && r.store.accounts.Keys == s.accounts.Keys
      && r.store.accounts[card] == Account(old_.username, old_.balance + added)
      && OthersUnchanged(s.accounts, r.store.accounts, card)
      && AppendsRow(s.log, r.store.log,
                    LogEntry(card, old_.username, BalanceAddedAction(added), old_.balance + added), stored)
    ensures NonNegative(s.accounts) ==> NonNegative(r.store.accounts)
  {
    var card := Strip(cardField);
    if card == [] || added <= 0 then Step(s, Error(400, InvalidInput))
    else if card !in s.accounts then Step(s, Error(404, UserNotFound))
    else
      var acct := s.accounts[card];
      var balance := acct.balance + added;
      var row := LogEntry(card, acct.username, BalanceAddedAction(added), balance);
      Step(Store(s.accounts[card := acct.(balance := balance)], LogAction(s.log, row, stored)), Redirect)
  }

  /**
   * `spend`: charge `hours` coins (cost = hours). A debit is accepted only when the
   * balance covers the cost, so the balance after it is never negative; a refusal
   * changes nothing and logs nothing.
   */
  function Spend(s: Store, cardField: string, hours: int, stored: bool): (r: Step)
    ensures r.reply == Error(400, MissingField) <==> Strip(cardField) == []
    ensures r.reply == Error(404, UserNotFound) <==> Strip(cardField) != [] && Strip(cardField) !in s.accounts
    ensures (r.reply.Error? && r.reply.reason.InsufficientBalance?) <==>
      Strip(cardField) != [] && Strip(cardField) in s.accounts && s.accounts[Strip(cardField)].balance < hours
    ensures r.reply == Redirect <==>
      Strip(cardField) != [] && Strip(cardField) in s.accounts && s.accounts[Strip(cardField)].balance >= hours
    ensures r.reply.Error? && r.reply.reason.InsufficientBalance? ==>
      r.reply == Error(400, InsufficientBalance(s.accounts[Strip(cardField)].balance, hours))
    ensures r.reply.Error? ==> r.store == s
    ensures r.reply == Redirect ==>
      var card := Strip(cardField);
      var old_ := s.accounts[card];
      && r.store.accounts.Keys == s.accounts.Keys
      && r.store.accounts[card] == Account(old_.username, old_.balance - hours)
      && r.store.accounts[card].balance >= 0
      && OthersUnchanged(s.accounts, r.store.accounts, card)
      && AppendsRow(s.log, r.store.log,
                    LogEntry(card, old_.username, UsedHoursAction(hours, hours), old_.balance - hours), stored)
    ensures NonNegative(s.accounts) ==> NonNegative(r.store.accounts)
  {
    var card := Strip(cardField);
    var cost := hours;
    if card == [] then Step(s, Error(400, MissingField))
    else if card !in s.accounts then Step(s, Error(404, UserNotFound))
    else
      var acct := s.accounts[card];
      if acct.balance < cost then Step(s, Error(400, InsufficientBalance(acct.balance, cost)))
      else
        var balance := acct.balance - cost;
        var row := LogEntry(card, acct.username, UsedHoursAction(hours, cost), balance);
        Step(Store(s.accounts[card := acct.(balance := balance)], LogAction(s.log, row, stored)), Redirect)
  }

  /** The balance of `card`, 0 while it is not registered. */
  function Bal(s: Store, card: string): int {
    if card in s.accounts then s.accounts[card].balance else 0
  }

  /** An accepted registration credits the registered balance to that card and changes no other balance. */
  lemma AddUserConserves(s: Store, c: string, n: string, b: int, ok: bool, card: string)
    ensures var r := AddUser(s, c, n, b, ok);
      Bal(r.store, card) == Bal(s, card) + (if r.reply == Redirect && Strip(c) == card then b else 0)
  {
    var r := AddUser(s, c, n, b, ok);
    if r.reply == Redirect && Strip(c) != card && card in s.accounts {
      assert r.store.accounts[card] == s.accounts[card];
    }
  }

  /** An accepted top-up credits the amount to that card only. */
  lemma UpdateBalanceConserves(s: Store, c: string, a: int, ok: bool, card: string)
    ensures var r := UpdateBalance(s, c, a, ok);
      Bal(r.store, card) == Bal(s, card) + (if r.reply == Redirect && Strip(c) == card then a else 0)
  {
    var r := UpdateBalance(s, c, a, ok);
    if r.reply == Redirect && Strip(c) != card && card in s.accounts {
      assert r.store.accounts[card] == s.accounts[card];
    }
  }

  /** An accepted spend debits the hours from that card only. */
  lemma SpendConserves(s: Store, c: string, h: int, ok: bool, card: string)
    ensures var r := Spend(s, c, h, ok);
      Bal(r.store, card) == Bal(s, card) - (if r.reply == Redirect && Strip(c) == card then h else 0)
  {
    var r := Spend(s, c, h, ok);
    if r.reply == Redirect && Strip(c) != card && card in s.accounts {
      assert r.store.accounts[card] == s.accounts[card];
    }
  }
}
