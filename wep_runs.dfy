/**
 * Sequences of requests against the server of `wep.py`, and what holds over a whole
 * run. Balances are conserved, but what a request credits depends on the state it
 * meets: `INSERT OR IGNORE` credits only a card not yet registered, and a top-up
 * credits only a registered card, although both always redirect. Balances stay
 * non-negative only while every top-up amount is non-negative, because
 * `update_balance` never checks the sign of the amount.
 */
module WepRuns {
  import opened Options
  import opened Ledger
  import opened WepServer

  /** The requests the server handles; an absent form field is None. */
  datatype Request =
    | AddUserReq(id: string, username: string, balance: int)
    | UpdateBalanceReq(cardId: Option<string>, added: Option<int>)
    | SpendReq(cardId: Option<string>, hours: int)

  function Apply(s: Store, req: Request): (Store, Reply) {
    match req
    case AddUserReq(c, u, b) => (InsertOrIgnore(s, c, u, b), Redirect)
    case UpdateBalanceReq(c, a) => (AddMoney(s, c, a), Redirect)
    case SpendReq(c, h) => var r := SpendHours(s, c, h); (r.store, r.reply)
  }

  /** The requests handled one after another: the final tables and each reply. */
  function Run(s: Store, reqs: seq<Request>): (r: (Store, seq<Reply>))
    ensures |r.1| == |reqs|
    decreases |reqs|
  {
    if reqs == [] then (s, [])
    else
      var (next, reply) := Apply(s, reqs[0]);
      var (final, replies) := Run(next, reqs[1..]);
      (final, [reply] + replies)
  }

  /**
   * What the request credits to `card` when it meets the tables `s`: a registration
   * only when the card is not registered yet, a top-up only when it is.
   */
  function Credit(s: Store, req: Request, card: string): int {
    match req
    case AddUserReq(c, _, b) => if c == card && card !in s.accounts then b else 0
    case UpdateBalanceReq(c, a) => if c == Some(card) && card != [] && card in s.accounts then a.GetOr(0) else 0
    case SpendReq(_, _) => 0
  }

  /** What an accepted (redirected) spend of `card` charged. */
  function Debit(req: Request, reply: Reply, card: string): int {
    if req.SpendReq? && reply == Redirect && req.cardId == Some(card) then req.hours else 0
  }

  /** Credits to `card` along the run, each taken against the tables it meets. */
  function SumCredits(s: Store, reqs: seq<Request>, card: string): int
    decreases |reqs|
  {
    if reqs == [] then 0 else Credit(s, reqs[0], card) + SumCredits(Apply(s, reqs[0]).0, reqs[1..], card)
  }

  function SumDebits(reqs: seq<Request>, replies: seq<Reply>, card: string): int
    requires |replies| == |reqs|
    decreases |reqs|
  {
    if reqs == [] then 0 else Debit(reqs[0], replies[0], card) + SumDebits(reqs[1..], replies[1..], card)
  }

  /** A registration credits the balance to `card` exactly when it inserts that card. */
  lemma InsertConserves(s: Store, c: string, u: string, b: int, card: string)
    ensures Bal(InsertOrIgnore(s, c, u, b), card) == Bal(s, card) + (if c == card && card !in s.accounts then b else 0)
  {
    var r := InsertOrIgnore(s, c, u, b);
    if c != card && card in s.accounts {
      assert r.accounts[card] == s.accounts[card];
    }
  }

  /** A top-up credits the amount to `card` exactly when it names that registered card. */
  lemma AddMoneyConserves(s: Store, c: Option<string>, a: Option<int>, card: string)
    ensures Bal(AddMoney(s, c, a), card)
         == Bal(s, card) + (if c == Some(card) && card != [] && card in s.accounts then a.GetOr(0) else 0)
  {
    var r := AddMoney(s, c, a);
    if c.Some? && c.value != [] && a.Some? && c.value != card && card in s.accounts {
      assert r.accounts[card] == s.accounts[card];
    }
  }

  /** An accepted spend debits the hours from that card only. */
  lemma SpendHoursConserves(s: Store, c: Option<string>, h: int, card: string)
    ensures var r := SpendHours(s, c, h);
      Bal(r.store, card) == Bal(s, card) - (if r.reply == Redirect && c == Some(card) then h else 0)
  {
    var r := SpendHours(s, c, h);
    if r.reply == Redirect && c != Some(card) && card in s.accounts {
      assert r.store.accounts[card] == s.accounts[card];
    }
  }

  /** One request changes the balance of `card` by its credit minus its debit. */
  lemma ApplyConserves(s: Store, req: Request, card: string)
    ensures var (next, reply) := Apply(s, req);
      Bal(next, card) == Bal(s, card) + Credit(s, req, card) - Debit(req, reply, card)
  {
    match req
    case AddUserReq(c, u, b) => InsertConserves(s, c, u, b, card);
    case UpdateBalanceReq(c, a) => AddMoneyConserves(s, c, a, card);
    case SpendReq(c, h) => SpendHoursConserves(s, c, h, card);
  }

  /**
   * Conservation: after any run, the balance of every card is its initial balance plus
   * what was credited to it minus what accepted spends debited from it.
   */
  lemma {:induction false} Conservation(s: Store, reqs: seq<Request>, card: string)
    ensures var (final, replies) := Run(s, reqs);
      Bal(final, card) == Bal(s, card) + SumCredits(s, reqs, card) - SumDebits(reqs, replies, card)
    decreases |reqs|
  {
    if reqs != [] {
      var (next, reply) := Apply(s, reqs[0]);
      ApplyConserves(s, reqs[0], card);
      Conservation(next, reqs[1..], card);
    }
  }

  /**
   * No balance becomes negative, provided none is negative to begin with, no card is
   * registered with a negative balance and no top-up amount is negative: the server
   * checks none of the three.
   */
  lemma {:induction false} StaysNonNegative(s: Store, reqs: seq<Request>)
    requires NonNegative(s.accounts)
    requires forall i :: 0 <= i < |reqs| && reqs[i].AddUserReq? ==> reqs[i].balance >= 0
    requires forall i :: 0 <= i < |reqs| && reqs[i].UpdateBalanceReq? ==> reqs[i].added.GetOr(0) >= 0
    ensures NonNegative(Run(s, reqs).0.accounts)
    decreases |reqs|
  {
    if reqs != [] {
      var (next, reply) := Apply(s, reqs[0]);
      assert NonNegative(next.accounts);
      StaysNonNegative(next, reqs[1..]);
    }
  }

  /** Without the condition on top-ups it fails: a top-up of −5 on a zero balance is accepted and leaves −5. */
  lemma NegativeTopUp()
    ensures var s := Store(map["c" := Account("u", 0)], []);
      && NonNegative(s.accounts)
      && Run(s, [UpdateBalanceReq(Some("c"), Some(-5))]).1 == [Redirect]
      && Run(s, [UpdateBalanceReq(Some("c"), Some(-5))]).0.accounts["c"].balance == -5
  {
    var s := Store(map["c" := Account("u", 0)], []);
    var reqs := [UpdateBalanceReq(Some("c"), Some(-5))];
    assert reqs[1..] == [];
    assert Apply(s, reqs[0]).0.accounts["c"] == Account("u", -5);
  }
}
