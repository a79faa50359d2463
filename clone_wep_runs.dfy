/**
 * Sequences of requests against the server of `cloneWep.py`, built as CloneRuns is
 * for the Clones server but over this server's own requests, and what holds over a
 * whole run: balances are conserved (final = initial + credits − accepted debits),
 * and no balance goes negative as long as none starts negative and no card is
 * registered with a negative balance.
 */
module CloneWepRuns {
  import opened Options
  import opened Text
  import opened Ledger
  import opened CloneWepServer

  datatype State = State(store: Store, cache: Option<ScanRecord>)

  /**
   * The requests the server handles, already parsed. `stored` says whether the log
   * insert commits, that is whether the retry policy over its attempts ends in a commit.
   */
  datatype Request =
    | AddUserReq(cardField: string, nameField: string, balance: int, stored: bool)
    | UpdateBalanceReq(cardField: string, added: int, stored: bool)
    | SpendReq(cardField: string, hours: int, stored: bool)
    | ScanPostReq(hasData: bool, cardField: string, coins: Option<int>, machineId: Option<string>,
                  now: string, stored: bool)
    | ScanGetReq
    | SpendApiReq

  datatype Response =
    | Form(reply: Reply)
    | Device(scan: ScanReply)
    | LastScan(record: Option<ScanRecord>)
    | Gone(status: nat)

  function Apply(st: State, req: Request): (State, Response) {
    match req
    case AddUserReq(c, n, b, ok) =>
      var r := Ledger.AddUser(st.store, c, n, b, ok); (State(r.store, st.cache), Form(r.reply))
    case UpdateBalanceReq(c, a, ok) =>
      var r := Ledger.UpdateBalance(st.store, c, a, ok); (State(r.store, st.cache), Form(r.reply))
    case SpendReq(c, h, ok) =>
      var r := Ledger.Spend(st.store, c, h, ok); (State(r.store, st.cache), Form(r.reply))
    case ScanPostReq(d, c, coins, m, now, ok) =>
      var r := ScanDebit(st.store, st.cache, d, c, coins, m, now, ok); (State(r.store, r.cache), Device(r.reply))
    case ScanGetReq => (st, LastScan(st.cache))
    case SpendApiReq => (st, Gone(410))
  }

  /** The requests handled one after another: the final state and each response. */
  function Run(st: State, reqs: seq<Request>): (r: (State, seq<Response>))
    ensures |r.1| == |reqs|
    decreases |reqs|
  {
    if reqs == [] then (st, [])
    else
      var (next, resp) := Apply(st, reqs[0]);
      var (final, resps) := Run(next, reqs[1..]);
      (final, [resp] + resps)
  }

  /** Whether the response reports the request as accepted (a redirect, or an activated machine). */
  predicate Accepted(resp: Response) {
    resp == Form(Redirect) || (resp.Device? && resp.scan.ActivateMachine())
  }

  /** What an accepted registration or top-up of `card` added to its balance. */
  function Credit(req: Request, resp: Response, card: string): int {
    if !Accepted(resp) then 0
    else match req
      case AddUserReq(c, _, b, _) => if Strip(c) == card then b else 0
      case UpdateBalanceReq(c, a, _) => if Strip(c) == card then a else 0
      case _ => 0
  }

  /** What an accepted spend or scan of `card` charged; a scan without `coins` charges 1. */
  function Debit(req: Request, resp: Response, card: string): int {
    if !Accepted(resp) then 0
    else match req
      case SpendReq(c, h, _) => if Strip(c) == card then h else 0
      case ScanPostReq(_, c, coins, _, _, _) => if Strip(c) == card then coins.GetOr(1) else 0
      case _ => 0
  }

  function SumCredits(reqs: seq<Request>, resps: seq<Response>, card: string): int
    requires |resps| == |reqs|
    decreases |reqs|
  {
    if reqs == [] then 0 else Credit(reqs[0], resps[0], card) + SumCredits(reqs[1..], resps[1..], card)
  }

  function SumDebits(reqs: seq<Request>, resps: seq<Response>, card: string): int
    requires |resps| == |reqs|
    decreases |reqs|
  {
    if reqs == [] then 0 else Debit(reqs[0], resps[0], card) + SumDebits(reqs[1..], resps[1..], card)
  }

  /** An approved scan debits the coins (1 when absent) from that card only. */
  lemma ScanDebitConserves(s: Store, cache: Option<ScanRecord>, d: bool, c: string, coins: Option<int>,
                           m: Option<string>, now: string, ok: bool, card: string)
    ensures var r := ScanDebit(s, cache, d, c, coins, m, now, ok);
      Bal(r.store, card) == Bal(s, card) - (if r.reply.ActivateMachine() && Strip(c) == card then coins.GetOr(1) else 0)
  {
    var r := ScanDebit(s, cache, d, c, coins, m, now, ok);
    if r.reply.ActivateMachine() && Strip(c) != card && card in s.accounts {
      assert r.store.accounts[card] == s.accounts[card];
    }
  }

  /** One request changes the balance of `card` by exactly what its response announces. */
  lemma ApplyConserves(st: State, req: Request, card: string)
    ensures var (next, resp) := Apply(st, req);
      Bal(next.store, card) == Bal(st.store, card) + Credit(req, resp, card) - Debit(req, resp, card)
  {
    match req
    case AddUserReq(c, n, b, ok) => AddUserConserves(st.store, c, n, b, ok, card);
    case UpdateBalanceReq(c, a, ok) => UpdateBalanceConserves(st.store, c, a, ok, card);
    case SpendReq(c, h, ok) => SpendConserves(st.store, c, h, ok, card);
    case ScanPostReq(d, c, coins, m, now, ok) => ScanDebitConserves(st.store, st.cache, d, c, coins, m, now, ok, card);
    case ScanGetReq =>
    case SpendApiReq =>
  }

  /**
   * Conservation: after any run, the balance of every card is its initial balance
   * plus what was credited to it minus what was debited from it by accepted requests;
   * refused requests, cache reads and the retired endpoint contribute nothing.
   */
  lemma {:induction false} Conservation(st: State, reqs: seq<Request>, card: string)
    ensures var (final, resps) := Run(st, reqs);
      Bal(final.store, card) == Bal(st.store, card) + SumCredits(reqs, resps, card) - SumDebits(reqs, resps, card)
    decreases |reqs|
  {
    if reqs != [] {
      var (next, resp) := Apply(st, reqs[0]);
      ApplyConserves(st, reqs[0], card);
      Conservation(next, reqs[1..], card);
    }
  }

  /**
   * No balance becomes negative, provided none is negative to begin with and no card
   * is registered with a negative balance (the server accepts any integer there).
   */
  lemma {:induction false} StaysNonNegative(st: State, reqs: seq<Request>)
    requires NonNegative(st.store.accounts)
    requires forall i :: 0 <= i < |reqs| && reqs[i].AddUserReq? ==> reqs[i].balance >= 0
    ensures NonNegative(Run(st, reqs).0.store.accounts)
    decreases |reqs|
  {
    if reqs != [] {
      var (next, resp) := Apply(st, reqs[0]);
      assert NonNegative(next.store.accounts);
      StaysNonNegative(next, reqs[1..]);
    }
  }
}
