/**
 * Sequences of requests against the server of `Clones/19-01-26clone.py`, and what
 * holds over a whole run: balances are conserved (final = initial + credits −
 * accepted debits), no balance goes negative as long as none starts negative and
 * no card is registered with a negative balance, exactly the accepted requests
 * write log rows, and the cached card is read at most once per scan.
 */
module CloneRuns {
  import opened Options
  import opened Text
  import opened Ledger
  import opened CloneServer

  datatype State = State(store: Store, cache: Option<ScanRecord>)

  /** The requests the server handles, already parsed; `stored` says whether the log insert goes through. */
  datatype Request =
    | AddUserReq(cardField: string, nameField: string, balance: int, stored: bool)
    | UpdateBalanceReq(cardField: string, added: int, stored: bool)
    | SpendReq(cardField: string, hours: int, stored: bool)
    | ScanCardReq(cardField: string, coins: int, machineId: string, now: string, stored: bool)
    | GetLastCardReq

  datatype Response = Form(reply: Reply) | Device(scan: ScanReply) | LastCard(cardId: Option<string>)

  function Apply(st: State, req: Request): (State, Response) {
    match req
    case AddUserReq(c, n, b, ok) =>
      var r := Ledger.AddUser(st.store, c, n, b, ok); (State(r.store, st.cache), Form(r.reply))
    case UpdateBalanceReq(c, a, ok) =>
      var r := Ledger.UpdateBalance(st.store, c, a, ok); (State(r.store, st.cache), Form(r.reply))
    case SpendReq(c, h, ok) =>
      var r := Ledger.Spend(st.store, c, h, ok); (State(r.store, st.cache), Form(r.reply))
    case ScanCardReq(c, coins, m, now, ok) =>
      var r := ScanOutcome(st.store, st.cache, c, coins, m, now, ok); (State(r.store, r.cache), Device(r.reply))
    case GetLastCardReq =>
      var r := TakeLastCard(st.cache); (State(st.store, r.cache), LastCard(r.cardId))
  }

  /** The requests handled one after another: the final state and each response. */
  function Run(st: State, reqs: seq<Request>): (r: (State, seq<Response>))
    ensures |r.1| == |reqs|
    decreases |reqs|
  {
    if reqs == [] then (st, [])
    else
      var (next, resp) := Apply(st, reqs[0]);
      var (final, resps) := Run(next, reqs[1..]);
      (final, [resp] + resps)
  }

  /** Whether the response reports the request as accepted (a redirect, or an activated machine). */
  predicate Accepted(resp: Response) {
    resp == Form(Redirect) || (resp.Device? && resp.scan.ActivateMachine())
  }

  /** What an accepted registration or top-up of `card` added to its balance. */
  function Credit(req: Request, resp: Response, card: string): int {
    if !Accepted(resp) then 0
    else match req
      case AddUserReq(c, _, b, _) => if Strip(c) == card then b else 0
      case UpdateBalanceReq(c, a, _) => if Strip(c) == card then a else 0
      case _ => 0
  }

  /** What an accepted spend or scan of `card` charged. */
  function Debit(req: Request, resp: Response, card: string): int {
    if !Accepted(resp) then 0
    else match req
      case SpendReq(c, h, _) => if Strip(c) == card then h else 0
      case ScanCardReq(c, coins, _, _, _) => if Strip(c) == card then coins else 0
      case _ => 0
  }

  function SumCredits(reqs: seq<Request>, resps: seq<Response>, card: string): int
    requires |resps| == |reqs|
    decreases |reqs|
  {
    if reqs == [] then 0 else Credit(reqs[0], resps[0], card) + SumCredits(reqs[1..], resps[1..], card)
  }

  function SumDebits(reqs: seq<Request>, resps: seq<Response>, card: string): int
    requires |resps| == |reqs|
    decreases |reqs|
  {
    if reqs == [] then 0 else Debit(reqs[0], resps[0], card) + SumDebits(reqs[1..], resps[1..], card)
  }

  /** Number of accepted requests whose log insert went through. */
  function LoggedCount(reqs: seq<Request>, resps: seq<Response>): nat
    requires |resps| == |reqs|
    decreases |reqs|
  {
    if reqs == [] then 0
    else (if Accepted(resps[0]) && !reqs[0].GetLastCardReq? && reqs[0].stored then 1 else 0) + LoggedCount(reqs[1..], resps[1..])
  }

  /** One request changes the balance of `card` by exactly what its response announces. */
  lemma ApplyConserves(st: State, req: Request, card: string)
    ensures var (next, resp) := Apply(st, req);
      Bal(next.store, card) == Bal(st.store, card) + Credit(req, resp, card) - Debit(req, resp, card)
  {
    match req
    case AddUserReq(c, n, b, ok) => AddUserConserves(st.store, c, n, b, ok, card);
    case UpdateBalanceReq(c, a, ok) => UpdateBalanceConserves(st.store, c, a, ok, card);
    case SpendReq(c, h, ok) => SpendConserves(st.store, c, h, ok, card);
    case ScanCardReq(c, coins, m, now, ok) => ScanConserves(st.store, st.cache, c, coins, m, now, ok, card);
    case GetLastCardReq =>
  }

  lemma ScanConserves(s: Store, cache: Option<ScanRecord>, c: string, coins: int, m: string, now: string,
                      ok: bool, card: string)
    ensures var r := ScanOutcome(s, cache, c, coins, m, now, ok);
      Bal(r.store, card) == Bal(s, card) - (if r.reply.ActivateMachine() && Strip(c) == card then coins else 0)
  {
    var r := ScanOutcome(s, cache, c, coins, m, now, ok);
    if r.reply.ActivateMachine() && Strip(c) != card && card in s.accounts {
      assert r.store.accounts[card] == s.accounts[card];
    }
  }

  /**
   * Conservation: after any run, the balance of every card is its initial balance
   * plus what was credited to it minus what was debited from it by accepted requests;
   * refused requests contribute nothing.
   */
  lemma {:induction false} Conservation(st: State, reqs: seq<Request>, card: string)
    ensures var (final, resps) := Run(st, reqs);
      Bal(final.store, card) == Bal(st.store, card) + SumCredits(reqs, resps, card) - SumDebits(reqs, resps, card)
    decreases |reqs|
  {
    if reqs != [] {
      var (next, resp) := Apply(st, reqs[0]);
      ApplyConserves(st, reqs[0], card);
      Conservation(next, reqs[1..], card);
    }
  }

  /**
   * No balance becomes negative, provided none is negative to begin with and no card
   * is registered with a negative balance (the server accepts any integer there).
   */
  lemma {:induction false} StaysNonNegative(st: State, reqs: seq<Request>)
    requires NonNegative(st.store.accounts)
    requires forall i :: 0 <= i < |reqs| && reqs[i].AddUserReq? ==> reqs[i].balance >= 0
    ensures NonNegative(Run(st, reqs).0.store.accounts)
    decreases |reqs|
  {
    if reqs != [] {
      var (next, resp) := Apply(st, reqs[0]);
      assert NonNegative(next.store.accounts);
      StaysNonNegative(next, reqs[1..]);
    }
  }

  /** One request appends one row exactly when it is accepted and its insert is stored, and keeps the old rows. */
  lemma ApplyLogs(st: State, req: Request)
    ensures var (next, resp) := Apply(st, req);
      && |next.store.log| == |st.store.log| + (if Accepted(resp) && !req.GetLastCardReq? && req.stored then 1 else 0)
      && next.store.log[..|st.store.log|] == st.store.log
  {
  }

  /**
   * The log is append-only, and it grows by exactly one row per accepted request whose
   * insert went through: refusals, display-only scans and cache reads write nothing.
   */
  lemma {:induction false} LogGrowth(st: State, reqs: seq<Request>)
    ensures var (final, resps) := Run(st, reqs);
      && |final.store.log| == |st.store.log| + LoggedCount(reqs, resps)
      && final.store.log[..|st.store.log|] == st.store.log
    decreases |reqs|
  {
    if reqs != [] {
      var (next, resp) := Apply(st, reqs[0]);
      ApplyLogs(st, reqs[0]);
      LogGrowth(next, reqs[1..]);
      var final := Run(next, reqs[1..]).0;
      assert final.store.log[..|st.store.log|] == final.store.log[..|next.store.log|][..|st.store.log|];
    }
  }

  /** Whether the request is a scan that fills the `LAST_RFID` slot (one whose card id is not empty). */
  predicate Fills(req: Request) {
    req.ScanCardReq? && Strip(req.cardField) != []
  }

  /** No request before position `i` fills the slot. */
  predicate NoFillBefore(reqs: seq<Request>, i: int)
    requires i <= |reqs|
  {
    forall k :: 0 <= k < i ==> !Fills(reqs[k])
  }

  /**
   * Once the slot is empty, every read answers 404 until a scan with a non-empty
   * card id fills it again; a scan whose card id strips to empty leaves it empty.
   */
  lemma {:induction false} NoScanNoCard(st: State, reqs: seq<Request>)
    requires st.cache == None
    ensures forall i :: 0 <= i < |reqs| && reqs[i] == GetLastCardReq && NoFillBefore(reqs, i) ==>
      Run(st, reqs).1[i] == LastCard(None)
    decreases |reqs|
  {
    if reqs != [] {
      var (next, resp) := Apply(st, reqs[0]);
      var resps := Run(st, reqs).1;
      assert resps == [resp] + Run(next, reqs[1..]).1;
      if !Fills(reqs[0]) {
        assert next.cache == None;
        NoScanNoCard(next, reqs[1..]);
        forall i | 0 < i < |reqs| && reqs[i] == GetLastCardReq && NoFillBefore(reqs, i)
          ensures resps[i] == LastCard(None)
        {
          assert reqs[1..][i - 1] == reqs[i];
          assert NoFillBefore(reqs[1..], i - 1) by {
            forall k | 0 <= k < i - 1 ensures !Fills(reqs[1..][k]) {
              assert reqs[1..][k] == reqs[k + 1];
            }
          }
        }
      } else {
        forall i | 0 < i < |reqs| && reqs[i] == GetLastCardReq
          ensures !NoFillBefore(reqs, i)
        {
        }
      }
    }
  }

  /**
   * Read-once cache: of two reads with no filling scan between them, the second
   * answers 404, whatever the run did before. So a scanned card is handed out by at
   * most one read.
   */
  lemma {:induction false} ReadOnce(st: State, reqs: seq<Request>, i: nat, j: nat)
    requires i < j < |reqs|
    requires reqs[i] == GetLastCardReq && reqs[j] == GetLastCardReq
    requires forall k :: i < k < j ==> !Fills(reqs[k])
    ensures Run(st, reqs).1[j] == LastCard(None)
    decreases i
  {
    var (next, resp) := Apply(st, reqs[0]);
    var rest := reqs[1..];
    assert Run(st, reqs).1[j] == Run(next, rest).1[j - 1];
    assert rest[j - 1] == reqs[j];
    if i == 0 {
      assert next.cache == None;
      assert NoFillBefore(rest, j - 1) by {
        forall k | 0 <= k < j - 1 ensures !Fills(rest[k]) {
          assert rest[k] == reqs[k + 1];
        }
      }
      NoScanNoCard(next, rest);
    } else {
      assert rest[i - 1] == reqs[i];
      forall k | i - 1 < k < j - 1 ensures !Fills(rest[k]) {
        assert rest[k] == reqs[k + 1];
      }
      ReadOnce(next, rest, i - 1, j - 1);
    }
  }

  /** A read right after another read answers 404, whatever was cached before. */
  lemma SecondReadIsEmpty(st: State)
    ensures Run(st, [GetLastCardReq, GetLastCardReq]).1[1] == LastCard(None)
  {
    ReadOnce(st, [GetLastCardReq, GetLastCardReq], 0, 1);
  }
}
