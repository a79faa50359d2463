/**
 * The retry policy `cloneWep.py` wraps around every database call: up to three
 * attempts; only an `OperationalError` whose message mentions "locked" is retried,
 * and only while attempts remain; before retrying after attempt k the caller sleeps
 * 0.1·(k+1) seconds.
 *
 * What each attempt does is decided by the database, which the model does not
 * contain: `tries(k)` is the outcome of attempt k.
 */
module Retry {

  const MaxAttempts: nat := 3

  /** How an attempt can fail. */
  datatype DbError =
    | Locked              // sqlite3.OperationalError with "locked" in its message
    | OtherOperational    // any other sqlite3.OperationalError
    | Unexpected          // any other exception

  datatype Attempt = Commits | Raises(error: DbError)

  /** The verdict of the policy and the number of attempts it made. */
  datatype Verdict = Done(attempts: nat) | GaveUp(attempts: nat, error: DbError)

  /** The sleep, in milliseconds, before the retry that follows attempt `attempt`. */
  function BackoffMs(attempt: nat): nat {
    100 * (attempt + 1)
  }

  /** Whether a failed attempt is retried: a lock error with an attempt left. */
  predicate Retried(a: Attempt, attempt: nat) {
    a == Raises(Locked) && attempt < MaxAttempts - 1
  }

  /**
   * The policy from attempt `from` on. It stops at the first attempt that commits
   * or fails with anything other than a retried lock error; every attempt before
   * that one failed with "locked", and giving up on a lock error happens only on
   * the last allowed attempt.
   */
  function PolicyFrom(tries: nat -> Attempt, from: nat): (v: Verdict)
    requires from < MaxAttempts
    ensures from < v.attempts <= MaxAttempts
    ensures forall k :: from <= k < v.attempts - 1 ==> tries(k) == Raises(Locked)
    ensures v.Done? <==> tries(v.attempts - 1) == Commits
    ensures v.GaveUp? ==> tries(v.attempts - 1) == Raises(v.error)
    ensures v.GaveUp? && v.error == Locked ==> v.attempts == MaxAttempts
    decreases MaxAttempts - from
  {
    match tries(from)
    case Commits => Done(from + 1)
    case Raises(e) =>
      if Retried(tries(from), from) then PolicyFrom(tries, from + 1) else GaveUp(from + 1, e)
  }

  function Policy(tries: nat -> Attempt): Verdict {
    PolicyFrom(tries, 0)
  }

  /** The sleeps taken before a run of `attempts` attempts ends: one per retry. */
  predicate BackoffSchedule(delaysMs: seq<nat>, attempts: nat) {
    && |delaysMs| + 1 == attempts
    && (forall k :: 0 <= k < |delaysMs| ==> delaysMs[k] == BackoffMs(k))
  }

  /** What `execute_db_query` does: return the query's result, or raise. */
  datatype QueryOutcome = Returned | Raised(error: DbError)

  /**
   * `execute_db_query`: at most three attempts, each in its own connection; the
   * result of the first committing attempt is returned, and any non-retried error
   * is re-raised. The sleeps grow strictly from one retry to the next.
   */
  method ExecuteDbQuery(tries: nat -> Attempt) returns (outcome: QueryOutcome, delaysMs: seq<nat>)
    ensures outcome.Returned? <==> Policy(tries).Done?
    ensures outcome.Raised? ==> outcome.error == Policy(tries).error
    ensures BackoffSchedule(delaysMs, Policy(tries).attempts)
    ensures |delaysMs| < MaxAttempts
    ensures forall i, j :: 0 <= i < j < |delaysMs| ==> delaysMs[i] < delaysMs[j]
  {
    delaysMs := [];
    for attempt := 0 to MaxAttempts
      invariant attempt < MaxAttempts
      invariant Policy(tries) == PolicyFrom(tries, attempt)
      invariant BackoffSchedule(delaysMs, attempt + 1)
    {
      match tries(attempt)
      case Commits =>
        return Returned, delaysMs;
      case Raises(e) =>
        if e == Locked && attempt < MaxAttempts - 1 {
          delaysMs := delaysMs + [BackoffMs(attempt)];
        } else {
          return Raised(e), delaysMs;
        }
    }
  }
}
