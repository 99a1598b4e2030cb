/** The lockout policy of `incrementFailedLoginAttempts`: what one failed
    password check does to a user's counter, and what a run of consecutive
    failures adds up to. */
module Lockout {
  import opened AuthTypes

  /** The effect of one failed password check: the counter afterwards, the
      error thrown, and whether the user repository was asked to block the user. */
  datatype Failure = Failure(counter: nat, error: AuthError, blocked: bool)

  /** One failed check, given the counter read from the store (`None` when the
      key is absent). */
  function RecordFailure(counter: Option<nat>): (f: Failure)
    ensures f.blocked <==> counter.Some? && counter.value >= MaxAttempts
    ensures f.blocked ==> f.error == AccountBlocked && counter == Some(f.counter)
    ensures !f.blocked ==> f.error == Mismatch(f.counter) && 1 <= f.counter <= MaxAttempts
    ensures !f.blocked && counter.Some? ==> f.counter == counter.value + 1
    ensures counter.None? ==> f.counter == 1
  {
    match counter
    case None => Failure(1, Mismatch(1), false)
    case Some(n) =>
      if n > MaxAttempts - 1 then Failure(n, AccountBlocked, true)
      else Failure(n + 1, Mismatch(n + 1), false)
  }

  /** The counter after `k` consecutive failures, starting from no counter. */
  function CounterAfter(k: nat): Option<nat>
  {
    if k == 0 then None else Some(RecordFailure(CounterAfter(k - 1)).counter)
  }

  /** The `k`-th of a run of consecutive failures (counting from 1). */
  function NthFailure(k: nat): Failure
    requires k >= 1
  {
    RecordFailure(CounterAfter(k - 1))
  }

  /** How many block requests the first `k` consecutive failures make. */
  function BlocksAfter(k: nat): nat
  {
    if k == 0 then 0 else BlocksAfter(k - 1) + (if NthFailure(k).blocked then 1 else 0)
  }

  /** Starting from no counter, the counter climbs to 5 and stays there. */
  lemma {:induction false} CounterAfterFailures(k: nat)
    ensures CounterAfter(k) == if k == 0 then None else Some(if k < MaxAttempts then k else MaxAttempts)
  {
    if k > 0 {
      CounterAfterFailures(k - 1);
    }
  }

  /** The first five failures report 1 / 5 .. 5 / 5; the sixth and every later one blocks. */
  lemma FailureReports(k: nat)
    requires k >= 1
    ensures NthFailure(k).error == if k <= MaxAttempts then Mismatch(k) else AccountBlocked
    ensures NthFailure(k).blocked <==> k > MaxAttempts
  {
    CounterAfterFailures(k - 1);
  }

  /** Failures 1..5 block nobody; each failure after the fifth asks for one more block. */
  lemma {:induction false} BlocksAfterFailures(k: nat)
    ensures BlocksAfter(k) == if k <= MaxAttempts then 0 else k - MaxAttempts
  {
    if k > 0 {
      BlocksAfterFailures(k - 1);
      FailureReports(k);
    }
  }
}
