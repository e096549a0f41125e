/** How an attempt at a database transaction ends, and the retry rule both balance tables share. */
module Transactions {
  const RETRIES := 10

  /** A transaction commits, is chosen as a deadlock's victim, or fails for another reason; in the last
      two cases it leaves no trace. */
  datatype TxOutcome = Commits | Deadlocks | Fails

  /** The retries end well: some attempt commits, and only deadlocks come before it. */
  ghost predicate EventuallyCommits(attempt: nat -> TxOutcome) {
    exists n: nat :: n < RETRIES && attempt(n) == Commits && AllDeadlock(attempt, n)
  }

  ghost predicate AllDeadlock(attempt: nat -> TxOutcome, n: nat) {
    forall m: nat :: m < n ==> attempt(m) == Deadlocks
  }

  /** Nine deadlocks are survived, ten are not. */
  lemma TenAttempts(attempt: nat -> TxOutcome, n: nat)
    requires AllDeadlock(attempt, n) && attempt(n) == Commits
    ensures EventuallyCommits(attempt) <==> n < 10
  {
    if EventuallyCommits(attempt) {
      var m: nat :| m < RETRIES && attempt(m) == Commits && AllDeadlock(attempt, m);
      assert m < n ==> attempt(m) == Deadlocks;
      assert n < m ==> attempt(n) == Deadlocks;
    }
  }
}
