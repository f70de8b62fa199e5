/**
 * The balance ledger: resetting an account's balance, and charging it with
 * an optimistic-concurrency retry loop (watch, read, decide, conditional
 * write, back off on conflict or fault, give up after a fixed budget).
 */
module Ledger {
  import opened Wrappers
  import opened BackoffPolicy
  import opened KeyValueStore

  const DefaultBalance: int := 100
  const NumberOfRetries: nat := 5

  datatype ChargeResult = ChargeResult(isAuthorized: bool, remainingBalance: int, charges: int)

  /** What a charge reports once its retry budget is used up. */
  const Exhausted := ChargeResult(false, 0, 0)

  /** The store key that holds an account's balance. */
  function BalanceKey(account: string): string
  {
    account + "/balance"
  }

  /** The balance read from a reply: an unset key reads as 0. */
  function NumberOf(reply: Option<int>): int
  {
    if reply.Some? then reply.value else 0
  }

  /**
   * What happens to one attempt of the loop, as far as the store is concerned.
   *   Ok              the attempt's store calls succeed and nobody else writes the key;
   *   Conflict(v)     another client sets the key to v after this attempt's read and
   *                   before its EXEC (no effect on an attempt that never reaches EXEC);
   *   ReadFault(w)    WATCH or GET raises; if w is Some(v), another client sets the
   *                   key to v before the next attempt;
   *   CommitFault(w)  EXEC raises and this call writes nothing; if w is Some(v), another
   *                   client sets the key to v before the next attempt (no effect on an
   *                   attempt that never reaches EXEC).
   */
  datatype Outcome = Ok | Conflict(other: int) | ReadFault(write: Option<int>) | CommitFault(write: Option<int>)

  /** The value another client writes to the key during an attempt that fails with this outcome, if any. */
  function ForeignWrite(outcome: Outcome): Option<int>
  {
    match outcome
    case Ok => None
    case Conflict(other) => Some(other)
    case ReadFault(write) => write
    case CommitFault(write) => write
  }

  /** The key's value after an attempt that failed with `outcome`, when it held `stored` before. */
  function AfterFailure(stored: Option<int>, outcome: Outcome): Option<int>
  {
    if ForeignWrite(outcome).Some? then ForeignWrite(outcome) else stored
  }

  /** How many of the first `n` attempts carry a write by another client. */
  function ForeignWrites(outcomes: seq<Outcome>, n: nat): nat
  {
    if n == 0 then 0
    else ForeignWrites(outcomes, n - 1) + (if ForeignWrite(OutcomeAt(outcomes, n - 1)).Some? then 1 else 0)
  }

  /** The outcome of attempt `i`; attempts beyond the script go through undisturbed. */
  function OutcomeAt(outcomes: seq<Outcome>, i: nat): Outcome
  {
    if i < |outcomes| then outcomes[i] else Ok
  }

  /**
   * A whole charge call: its result, the key's value afterwards, how many
   * retries it used up (one per failed attempt), and whether it wrote.
   */
  datatype Run = Run(result: ChargeResult, final: Option<int>, retriesUsed: nat, committed: bool)

  /**
   * The decision of an attempt that read `stored` and did not fail: debit when
   * the balance is strictly greater than the amount, otherwise report the
   * balance untouched with nothing charged.
   */
  function Settle(stored: Option<int>, charges: int, attempt: nat): (run: Run)
    ensures run.result.isAuthorized && run.retriesUsed == attempt
    ensures run.committed <==> NumberOf(stored) > charges
    ensures run.committed ==> run.result.charges == charges
                              && run.result.remainingBalance == NumberOf(stored) - charges
                              && run.result.remainingBalance >= 1
                              && run.final == Some(run.result.remainingBalance)
    ensures !run.committed ==> run.result.charges == 0
                               && run.result.remainingBalance == NumberOf(stored)
                               && run.final == stored
  {
    var current := NumberOf(stored);
    if current > charges then
      Run(ChargeResult(true, current - charges, charges), Some(current - charges), attempt, true)
    else
      Run(ChargeResult(true, current, 0), stored, attempt, false)
  }

  /** What one attempt comes to: it settles the call, or it fails and leaves the key holding `next`. */
  datatype Step = Settled(run: Run) | Failed(next: Option<int>)

  /**
   * One attempt against a key holding `stored`: it fails when the read raises,
   * or when the balance suffices but the commit raises or loses to another
   * writer; otherwise it settles.
   */
  function AttemptStep(stored: Option<int>, charges: int, outcome: Outcome, attempt: nat): (step: Step)
    ensures step.Failed? <==> outcome.ReadFault? || (NumberOf(stored) > charges && !outcome.Ok?)
    ensures step.Failed? ==> step.next == (if ForeignWrite(outcome).Some? then ForeignWrite(outcome) else stored)
    ensures step.Settled? ==> step.run.retriesUsed == attempt && step.run.result.isAuthorized
    ensures step.Settled? ==> (step.run.committed <==> outcome.Ok? && NumberOf(stored) > charges)
    ensures step.Settled? && !step.run.committed ==> step.run.final == stored && step.run.result.charges == 0
  {
    if outcome.ReadFault? || (NumberOf(stored) > charges && !outcome.Ok?) then Failed(AfterFailure(stored, outcome))
    else Settled(Settle(stored, charges, attempt))
  }

  /** The charge loop from attempt number `attempt` on, with the key holding `stored`. */
  function RunFrom(stored: Option<int>, charges: int, outcomes: seq<Outcome>, attempt: nat): (run: Run)
    requires attempt <= NumberOfRetries
    ensures attempt <= run.retriesUsed <= NumberOfRetries
    ensures run.result.isAuthorized <==> run.retriesUsed < NumberOfRetries
    ensures !run.result.isAuthorized ==> run.result == Exhausted && !run.committed
    ensures run.committed ==> run.result.charges == charges
                              && run.result.remainingBalance >= 1
                              && run.final == Some(run.result.remainingBalance)
    decreases NumberOfRetries - attempt
  {
    if attempt == NumberOfRetries then
      Run(Exhausted, stored, attempt, false)
    else
      match AttemptStep(stored, charges, OutcomeAt(outcomes, attempt), attempt)
      case Failed(next) => RunFrom(next, charges, outcomes, attempt + 1)
      case Settled(run) => run
  }

  /** A whole charge call against a key holding `stored`. */
  function ChargeRun(stored: Option<int>, charges: int, outcomes: seq<Outcome>): Run
  {
    RunFrom(stored, charges, outcomes, 0)
  }

  /** However many retries a charge uses, it waits at most 12 milliseconds in total. */
  lemma {:induction false} TotalWaitBounded(k: nat)
    requires k <= NumberOfRetries
    ensures Total(Schedule(k)) <= 12
    decreases NumberOfRetries - k
  {
    if k == NumberOfRetries {
      WorstCaseTotalWait();
    } else {
      TotalWaitBounded(k + 1);
      assert Schedule(k + 1)[..k] == Schedule(k);
    }
  }

  /** The store after a reset of `account`. */
  function ResetCells(cells: map<string, int>, account: string): map<string, int>
  {
    cells[BalanceKey(account) := DefaultBalance]
  }

  /** Two resets in a row leave the same balances as one. */
  lemma ResetIsIdempotent(cells: map<string, int>, account: string)
    ensures ResetCells(ResetCells(cells, account), account) == ResetCells(cells, account)
    ensures BalanceKey(account) in ResetCells(cells, account)
    ensures ResetCells(cells, account)[BalanceKey(account)] == DefaultBalance
  {
  }

  /** Overwrite the account's balance with the starting balance, whatever it was. */
  method Reset(client: Client, account: string)
    modifies client.server
    ensures client.server.cells == ResetCells(old(client.server.cells), account)
    ensures client.server.Lookup(BalanceKey(account)) == Some(DefaultBalance)
    ensures client.server.versions
            == old(client.server.versions)[BalanceKey(account) := old(client.server.VersionOf(BalanceKey(account))) + 1]
  {
    client.Set(BalanceKey(account), DefaultBalance);
  }

  /**
   * One pass of the charge loop's body: WATCH, GET, the decision and, when the
   * balance suffices, the conditional write. `settled` says whether the call
   * returns `result` now; otherwise the attempt failed.
   */
  method Attempt(client: Client, key: string, charges: int, outcome: Outcome, ghost attempt: nat)
    returns (settled: bool, result: ChargeResult)
    modifies client, client.server
    ensures var step := AttemptStep(old(client.server.Lookup(key)), charges, outcome, attempt);
            && settled == step.Settled?
            && (settled ==> result == step.run.result
                            && client.server.Lookup(key) == step.run.final
                            && client.commits == old(client.commits) + (if step.run.committed then 1 else 0)
                            && client.server.VersionOf(key)
                               == old(client.server.VersionOf(key)) + (if step.run.committed then 1 else 0))
            && (!settled ==> client.server.Lookup(key) == step.next
                             && client.commits == old(client.commits)
                             && client.server.VersionOf(key)
                                == old(client.server.VersionOf(key)) + (if ForeignWrite(outcome).Some? then 1 else 0))
    ensures client.server.cells - {key} == old(client.server.cells) - {key}
    ensures client.server.versions - {key} == old(client.server.versions) - {key}
    ensures client.unwatchCalls == old(client.unwatchCalls)
  {
    // a failed attempt's result is not used
    settled, result := false, Exhausted;
    if !outcome.ReadFault? {
      client.Watch(key);
      var reply := client.Get(key);
      var currentBalance := NumberOf(reply);
      if currentBalance > charges {
        if outcome.Conflict? {
          // another client's write lands between our read and our EXEC
          client.server.Set(key, outcome.other);
        }
        if !outcome.CommitFault? {
          var committed := client.CommitSet(key, currentBalance - charges);
          if committed {
            result := ChargeResult(true, currentBalance - charges, charges);
            settled := true;
            return;
          }
        }
      } else {
        result := ChargeResult(true, currentBalance, 0);
        settled := true;
        return;
      }
    }
    if (outcome.ReadFault? || outcome.CommitFault?) && outcome.write.Some? {
      // another client writes the key while this attempt fails
      client.server.Set(key, outcome.write.value);
    }
  }

  /**
   * Charge `charges` to `account` over the open connection `client`. The
   * `outcomes` script says what befalls each attempt; `delays` records the
   * backoff waits requested between attempts.
   */
  method Charge(client: Client, account: string, charges: int, outcomes: seq<Outcome>)
    returns (result: ChargeResult, delays: seq<nat>)
    modifies client, client.server
    ensures var run := ChargeRun(old(client.server.Lookup(BalanceKey(account))), charges, outcomes);
            && result == run.result
            && delays == Schedule(run.retriesUsed)
            && client.server.Lookup(BalanceKey(account)) == run.final
            && client.commits == old(client.commits) + (if run.committed then 1 else 0)
    ensures var run := ChargeRun(old(client.server.Lookup(BalanceKey(account))), charges, outcomes);
            client.server.VersionOf(BalanceKey(account))
            == old(client.server.VersionOf(BalanceKey(account)))
               + ForeignWrites(outcomes, run.retriesUsed) + (if run.committed then 1 else 0)
    ensures client.server.cells - {BalanceKey(account)} == old(client.server.cells) - {BalanceKey(account)}
    ensures forall k :: k != BalanceKey(account) ==> client.server.VersionOf(k) == old(client.server.VersionOf(k))
    ensures |delays| <= NumberOfRetries && Total(delays) <= 12
    ensures client.unwatchCalls == old(client.unwatchCalls) + 1 && !client.watching
  {
    var key := BalanceKey(account);
    ghost var initial := client.server.Lookup(key);
    var retries := NumberOfRetries;
    delays := [];
    // what the call reports if the retry budget runs out
    result := Exhausted;
    while retries > 0
      invariant 0 <= retries <= NumberOfRetries
      invariant delays == Schedule(NumberOfRetries - retries)
      invariant RunFrom(client.server.Lookup(key), charges, outcomes, NumberOfRetries - retries)
                == ChargeRun(initial, charges, outcomes)
      invariant client.server.VersionOf(key)
                == old(client.server.VersionOf(key)) + ForeignWrites(outcomes, NumberOfRetries - retries)
      invariant client.server.cells - {key} == old(client.server.cells) - {key}
      invariant client.server.versions - {key} == old(client.server.versions) - {key}
      invariant client.unwatchCalls == old(client.unwatchCalls)
      invariant client.commits == old(client.commits)
    {
      var attempt := NumberOfRetries - retries;
      var settled, attemptResult := Attempt(client, key, charges, OutcomeAt(outcomes, attempt), attempt);
      if settled {
        result := attemptResult;
        break;
      }
      // a conflict or a fault: back off, then use up one retry
      delays := delays + [Backoff(NumberOfRetries - retries)];
      retries := retries - 1;
    }
    TotalWaitBounded(|delays|);
    assert forall k :: k != key ==> (k in client.server.versions <==> k in old(client.server.versions) - {key});
    // the finally block
    client.Unwatch();
  }
}
