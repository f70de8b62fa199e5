/**
 * Properties of the charge loop: an independent description of where the
 * loop stops, exhaustion, the strict boundary, and what a sequence of
 * charges against one account can and cannot report.
 */
module LedgerProperties {
  import opened Wrappers
  import opened KeyValueStore
  import opened Ledger

  /** The key's value when attempt `i` reads it, given that attempts 0 .. i-1 all failed. */
  function StoredBefore(stored: Option<int>, outcomes: seq<Outcome>, i: nat): Option<int>
    decreases i
  {
    if i == 0 then stored
    else AfterFailure(StoredBefore(stored, outcomes, i - 1), OutcomeAt(outcomes, i - 1))
  }

  /** An attempt ends the loop when its read succeeds and it either finds too little money or commits undisturbed. */
  predicate Settles(outcome: Outcome, current: int, charges: int)
  {
    !outcome.ReadFault? && (current <= charges || outcome.Ok?)
  }

  predicate SettlesAt(stored: Option<int>, charges: int, outcomes: seq<Outcome>, i: nat)
  {
    Settles(OutcomeAt(outcomes, i), NumberOf(StoredBefore(stored, outcomes, i)), charges)
  }

  /** The first attempt at or after `from` that ends the loop, or the retry budget if none does. */
  function FirstSettling(stored: Option<int>, charges: int, outcomes: seq<Outcome>, from: nat): (k: nat)
    requires from <= NumberOfRetries
    ensures from <= k <= NumberOfRetries
    ensures k < NumberOfRetries ==> SettlesAt(stored, charges, outcomes, k)
    ensures forall i :: from <= i < k ==> !SettlesAt(stored, charges, outcomes, i)
    decreases NumberOfRetries - from
  {
    if from == NumberOfRetries || SettlesAt(stored, charges, outcomes, from) then from
    else FirstSettling(stored, charges, outcomes, from + 1)
  }

  /** Reference description of a charge call: it is decided by its first settling attempt. */
  function ReferenceRun(stored: Option<int>, charges: int, outcomes: seq<Outcome>): Run
  {
    var k := FirstSettling(stored, charges, outcomes, 0);
    if k == NumberOfRetries then Run(Exhausted, StoredBefore(stored, outcomes, k), k, false)
    else Settle(StoredBefore(stored, outcomes, k), charges, k)
  }

  lemma {:induction false} RunFromMatchesReference(stored: Option<int>, charges: int, outcomes: seq<Outcome>, j: nat)
    requires j <= FirstSettling(stored, charges, outcomes, 0)
    ensures RunFrom(StoredBefore(stored, outcomes, j), charges, outcomes, j) == ReferenceRun(stored, charges, outcomes)
    decreases NumberOfRetries - j
  {
    var k := FirstSettling(stored, charges, outcomes, 0);
    if j < k {
      assert !SettlesAt(stored, charges, outcomes, j);
      RunFromMatchesReference(stored, charges, outcomes, j + 1);
    }
  }

  /** The loop stops at its first settling attempt, with the result that attempt decides. */
  lemma ChargeRunIsFirstSettlement(stored: Option<int>, charges: int, outcomes: seq<Outcome>)
    ensures ChargeRun(stored, charges, outcomes) == ReferenceRun(stored, charges, outcomes)
  {
    RunFromMatchesReference(stored, charges, outcomes, 0);
  }

  /** A charge reports exhaustion exactly when none of its five attempts settles. */
  lemma ExhaustedIffEveryAttemptFails(stored: Option<int>, charges: int, outcomes: seq<Outcome>)
    ensures ChargeRun(stored, charges, outcomes).result == Exhausted
            <==> forall i :: 0 <= i < NumberOfRetries ==> !SettlesAt(stored, charges, outcomes, i)
  {
    ChargeRunIsFirstSettlement(stored, charges, outcomes);
  }

  /** The script never lets another client write the key. */
  predicate NoForeignWrites(outcomes: seq<Outcome>)
  {
    forall i :: 0 <= i < |outcomes| ==> ForeignWrite(outcomes[i]).None?
  }

  /** When nobody else writes the key, every attempt reads the starting value. */
  lemma {:induction false} NoForeignWriteKeepsStored(stored: Option<int>, outcomes: seq<Outcome>, n: nat)
    requires NoForeignWrites(outcomes)
    ensures StoredBefore(stored, outcomes, n) == stored
  {
    if n > 0 {
      NoForeignWriteKeepsStored(stored, outcomes, n - 1);
    }
  }

  /**
   * Five faulting attempts: exhaustion after five retries, no write by this
   * call, and the key holding the last value another client wrote, or the
   * value it started with when nobody else wrote it.
   */
  lemma EveryAttemptFaultingExhausts(stored: Option<int>, charges: int, outcomes: seq<Outcome>)
    requires forall i :: 0 <= i < NumberOfRetries ==>
               OutcomeAt(outcomes, i).ReadFault?
               || (OutcomeAt(outcomes, i).CommitFault? && NumberOf(StoredBefore(stored, outcomes, i)) > charges)
    ensures var run := ChargeRun(stored, charges, outcomes);
            && run == Run(Exhausted, StoredBefore(stored, outcomes, NumberOfRetries), NumberOfRetries, false)
            && (NoForeignWrites(outcomes) ==> run.final == stored)
  {
    ChargeRunIsFirstSettlement(stored, charges, outcomes);
    if NoForeignWrites(outcomes) {
      NoForeignWriteKeepsStored(stored, outcomes, NumberOfRetries);
    }
  }

  /** Five commits that each lose to another writer (who leaves enough money to try again): exhaustion. */
  lemma EveryCommitConflictingExhausts(stored: Option<int>, charges: int, outcomes: seq<Outcome>)
    requires NumberOf(stored) > charges
    requires forall i :: 0 <= i < NumberOfRetries ==> OutcomeAt(outcomes, i).Conflict?
    requires forall i :: 0 <= i < NumberOfRetries - 1 ==> OutcomeAt(outcomes, i).other > charges
    ensures var run := ChargeRun(stored, charges, outcomes);
            && run.result == Exhausted
            && run.retriesUsed == NumberOfRetries
            && !run.committed
            && run.final == Some(OutcomeAt(outcomes, NumberOfRetries - 1).other)
  {
    forall i | 0 <= i < NumberOfRetries
      ensures !SettlesAt(stored, charges, outcomes, i)
    {
      if i > 0 {
        assert StoredBefore(stored, outcomes, i) == Some(OutcomeAt(outcomes, i - 1).other);
      }
    }
    ChargeRunIsFirstSettlement(stored, charges, outcomes);
  }

  /** Every write another client makes in the script leaves at most `bound`. */
  predicate ForeignWritesAtMost(outcomes: seq<Outcome>, bound: int)
  {
    forall i :: 0 <= i < |outcomes| && ForeignWrite(outcomes[i]).Some? ==> ForeignWrite(outcomes[i]).value <= bound
  }

  lemma {:induction false} InsufficientFrom(stored: Option<int>, charges: int, outcomes: seq<Outcome>, attempt: nat)
    requires attempt <= NumberOfRetries
    requires NumberOf(stored) <= charges
    requires ForeignWritesAtMost(outcomes, charges)
    ensures var run := RunFrom(stored, charges, outcomes, attempt);
            && !run.committed && run.result.charges == 0 && NumberOf(run.final) <= charges
            && (run.result == ChargeResult(true, NumberOf(run.final), 0) || run.result == Exhausted)
            && (NoForeignWrites(outcomes) ==> run.final == stored)
    decreases NumberOfRetries - attempt
  {
    if attempt < NumberOfRetries && OutcomeAt(outcomes, attempt).ReadFault? {
      InsufficientFrom(AfterFailure(stored, OutcomeAt(outcomes, attempt)), charges, outcomes, attempt + 1);
    }
  }

  /**
   * A balance not strictly above the amount is never debited, however many
   * faults the store raises, as long as no other client raises the balance
   * above the amount: the call reports the balance it read with nothing
   * charged, or exhaustion. When nobody else writes, the key is untouched and
   * the balance reported is the one the call started from.
   */
  lemma InsufficientFundsAreNeverCharged(stored: Option<int>, charges: int, outcomes: seq<Outcome>)
    requires NumberOf(stored) <= charges
    requires ForeignWritesAtMost(outcomes, charges)
    ensures var run := ChargeRun(stored, charges, outcomes);
            && !run.committed && run.result.charges == 0
            && (run.result == ChargeResult(true, NumberOf(run.final), 0) || run.result == Exhausted)
            && (NoForeignWrites(outcomes) ==> run.final == stored)
  {
    InsufficientFrom(stored, charges, outcomes, 0);
  }

  /**
   * The strict boundary: charging exactly the whole balance charges nothing
   * when nobody else writes the key, whatever faults the store raises.
   */
  lemma ExactBalanceIsNotCharged(balance: int, outcomes: seq<Outcome>)
    requires NoForeignWrites(outcomes)
    ensures var run := ChargeRun(Some(balance), balance, outcomes);
            && run.result.charges == 0 && !run.committed && run.final == Some(balance)
            && (run.result == ChargeResult(true, balance, 0) || run.result == Exhausted)
  {
    InsufficientFundsAreNeverCharged(Some(balance), balance, outcomes);
  }

  /**
   * A fault does not protect a short balance: with 5 stored, a charge of 10
   * whose first WATCH raises while another client resets the key to 100 reads
   * 100 on its second attempt and debits it to 90. (Had the WATCH succeeded
   * and the GET raised, the server would keep that watch and the second EXEC
   * would fail too; the model's WATCH starts afresh instead.)
   */
  lemma FaultThenForeignResetDebits()
    ensures ChargeRun(Some(5), 10, [ReadFault(Some(DefaultBalance))])
            == Run(ChargeResult(true, 90, 10), Some(90), 1, true)
  {
  }

  /**
   * When nobody else writes the key, a charge is decided on the balance it
   * started from: a debit of exactly `charges`, a report of that balance, or
   * exhaustion with the key untouched.
   */
  lemma UndisturbedChargeDecidesOnStoredBalance(stored: Option<int>, charges: int, outcomes: seq<Outcome>)
    requires NoForeignWrites(outcomes)
    ensures var run := ChargeRun(stored, charges, outcomes);
            || (run.result == Exhausted && run.final == stored && !run.committed)
            || run == Settle(stored, charges, run.retriesUsed)
  {
    forall i | 0 <= i <= NumberOfRetries
      ensures StoredBefore(stored, outcomes, i) == stored
    {
      NoForeignWriteKeepsStored(stored, outcomes, i);
    }
    ChargeRunIsFirstSettlement(stored, charges, outcomes);
  }

  /** Every write another client makes in the script leaves at least 1. */
  predicate ForeignWritesPositive(outcomes: seq<Outcome>)
  {
    forall i :: 0 <= i < |outcomes| && ForeignWrite(outcomes[i]).Some? ==> ForeignWrite(outcomes[i]).value >= 1
  }

  lemma {:induction false} StoredStaysPositive(balance: int, outcomes: seq<Outcome>, n: nat)
    requires balance >= 1
    requires ForeignWritesPositive(outcomes)
    ensures NumberOf(StoredBefore(Some(balance), outcomes, n)) >= 1
  {
    if n > 0 {
      StoredStaysPositive(balance, outcomes, n - 1);
    }
  }

  /**
   * Whatever the store and other clients do, as long as the balance and every
   * value other clients write are at least 1, a charge of any amount reports a
   * remaining balance of 0 only when it exhausted its retries.
   */
  lemma ZeroRemainingOnlyFromExhaustion(balance: int, charges: int, outcomes: seq<Outcome>)
    requires balance >= 1
    requires ForeignWritesPositive(outcomes)
    ensures ChargeRun(Some(balance), charges, outcomes).result.remainingBalance == 0
            ==> ChargeRun(Some(balance), charges, outcomes).result == Exhausted
  {
    ChargeRunIsFirstSettlement(Some(balance), charges, outcomes);
    StoredStaysPositive(balance, outcomes, FirstSettling(Some(balance), charges, outcomes, 0));
  }

  /** One charge call in a sequence: its amount and what the store does to its attempts. */
  datatype Call = Call(amount: int, outcomes: seq<Outcome>)

  /** Charges made one after another against one key: their results and the key's final value. */
  function Sequential(stored: Option<int>, calls: seq<Call>): (seq<ChargeResult>, Option<int>)
    decreases |calls|
  {
    if calls == [] then ([], stored)
    else
      var run := ChargeRun(stored, calls[0].amount, calls[0].outcomes);
      var (rest, final) := Sequential(run.final, calls[1..]);
      ([run.result] + rest, final)
  }

  function TotalCharged(results: seq<ChargeResult>): int
  {
    if results == [] then 0 else results[0].charges + TotalCharged(results[1..])
  }

  predicate WellFormed(calls: seq<Call>)
  {
    forall i :: 0 <= i < |calls| ==> calls[i].amount >= 0 && NoForeignWrites(calls[i].outcomes)
  }

  /**
   * Sequential charges of non-negative amounts against a non-negative balance
   * never overdraw it: what they charge in total is exactly what left the
   * balance, and the balance stays non-negative.
   */
  lemma {:induction false} SequentialChargesNeverOverdraw(balance: int, calls: seq<Call>)
    requires balance >= 0
    requires WellFormed(calls)
    ensures var (results, final) := Sequential(Some(balance), calls);
            && final.Some? && final.value >= 0
            && TotalCharged(results) == balance - final.value
            && TotalCharged(results) <= balance
    decreases |calls|
  {
    if calls != [] {
      var run := ChargeRun(Some(balance), calls[0].amount, calls[0].outcomes);
      UndisturbedChargeDecidesOnStoredBalance(Some(balance), calls[0].amount, calls[0].outcomes);
      assert WellFormed(calls[1..]) by {
        forall i | 0 <= i < |calls[1..]| ensures calls[1..][i] == calls[i + 1] { }
      }
      SequentialChargesNeverOverdraw(run.final.value, calls[1..]);
    }
  }

  /**
   * Sequential charges starting from a positive balance never report a
   * remaining balance of 0: only exhaustion reports 0.
   */
  lemma {:induction false} SequentialChargesNeverReportZero(balance: int, calls: seq<Call>)
    requires balance >= 1
    requires WellFormed(calls)
    ensures var (results, final) := Sequential(Some(balance), calls);
            && |results| == |calls|
            && forall i :: 0 <= i < |results| && results[i].remainingBalance == 0 ==> results[i] == Exhausted
    decreases |calls|
  {
    if calls != [] {
      var run := ChargeRun(Some(balance), calls[0].amount, calls[0].outcomes);
      UndisturbedChargeDecidesOnStoredBalance(Some(balance), calls[0].amount, calls[0].outcomes);
      assert WellFormed(calls[1..]) by {
        forall i | 0 <= i < |calls[1..]| ensures calls[1..][i] == calls[i + 1] { }
      }
      SequentialChargesNeverReportZero(run.final.value, calls[1..]);
    }
  }

  /** `n` charges of `amount` that the store lets through undisturbed. */
  function UndisturbedCalls(n: nat, amount: int): seq<Call>
  {
    if n == 0 then [] else [Call(amount, [])] + UndisturbedCalls(n - 1, amount)
  }

  /** The first of `n + 1` undisturbed charges settles at its first attempt; the rest start from what it left. */
  lemma UndisturbedStep(balance: int, amount: int, n: nat)
    ensures var run := Settle(Some(balance), amount, 0);
            var (rest, final) := Sequential(run.final, UndisturbedCalls(n, amount));
            Sequential(Some(balance), UndisturbedCalls(n + 1, amount)) == ([run.result] + rest, final)
  {
    var calls := UndisturbedCalls(n + 1, amount);
    assert calls[0] == Call(amount, []) && calls[1..] == UndisturbedCalls(n, amount);
    assert ChargeRun(Some(balance), amount, []) == Settle(Some(balance), amount, 0);
  }

  /** Undisturbed charges against a balance not above the amount report that balance each time and charge nothing. */
  lemma {:induction false} ShortBalanceIsReportedEachTime(balance: int, amount: int, n: nat)
    requires balance <= amount
    ensures Sequential(Some(balance), UndisturbedCalls(n, amount))
            == (seq(n, _ => ChargeResult(true, balance, 0)), Some(balance))
  {
    if n > 0 {
      ShortBalanceIsReportedEachTime(balance, amount, n - 1);
      UndisturbedStep(balance, amount, n - 1);
      assert [ChargeResult(true, balance, 0)] + seq(n - 1, _ => ChargeResult(true, balance, 0))
             == seq(n, _ => ChargeResult(true, balance, 0));
    } else {
      assert seq(n, _ => ChargeResult(true, balance, 0)) == [];
    }
  }

  /**
   * From 10 + 10k, k + n undisturbed charges of 10 debit k times down to 10,
   * then report 10 with nothing charged n times.
   */
  lemma {:induction false} ChargesOfTenStepDownToTen(k: nat, n: nat)
    ensures var (results, final) := Sequential(Some(10 + 10 * k), UndisturbedCalls(k + n, 10));
            && final == Some(10) && |results| == k + n
            && (forall i :: 0 <= i < k ==> results[i] == ChargeResult(true, 10 * (k - i), 10))
            && results[k..] == seq(n, _ => ChargeResult(true, 10, 0))
  {
    if k == 0 {
      ShortBalanceIsReportedEachTime(10, 10, n);
    } else {
      ChargesOfTenStepDownToTen(k - 1, n);
      UndisturbedStep(10 + 10 * k, 10, k - 1 + n);
    }
  }

  /**
   * After a reset, thirteen undisturbed charges of 10 one after another debit
   * nine times and then report 10 with nothing charged: none reports 0.
   */
  lemma ThirteenChargesOfTenBottomOutAtTen()
    ensures Sequential(Some(DefaultBalance), UndisturbedCalls(13, 10)).0
            == [ChargeResult(true, 90, 10), ChargeResult(true, 80, 10), ChargeResult(true, 70, 10),
                ChargeResult(true, 60, 10), ChargeResult(true, 50, 10), ChargeResult(true, 40, 10),
                ChargeResult(true, 30, 10), ChargeResult(true, 20, 10), ChargeResult(true, 10, 10),
                ChargeResult(true, 10, 0), ChargeResult(true, 10, 0), ChargeResult(true, 10, 0),
                ChargeResult(true, 10, 0)]
  {
    ChargesOfTenStepDownToTen(9, 4);
    var results := Sequential(Some(DefaultBalance), UndisturbedCalls(13, 10)).0;
    assert results[9..] == seq(4, _ => ChargeResult(true, 10, 0));
    assert forall i :: 9 <= i < 13 ==> results[i] == results[9..][i - 9];
  }

  /**
   * After a reset, five undisturbed charges of 10 report 90, 80, 70, 60 and 50,
   * each charging 10.
   */
  method ResetThenChargeFiveTimes() returns (results: seq<ChargeResult>)
    ensures results == [ChargeResult(true, 90, 10), ChargeResult(true, 80, 10), ChargeResult(true, 70, 10),
                        ChargeResult(true, 60, 10), ChargeResult(true, 50, 10)]
  {
    var server := new Server();
    var client := new Client(server);
    Reset(client, "account");
    var r1, d1 := Charge(client, "account", 10, []);
    var r2, d2 := Charge(client, "account", 10, []);
    var r3, d3 := Charge(client, "account", 10, []);
    var r4, d4 := Charge(client, "account", 10, []);
    var r5, d5 := Charge(client, "account", 10, []);
    results := [r1, r2, r3, r4, r5];
  }
}
