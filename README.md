# Cloud charging ledger — a Dafny model of the charge protocol

The system keeps account balances in a Redis-style key-value store, one key
`<account>/balance` per account. It offers two operations:

- **reset** overwrites an account's balance with the starting balance, 100.
- **charge** debits an amount with an optimistic-concurrency loop. It watches
  the key, reads the balance (an unset key reads as 0) and decides with a strict
  `balance > amount` test. When that holds it commits the new balance in a
  MULTI/EXEC transaction that fails if anybody wrote the key since the watch.
  A failed commit or any raised error costs one of five retries, after a wait
  of `backoff(5 - retries)` milliseconds. The call ends with one of three
  results:
  - a debit `{true, balance - amount, amount}`;
  - authorized but uncharged, `{true, balance, 0}`;
  - exhausted, `{false, 0, 0}`.

  UNWATCH runs in a `finally` block, so it runs on every exit.

The backoff is the doubly recursive function `backoff(n) = backoff(n-1) + backoff(n-2)`
for `n > 1`, and 1 otherwise.

## Layout

- `wrappers.dfy` (module `Wrappers`): `Option`, the reply to a GET of a key
  that may be unset.
- `backoff.dfy` (module `BackoffPolicy`): `Backoff`, the schedule of waits a
  charge requests, and their growth and cost.
- `store.dfy` (module `KeyValueStore`): an in-memory server (`Server`) with
  its values and a per-key write version. It also has one connection
  (`Client`) with the connection's watch state. `Client.CommitSet` commits
  only if the watched key's version has not moved. Two ghost counters record
  how many UNWATCH commands and successful commits the connection has made.
- `ledger.dfy` (module `Ledger`): the constants, `ChargeResult`, the outcome
  script, and the pure description of a charge call: `AttemptStep` for one
  attempt, `RunFrom` and `ChargeRun` for the whole loop. It also holds the
  imperative `Reset` and `Charge`, the latter with `Attempt` as its loop body.
  `Charge` is proved equal to `ChargeRun`.
- `ledger_properties.dfy` (module `LedgerProperties`): a second, independent
  description of the loop, "the call is decided by its first attempt that
  settles". It also holds exhaustion, the strict boundary, sequences of
  charges and the test scenarios.

What the store does to each attempt is an injected script, `seq<Outcome>`,
with one entry per attempt. Entries past the end of the script count as `Ok`.
The entries mean:

- `Ok`: nothing goes wrong.
- `Conflict(v)`: another client sets the key to `v` between this attempt's
  read and its EXEC.
- `ReadFault(w)`: WATCH or GET raises. If `w` is `Some(v)`, another client
  sets the key to `v` before the next attempt.
- `CommitFault(w)`: EXEC raises and this call writes nothing. If `w` is
  `Some(v)`, another client sets the key to `v` before the next attempt.

An attempt that never reaches EXEC ignores `Conflict` and `CommitFault`. The
wait requested before each retry is returned as `delays` instead of slept.

The code does not check the amount or the account string. A negative amount
with a balance above it raises the balance, so the lemmas about sequences of
charges assume non-negative amounts. Any account string is accepted, including
the empty one.

## Model

| member | source | states |
|---|---|---|
| BackoffPolicy.Backoff | backend/app.ts:37-42 | every wait the policy returns is at least 1 ms, for every index including negative ones |
| BackoffPolicy.BackoffIsMonotone | backend/app.ts:37-42 | the wait never decreases as the retry index grows |
| BackoffPolicy.BackoffDoublesEveryTwoRetries | backend/app.ts:38-40 | the wait at least doubles every two retries, so it grows exponentially |
| BackoffPolicy.InvocationsTrackBackoff | backend/app.ts:38-40 | the doubly recursive computation makes exactly 2·backoff(n) − 1 calls, so its cost grows as fast as the wait |
| BackoffPolicy.FirstWaits | backend/app.ts:37-42 | the waits for indices 0..4 are 1, 1, 2, 3, 5 |
| BackoffPolicy.Schedule | backend/app.ts:59-67 | the waits requested by the first k failed attempts are backoff(0), …, backoff(k−1), in order: the index passed is the number of failures so far |
| BackoffPolicy.WorstCaseTotalWait | backend/app.ts:46-68 | a charge that uses its whole budget waits 12 ms in total |
| Ledger.TotalWaitBounded | backend/app.ts:46-68 | however many of its five retries a charge uses, the waits it requests total at most 12 ms |
| KeyValueStore.Server.Set | backend/app.ts:25 | a plain SET stores the value under the key, leaves every other key alone and moves the key's version on |
| KeyValueStore.Client.Watch | backend/app.ts:50 | WATCH records the key and its current version for this connection |
| KeyValueStore.Client.Get | backend/app.ts:51 | GET replies with the stored value, or with nothing for an unset key |
| KeyValueStore.Client.Set | backend/app.ts:25 | SET over a connection writes the value and moves the key's version on |
| KeyValueStore.Client.CommitSet | backend/app.ts:53-55 | MULTI/SET/EXEC commits exactly when nothing was watched or the watched key's version is unchanged; otherwise it writes nothing; either way it drops the watch |
| KeyValueStore.Client.Unwatch | backend/app.ts:71 | UNWATCH clears the watch and counts one more UNWATCH |
| Ledger.Settle | backend/app.ts:52-63 | a read balance strictly above the amount is debited to balance − amount ≥ 1 with charges = amount; otherwise the balance is reported untouched with charges 0 and nothing is written |
| Ledger.AttemptStep | backend/app.ts:49-68 | one attempt fails exactly when its read raises, or when the balance suffices but the commit raises or loses to another writer. A failed attempt leaves the key holding what another client wrote, if anyone did, else what it held. An attempt that settles commits if and only if nobody disturbed it (outcome `Ok`) and the balance is strictly above the amount. One that settles without committing charges nothing and leaves the key as it was |
| Ledger.RunFrom | backend/app.ts:46-74 | the loop runs at most five attempts; the result is authorized exactly when fewer than five retries were used; an unauthorized result is {false, 0, 0} with no write; a committed charge reports charges = amount and remaining ≥ 1, and that remaining balance is what the key then holds |
| Ledger.Reset | backend/app.ts:22-29 | reset stores 100 under `<account>/balance` whatever was there, moves that key's version on by one, and leaves other keys and their versions alone |
| Ledger.ResetIsIdempotent | backend/app.ts:22-25 | two resets in a row leave the same balances as one, and the account then holds 100 |
| Ledger.Attempt | backend/app.ts:49-68 | one pass of the loop body does what `AttemptStep` says: on settling it returns that result and the key holds the run's final value; on failing the key holds the value `AttemptStep` gives. The key's version moves on once per write: this call's commit, or another client's write. Other keys and their versions are unchanged |
| Ledger.Charge | backend/app.ts:44-75 | the retry loop returns the result of `ChargeRun` on the balance it started from. The key ends holding that run's final value, and no other key or version changes. The key's version grows by the number of other clients' writes plus one if this call committed. The waits it requested are `Schedule(retries used)`: at most five, totalling at most 12 ms. It commits at most once, and only when the run says so. UNWATCH is sent exactly once on every path, and the connection is left unwatched |
| LedgerProperties.ChargeRunIsFirstSettlement | backend/app.ts:48-74 | the loop is decided by its first attempt that reads successfully and then finds too little money or commits undisturbed, with that attempt's read value; if there is none, the result is exhaustion after five retries |
| LedgerProperties.ExhaustedIffEveryAttemptFails | backend/app.ts:48-74 | a charge reports {false, 0, 0} if and only if none of its five attempts settles |
| LedgerProperties.EveryAttemptFaultingExhausts | backend/app.ts:65-74 | if every attempt raises, the result is {false, 0, 0} after five retries and this call writes nothing. The key holds the last value another client wrote, or its starting value when nobody else wrote |
| LedgerProperties.EveryCommitConflictingExhausts | backend/app.ts:55-74 | if every commit loses to another writer, the result is {false, 0, 0} after five retries and this call writes nothing |
| LedgerProperties.InsufficientFundsAreNeverCharged | backend/app.ts:52-63 | a balance not strictly above the amount is never debited, whatever faults occur, as long as other clients write no more than the amount. The result is {true, balance read, 0} or exhaustion. With no other writers the key is untouched |
| LedgerProperties.ExactBalanceIsNotCharged | backend/app.ts:52 | charging exactly the whole balance charges nothing (the strict boundary), whatever faults occur when nobody else writes |
| LedgerProperties.FaultThenForeignResetDebits | backend/app.ts:50-67 | a short balance of 5 whose first read raises while another client resets it to 100 is debited by 10 to 90 on the second attempt |
| LedgerProperties.UndisturbedChargeDecidesOnStoredBalance | backend/app.ts:50-68 | when no other client writes the key, a charge either exhausts with the key untouched, or is decided on the balance it started from |
| LedgerProperties.ZeroRemainingOnlyFromExhaustion | backend/app.ts:52-74 | for any amount and any script whose other writers leave at least 1, a charge starting from a balance of at least 1 reports a remaining balance of 0 only when it exhausted its retries |
| LedgerProperties.SequentialChargesNeverOverdraw | backend/app.ts:52-57 | charges of non-negative amounts made one after another, with no other writers, against a non-negative balance charge in total exactly what left the balance. The total never exceeds the starting balance, and the balance stays non-negative |
| LedgerProperties.SequentialChargesNeverReportZero | backend/app.ts:52-63 | one-after-another charges with no other writers, from a positive balance, report a remaining balance of 0 only when a call exhausted its retries |
| LedgerProperties.ShortBalanceIsReportedEachTime | backend/app.ts:62-63 | undisturbed charges one after another against a balance not above the amount report that balance every time, charge nothing and leave it in place |
| LedgerProperties.ChargesOfTenStepDownToTen | backend/app.ts:52-63 | from a balance of 10 + 10k, undisturbed charges of 10 one after another debit k times, down to 10, then report 10 with nothing charged |
| LedgerProperties.ThirteenChargesOfTenBottomOutAtTen | backend/test.ts:57-60 | after a reset, thirteen undisturbed charges of 10 one after another report 90, 80, …, 10, then {true, 10, 0} four times. None of them reports 0 |
| LedgerProperties.ResetThenChargeFiveTimes | backend/test.ts:9-18 | after a reset, five undisturbed charges of 10 report 90, 80, 70, 60 and 50, each with charges 10 |

The overcharge test at backend/test.ts:57-60 expects 0 as the lowest remaining
balance among thirteen concurrent charges. A debit always leaves at least 1,
and the strict `>` test stops charges of 10 at a balance of 10
(`ThirteenChargesOfTenBottomOutAtTen`). Other writers in that test are other
charges, which leave at least 1. So, per `ZeroRemainingOnlyFromExhaustion`,
the 0 can only come from a call that exhausted its retries under contention,
or from an unset key read as 0.

## Left out

- The HTTP layer (`buildApp`, routes, request defaults, status codes): transport, not ledger logic.
- `connect`, the host and port settings, `disconnect` and logging: these are
  I/O. `Reset` and `Charge` receive an already-open connection.
- Sleeping: each requested wait is recorded in `delays` instead of slept.
- Reset: does not model a store error during the SET, which the source passes on to its caller.
- Charge: does not model an error from `connect`, or from the UNWATCH or
  `disconnect` in the `finally` block. The source passes errors from `connect`
  and from UNWATCH on to its caller. `charge` does not await `disconnect`, so a
  failure there does not reach the caller.
- Redis details outside the contract used here:
  - a watch that outlives a failed attempt. When WATCH succeeds and GET then
    raises, the server keeps that watch until EXEC, UNWATCH or DISCARD. A write
    by another client before the next attempt then makes that attempt's EXEC
    fail as well. The model's `Watch` starts afresh on each attempt, so in the
    model that next attempt can commit;
  - an EXEC whose write lands but whose reply is lost;
  - EXEC reporting a conflict by raising instead of returning null. Both lead to
    the same wait and retry, so the model does not tell them apart.
- Real interleavings of concurrent charges: another writer appears only as a
  write carried by a `Conflict`, `ReadFault` or `CommitFault` entry in the
  script. The ledger invariants are proved only for charges made one after
  another.
- JavaScript number semantics: balances and amounts are unbounded integers.
  `Number` of a non-numeric string (NaN) and fractional amounts are not modelled.
