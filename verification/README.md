# Hatch sale engine in Dafny

A model of the Hatch, a timed, goal-gated fundraising sale (CommonsSwarm
`hatch-app`). Contributors pay a contribution token and receive project
tokens at a fixed exchange rate. Each purchase also gets a vesting schedule.
When the funding period ends, the sale has either reached its minimum goal
or it refunds. In that case every contributor can get back everything they
paid, and the project tokens issued for it are burnt. The sale also acts as
an ACL oracle: a permission check that opens once the sale's vesting
completion date is reached.

The contract's own source is not part of this model. Its behaviour is taken
from the two test files that pin it down: `test/Refund.test.js` and
`test/Vesting.test.js`.

Modules, one file each:

- `MapSums` (`sums.dfy`): balances as finite maps from account to amount,
  and their ghost total, with the update and removal laws.
- `HatchConfig` (`config.dfy`): the parameters fixed at initialisation, and
  `Conversion`, the exact rate multiplication used both to mint on a
  purchase and to size the burn on a refund.
- `SaleState` (`state.dfy`): the lifecycle state `StateAt`, a pure function
  of the clock, the start date, the period, `minGoal` and `totalRaised`.
- `VestingSchedule` (`vesting.dfy`): the vesting recorded per purchase,
  `vestingCompleteDate()` and the `canPerform` time gate.
- `Hatch` (`hatch.dfy`): the sale record, `open`, `contribute` and `refund`.
  Each returns a `Result` holding either the new sale and the record it
  emits, or an error, in which case the sale is unchanged. It also holds the
  bookkeeping invariant `Valid` and the lemmas about these operations.
- `Replay` (`replay.dfy`): a sequence of calls, each with its own clock
  reading, run in order. `Execute` runs them in a loop and logs what each
  call reports.

Decisions where the tests pin down one of two plausible behaviours, or
leave a choice open:

- Vesting is anchored to the sale's start date. The alternative, anchoring
  each vesting to the time of its purchase, is ruled out: the tests buy at
  `startDate + 1` and expect the recorded start to be `startDate`. The cliff
  and completion dates are offsets from it.
- Every vesting is revocable. The tests assert revocability outright, with
  no configuration constant behind it.
- A refund checks the sale state before the ledger entry. In the Funding
  block the tests refund `buyer1`, who was already refunded, and expect
  `HATCH_INVALID_STATE`, not `HATCH_NOTHING_TO_REFUND`.
- A start date of 0 means "not set". `open` sets the start date to the
  current time. It is rejected with `InvalidState` once a start date is
  set.
- A refund does not lower `totalRaised`. The tests are consistent with
  either choice.
- A time equal to `startDate + period` counts as after the period. No test
  reads the state at exactly `startDate + period`.

## Model

| member | source | states |
|---|---|---|
| SaleState.StateAt | test/Refund.test.js:45-50 | Pending exactly before the start date is set and reached; Funding exactly from the start through the period; Refunding exactly after the period with less than `minGoal` raised; GoalReached exactly after the period with `minGoal` raised |
| SaleState.FundingAtStart | test/Refund.test.js:99-105 | at `now == startDate` the state is Funding, whatever amount was raised and whatever earlier reads showed |
| SaleState.FundingIgnoresRaised | test/Refund.test.js:118-124 | whether the sale is funding does not depend on the amount raised, so reaching the minimum goal during the period keeps it Funding |
| SaleState.OutcomeAfterPeriod | test/Refund.test.js:130-137 | after the period, Refunding iff the minimum goal was missed and GoalReached iff it was met |
| SaleState.StateMonotoneInTime | test/Refund.test.js:122-137 | with the amount raised fixed, a later clock never moves the sale back in the order Pending, Funding, outcome, and an outcome once reached stays |
| SaleState.GoalReachedMonotoneInRaised | test/Refund.test.js:118-137 | raising more never turns GoalReached into another state |
| HatchConfig.ConversionAdditive | test/Refund.test.js:52-58 | two purchases convert to the same project amount as one purchase of their sum |
| VestingSchedule.Schedule | test/Vesting.test.js:38-59 | the vesting for a purchase holds the conversion of the contribution, starts at the sale's start date, has its cliff at `startDate + cliffPeriod`, completes at `startDate + completePeriod` and is revocable |
| VestingSchedule.CanPerformIgnoresArguments | test/Vesting.test.js:62-71 | the oracle gives the same answer whatever entity, app, role and parameters it is asked about |
| VestingSchedule.CanPerformEdge | test/Vesting.test.js:62-71 | the oracle is closed at `vestingCompleteDate - 1` and open at exactly `vestingCompleteDate` |
| VestingSchedule.CanPerformMonotone | test/Vesting.test.js:68-71 | once the oracle is open it stays open at every later time |
| VestingSchedule.CanPerformMatchesVesting | test/Vesting.test.js:52-71 | for a vesting anchored to the sale, the oracle is open exactly when that vesting is complete |
| Hatch.Init | test/Refund.test.js:12-25 | a fresh sale satisfies the bookkeeping invariant with nothing raised, contributed, issued or vested |
| Hatch.Open | test/Refund.test.js:27-30 | opening fails with InvalidState exactly when a start date is already set; otherwise it only sets the start date to now, after which (for a non-zero now and a positive period) the sale is Funding at that instant |
| Hatch.Contribute | test/Refund.test.js:37-43 | rejected with InvalidState outside Funding, then for a zero value, then for an unpaid amount; on success it moves exactly `value` from the buyer to the sale, adds it to the buyer's ledger entry and to `totalRaised`, mints exactly its conversion, records one anchored vesting for it, and leaves every other account unchanged |
| Hatch.Refund | test/Refund.test.js:62-95 | InvalidState iff the sale is not Refunding; NothingToRefund iff it is Refunding and the entry is zero; on success it pays back the whole outstanding entry, zeroes it, burns its conversion from the holder and from the supply, emits `Refund(contributor, value, amount)` with `amount` the conversion of `value`, and changes nothing else |
| Hatch.OpenPreservesValid | test/Vesting.test.js:22-26 | opening keeps the bookkeeping invariant |
| Hatch.ContributePreservesValid | test/Refund.test.js:52-60 | a purchase keeps the invariant: each holder's project tokens equal the conversion of their outstanding contribution, the sale holds the sum of those contributions, and every vesting is anchored |
| Hatch.RefundPreservesValid | test/Refund.test.js:82-87 | a refund keeps the invariant, so the supply remains the conversion of what the sale still holds |
| Hatch.ContributeConserves | test/Refund.test.js:52-55 | a purchase keeps the total of contribution tokens (holders plus sale) constant and raises the project-token total by exactly the conversion |
| Hatch.RefundConserves | test/Refund.test.js:82-87 | a refund keeps the total of contribution tokens constant and lowers the project-token total by exactly the burnt amount |
| Hatch.RefundSucceedsWhenOwed | test/Refund.test.js:62-71 | on a consistent sale a refund succeeds iff the sale is Refunding and the contributor has a non-zero entry, so the integrity failure cannot occur |
| Hatch.RefundOnce | test/Refund.test.js:93-95 | after a refund, a second refund of the same contributor fails, with NothingToRefund whenever the sale is Refunding |
| Hatch.RefundKeepsState | test/Refund.test.js:98-109 | a refund does not change the state read at any time, so the sale still reads Funding at its start date and refunds there fail |
| Hatch.ContributeThenRefundRestores | test/Refund.test.js:62-66 | a buyer with no entry who makes one purchase and is refunded gets back the balance they started with and holds no project tokens |
| Hatch.PurchasesAccumulate | test/Refund.test.js:68-80 | two purchases record their sum, issue the conversion of their sum and two vestings, and one refund then pays back the sum with `Refund(c, a + b, conversion(a + b))` |
| Hatch.PurchaseVestingIndependentOfTime | test/Vesting.test.js:26-45 | the purchase record and vesting do not depend on when in the period the purchase is made, and the vesting starts at the sale's start date |
| Hatch.CanPerformWhenVested | test/Vesting.test.js:52-71 | on a consistent sale, the oracle is open exactly when any recorded vesting of any holder is complete |
| Replay.ApplyPreserves | test/Refund.test.js:35-46 | any single call, accepted or rejected, keeps the invariant and the contribution-token total and never lowers `totalRaised` |
| Replay.RunPreserves | test/Refund.test.js:35-46 | any sequence of calls at any clock readings keeps the invariant and the contribution-token total, never lowers `totalRaised`, and leaves the supply equal to the conversion of what the sale holds |
| Replay.ReportsAt | test/Refund.test.js:35-46 | the i-th logged outcome is what the i-th call reports to the sale left by the calls before it |
| Replay.ApplyAfterOutcome | test/Refund.test.js:130-141 | once the sale has an outcome at time `t`, a call made at or after `t` changes neither the configuration nor the amount raised and keeps a zero entry at zero; while refunding, a refund of a zero entry reports NothingToRefund |
| Replay.OutcomeIsFinal | test/Refund.test.js:45-50 | after Refunding or GoalReached at time `t`, any run of calls made at or after `t` keeps the configuration and the amount raised, so the state at every time from `t` on is unchanged, and a zero entry stays zero |
| Replay.NeverRefundedAgain | test/Refund.test.js:89-95 | a contributor with nothing outstanding once the sale is refunding (never contributed, or already refunded) gets NothingToRefund from every later refund call in any run |
| Replay.Execute | test/Refund.test.js:35-46 | the loop ends in the same sale as the functional run and logs exactly one outcome per call, and the invariant and conservation hold at the end |

## Left out

- Maximum goal: the `totalRaised >= maxGoal` shortcut to GoalReached and the capping of a contribution at `maxGoal` are not modelled. The tests do not exercise them.
- `close()` and the Closed state are not modelled, for the same reason.
- Token internals (`generateTokens`, `approve`, allowances, ERC20 transfer rules): balances are plain maps. A failed transfer is the single error InsufficientFunds.
- Token manager internals: only the vesting tuple it records is modelled. A refund burns the tokens and leaves the recorded vestings as they are, since what the token manager does to them is not shown.
- ACL enforcement and the permission needed to call `open()` are not modelled.
- Deploy and test helpers (`prepareDefaultSetup`, `initializeHatch`, the constants): their values are symbolic parameters of `Config` and `Init`.
- Conversion rounding: the conversion helper is not part of this model, and the conversion is an exact multiplication by `exchangeRate`.
- Event delivery: the `Refund` event and the purchase record are returned as values.
- The clock: the mock timestamp is the `now` parameter of each operation.
- Integer widths: times and amounts are unbounded naturals, so 64-bit timestamps and 256-bit amounts cannot overflow here.
- Zero contributions are rejected with InvalidContributeValue. The tests never contribute zero.
- Project-token transfers between holders are not modelled: project tokens are only minted by a purchase and burnt by a refund, never moved. The invariant `Hatch.Valid` (each holder's project tokens equal the conversion of their outstanding contribution) holds only because of that.
- Hatch.RefundSucceedsWhenOwed: proves IntegrityViolation (reserve, holder balance or supply too small for a refund) unreachable only in this closed world without project-token transfers. Once vesting is complete, a holder could move tokens away, and the burn could then fail; the error branch is kept for that case.
