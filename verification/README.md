# Verification of the liquid-staking contracts

This project models three contracts of the repository and proves what they promise:

- the liquid-staking pool (`contracts/stake_manager`),
- the liquid staking token (`contracts/lsd_token`),
- the ICS-20 escrow (`contracts/cw20-ics20`).

`dafny verify dfyconfig.toml` checks everything.

## How the model is built

Each contract appears twice. A class (`StakeManager`, `LsdToken`, `Cw20Ics20`) holds the stored state and has one
method per message and per callback, with the loops and the order of checks of the original. Beside it, functions on
values (`PoolSteps`, `Token`, `Escrow`) say what each message does: either an error, or the new state with the messages
sent along. Every method is proved to agree with its function on the error, on the whole new state and on the messages.
The properties are lemmas about the functions, about sequences of them, and about all runs. The modules whose names end
in `Messages` state for every message when it is accepted and what it comes to, with the numbers written out: every
quotient by the two bounds that fix it, every amount with its receiver, and everything that does not change.

Arithmetic is on unbounded integers with explicit limits. The contracts are compiled with overflow checks, so an
overflow, an underflow or a division by zero is an error like any other, and an error changes nothing. The one
exception is the receipt of an ICS-20 packet, where the code turns an error into an acknowledgement and keeps what was
stored before it; `Escrow.Receive` does the same.

A run of the pool (`Worlds`) is a sequence of messages in any order: users, the keeper, the administrator, and the
answers to packets, each with the time and height of its block. A history is kept beside the state: which unstakes were
accepted, which of them an acknowledged bond step has covered, which withdrawal packets are out, what was paid, when
undelegations were submitted and acknowledged, what moved between the two chains. No message reads the history; the invariants use it to say what the
stored numbers mean. `Safety.EveryRunSafe` is the induction over all runs that carries the invariants of `Flight`,
`Solvency`, `BookValue`, `Settlements`, `UnstakeLedger`, `Withdrawals` and `LiquidShares` together.

| file | content |
|---|---|
| `Arith`, `Sums`, `Payload` | checked arithmetic, finite sums, the text of callback payloads |
| `Allocation` | the greedy choice of validators to undelegate from, the even split of deposits |
| `PoolTypes`, `PoolSteps` | the pool's records and what each message does |
| `PoolLoops`, `StakeManager` | the loops and the pool contract as a class |
| `UserMessages`, `EraMessages`, `AdminMessages` | what each message of the pool comes to, to the last token |
| `Worlds` | runs and their history |
| `Flight`, `Callbacks`, `Rollbacks` | which packets are out when, one callback each, what a failure undoes |
| `LiquidShares`, `ShareLedger` | the payloads of liquid-share stakes, the redemption of shares, and all shares over all runs |
| `Solvency`, `BookValue` | the exchange rate and the active stake |
| `Settlements`, `UnstakeLedger`, `Withdrawals` | unstakes from request to payout |
| `BondStep`, `UnbondWindow` | what the bond step sends and how often it may undelegate |
| `EraClock` | the era number under changes of the era length |
| `Reachability`, `Safety` | the worlds that runs lead to, and all invariants over all runs |
| `Funding`, `Restakes` | where the tokens of the payouts and of the restakes come from, over all runs |
| `FirstEra` | a concrete run through an era, which the next files continue |
| `EarlyWithdrawal`, `Commission`, `LateAnswers` | the conditions without which runs go wrong, each with the run |
| `Token`, `LsdToken`, `TokenMessages`, `PoolToken` | the token, what each of its messages comes to, and the pool together with it |
| `Escrow`, `Cw20Ics20`, `EscrowMessages`, `EscrowRuns` | the escrow, what each of its messages comes to, and the escrow together with a counterparty |

## What is taken for granted

`Worlds.Allowed`, `EscrowRuns.Proper` and `EraClock.MigratedOnTime` state these; the theorems about runs use them.

- Block time and height do not decrease, and block times are 64-bit nanoseconds.
- A packet number is not given out again while its payload is waiting.
- The platform commission is at most `CAL_BASE`. The contract does not check it. `Commission.SafeCommissions` shows that
  this is exactly the limit: under it every run leaves the pool solvent, and for every higher limit there is a run of a
  new pool that does not.
- At most one restake packet and one set-withdraw-address packet is out at a time. The stored status does not prevent a
  second one. `LateAnswers.StatusGoesBackIffOverlap` shows that this is exactly what is needed: over every run, an answer
  could at some point take the status back if and only if such a packet was sent while one of its type was out.
- Account names and the names of liquid-share denominations have no underscore in them, and account names are not
  decimal numerals. The delegations of one query result name distinct validators, and their names are not empty and
  have no underscore in them. For `ShareLedger` only: denominations that are redeemed have no comma in them.
- For the clock only: a migrated pool brings a clock that is not ahead of the block time.
- In the escrow, endpoint identifiers have no slash in them, and native coins are not called like tokens
  (`Escrow.AmountRoundTrip` shows exactly when an amount survives its encoding). The counterparty is honest on some set
  of channels, which is a parameter; on the others anything may arrive.

## Where the code does something one might not expect

- The status `RebondStarted` is never stored: the record is saved in one branch only. A restake packet can be sent
  twice. If the era is closed on the first answer, the failure of the second packet opens it again, and closing it once
  more counts its first gain twice (`LateAnswers.ClosedTwice`). `LateAnswers.FinishedEraReopened` is a run: two restakes
  of ten are acknowledged, twenty are reported as delegated, and thirty are booked.
- The set-up of a pool can be retried twice, too. The late failure of the second retry puts a running pool with deposits
  into `InitFailed`, where no step of an era is accepted (`LateAnswers.LateSetupFailure`, with the run in
  `LateAnswers.RunningPoolFails`).
- The acknowledgement of a share redemption removes every pending token of its denominations, also those of stakes it
  did not redeem, equal ones included (`LiquidShares.RedemptionExact`, with a run in `ShareLedger.EqualSharesLost`), and
  a token can be redeemed again while its redemption is out. `ShareLedger.SharesBalancedIffNoClash` is the exact
  condition over all runs: a share could at some point be lost or redeemed twice if and only if some redemption named a
  token that was not alone in its denomination or was being redeemed already, or some stake was acknowledged while its
  denomination was being redeemed.
- The administrator can delegate directly from the remote account, and nothing is booked
  (`BondStep.DirectDelegationUnbooked`); `Funding` counts the era's own transfers and bond steps.
- A collection that failed leaves its amount in the snapshot. If the next attempt finds nothing, that amount is restaked
  (`Callbacks.FailedCollectionRestaked`). `Restakes.RestakesWithinCollections` shows that over all runs this is the only
  way for more to be restaked than was collected.
- A failed redelegation leaves the new validator set in place (`Callbacks.UpdateAnswered`).
- Adding a validator is allowed while a change of the set is out; the acknowledgement then overwrites the set
  (`Callbacks.AddedMeanwhile`).
- With an unbonding period of one era or none, a withdrawal can be accepted before any bond step has covered it
  (`EarlyWithdrawal.TwoErasSuffice`, with the run).
- The era number is cast to a signed word when the era length changes (`EraClock.ResetKeepsEra`). A pool migrated with
  era length 1 and the largest offset loses all its eras that way (`EraClock.ErasLost`).

## Model

| member | source | states |
|---|---|---|
| `Allocation.AllocateUnbond` | contracts/stake_manager/src/execute_era_bond.rs:243-308 | the loop over the sorted delegations, with the clearing of old times, computes the greedy allocation |
| `Allocation.SortStable` | contracts/stake_manager/src/execute_era_bond.rs:253-255 | sorting by falling amount keeps delegations of equal amount in their order |
| `Allocation.AllocateExact` | contracts/stake_manager/src/execute_era_bond.rs:256-308 | allocation succeeds if and only if the validators the host chain accepts, with fewer than seven stored times or seven of which the first is older than the period, offer the target, largest first and up to the first whose stored time overflows; it then adds up to the target and names no validator twice |
| `Allocation.AllocateWithin` | contracts/stake_manager/src/execute_era_bond.rs:288-301 | every amount is positive and within the delegation of an eligible validator, also when some delegations are zero |
| `Allocation.AllocateFewest` | contracts/stake_manager/src/execute_era_bond.rs:253-308 | no other allocation of the same amount over eligible validators uses fewer of them, and unless a stored time overflows one is found whenever there is any |
| `Allocation.EveryDelegationTouched` | contracts/stake_manager/src/execute_era_bond.rs:110-145 | every delegating validator is undelegated from or has its reward withdrawn, never both |
| `Allocation.SplitConserves` | contracts/stake_manager/src/execute_era_bond.rs:146-211 | neither way of splitting a deposit loses or invents anything |
| `BondStep.UnbondingEraExact` | contracts/stake_manager/src/execute_era_bond.rs:47-145 | an era that withdraws undelegates exactly the surplus of the snapshot and reaches every delegating validator exactly once |
| `BondStep.BondingEraExact` | contracts/stake_manager/src/execute_era_bond.rs:146-211 | an era that deposits delegates exactly the surplus of the snapshot |
| `BondStep.DirectDelegationUnbooked` | contracts/stake_manager/src/execute_pool_delegate.rs:13-71 | a direct delegation delegates exactly its amount and leaves every stored counter as it was |
| `Payload.SplitJoin` | contracts/stake_manager/src/execute_era_bond.rs:316-317 | joined names come back from splitting if and only if there is at least one; the empty list gives the empty text |
| `Payload.ParseDec` | contracts/stake_manager/src/execute_withdraw.rs:161-162 | a printed number parses back if and only if it is within the width |
| `Payload.WithdrawRoundTrip` | contracts/stake_manager/src/execute_withdraw.rs:63-96 | the payload of a withdrawal splits into the amount, the two accounts and the very list of indices |
| `Payload.WithdrawMembership` | contracts/stake_manager/src/execute_withdraw.rs:123-136 | looking an index up among all fields but the first finds exactly the indices of the list |
| `Payload.LsmRoundTrip` | contracts/stake_manager/src/execute_stake_lsm.rs:125-132 | the payload of a liquid-share stake splits into its five fields |
| `PoolLoops.MarkAll` | contracts/stake_manager/src/execute_withdraw.rs:27-57 | the marking loop checks, sums and marks record by record, or stops at the first error |
| `PoolLoops.Retain` | contracts/stake_manager/src/execute_withdraw.rs:121-139 | the retain loop removes exactly the named records and list entries |
| `PoolLoops.ReopenAll` | contracts/stake_manager/src/execute_withdraw.rs:161-173 | the loop of the failure callback resets the named records |
| `PoolLoops.DelegateToFirst` | contracts/stake_manager/src/execute_era_bond.rs:152-183 | a small deposit goes to the first selected validator, provided all are supported |
| `PoolLoops.DelegateShares` | contracts/stake_manager/src/execute_era_rebond.rs:47-69 | equal shares, the remainder on the first validator, provided all are supported |
| `PoolLoops.StampAll` | contracts/stake_manager/src/execute_era_bond.rs:316-336 | the acknowledgement appends its time to the list of each validator named |
| `PoolLoops.SumAll` | contracts/stake_manager/src/execute_era_active.rs:52-54 | the delegations are added up, with overflow as an error |
| `PoolLoops.BuildRedelegations` | contracts/stake_manager/src/execute_pool_update_validator.rs:55-76 | one redelegation per delegation to the old validator, up to the first empty one |
| `PoolLoops.CollectRedemptions` | contracts/stake_manager/src/execute_redeem_token_for_share.rs:16-77 | the loop checks each token against the pending ones and refuses a denomination that is named twice |
| `PoolLoops.DelegateToAll` | contracts/stake_manager/src/execute_pool_delegate.rs:34-53 | equal shares for all validators, the remainder on the first |
| `StakeManager.StakeManager.Submit` | contracts/stake_manager/src/tx_callback.rs:42-71 | a payload is stored under the next reply id and filed under the channel and sequence of its packet |
| `StakeManager.StakeManager.NextReplyId` | contracts/stake_manager/src/state.rs:190-200 | ids are handed out in a ring |
| `StakeManager.StakeManager.InitPool` | contracts/stake_manager/src/execute_init_pool.rs:20-134 | the stack administrator and the pool administrator are checked, then the initial record and offset, the retry, and the errors; the fee check is a guard outside the model |
| `StakeManager.StakeManager.MigratePool` | contracts/stake_manager/src/execute_migrate_pool.rs:23-139 | the imported record, accepted only with the rate it implies |
| `StakeManager.StakeManager.DealPool` | contracts/stake_manager/src/helper.rs:339-464 | the status, the rate of the era, the stack fee and the set-withdraw-address packet |
| `StakeManager.StakeManager.ConfigPool` | contracts/stake_manager/src/execute_config_pool.rs:14-87 | each given parameter replaces the stored one, and a new era length resets the clock |
| `StakeManager.StakeManager.ConfigStack` | contracts/stake_manager/src/execute_config_stack.rs:11-41 | the stack administrator changes the fee receiver, the commission, the administrator and the token code, and entrusts a pool once |
| `StakeManager.StakeManager.ChangeEraSeconds` | contracts/stake_manager/src/execute_config_pool.rs:41-64 | the limits on the era length, the new offset and the new unbonding period |
| `StakeManager.StakeManager.Stake` | contracts/stake_manager/src/execute_stake.rs:13-60 | active and bond grow by the deposit, and the liquid tokens at the current rate are minted and counted |
| `StakeManager.StakeManager.Unstake` | contracts/stake_manager/src/execute_unstake.rs:16-135 | commission, burn, counters, the new record and list entry, and every error in order |
| `StakeManager.StakeManager.Withdraw` | contracts/stake_manager/src/execute_withdraw.rs:15-103 | the records are marked and one packet pays their sum |
| `StakeManager.StakeManager.WithdrawDone` | contracts/stake_manager/src/execute_withdraw.rs:105-152 | the success callback |
| `StakeManager.StakeManager.WithdrawFailed` | contracts/stake_manager/src/execute_withdraw.rs:154-176 | the failure callback |
| `StakeManager.StakeManager.StakeLsm` | contracts/stake_manager/src/execute_stake_lsm.rs:23-142 | the guards, the worth of the shares, and the payload |
| `StakeManager.StakeManager.StakeLsmDone` | contracts/stake_manager/src/execute_stake_lsm.rs:144-206 | the acknowledged shares are booked and minted |
| `StakeManager.StakeManager.StakeLsmFailed` | contracts/stake_manager/src/execute_stake_lsm.rs:208-234 | the shares are paid back |
| `StakeManager.StakeManager.RedeemShares` | contracts/stake_manager/src/execute_redeem_token_for_share.rs:16-77 | the guards, one redemption per token, and the payload of denominations |
| `StakeManager.StakeManager.RedeemDone` | contracts/stake_manager/src/execute_redeem_token_for_share.rs:79-98 | the denominations leave the pending and the redeeming list |
| `StakeManager.StakeManager.RedeemFailed` | contracts/stake_manager/src/execute_redeem_token_for_share.rs:100-115 | the denominations leave the redeeming list only |
| `StakeManager.StakeManager.EraUpdate` | contracts/stake_manager/src/execute_era_update.rs:25-113 | a new era with its snapshot, with or without a deposit packet |
| `StakeManager.StakeManager.EraUpdateDone` | contracts/stake_manager/src/execute_era_update.rs:115-126 | the status and the step height |
| `StakeManager.StakeManager.EraUpdateFailed` | contracts/stake_manager/src/execute_era_update.rs:128-147 | the era and the status go back and the snapshot is cleared |
| `StakeManager.StakeManager.EraBond` | contracts/stake_manager/src/execute_era_bond.rs:30-241 | both branches, the payload and the messages |
| `StakeManager.StakeManager.EraBondDone` | contracts/stake_manager/src/execute_era_bond.rs:310-345 | times, status, height and both counters |
| `StakeManager.StakeManager.CollectWithdraw` | contracts/stake_manager/src/execute_era_collect_withdraw.rs:13-90 | the collected amount is remembered, or the step is skipped |
| `StakeManager.StakeManager.CollectWithdrawDone` | contracts/stake_manager/src/execute_era_collect_withdraw.rs:92-103 | the status and the step height |
| `StakeManager.StakeManager.Rebond` | contracts/stake_manager/src/execute_era_rebond.rs:16-94 | the restake packet, with the record saved in one branch only |
| `StakeManager.StakeManager.RebondDone` | contracts/stake_manager/src/execute_era_rebond.rs:96-107 | the status and the step height |
| `StakeManager.StakeManager.CountFees` | contracts/stake_manager/src/execute_era_active.rs:61-75 | the platform's and the stack's fee on the gain |
| `StakeManager.StakeManager.CloseBook` | contracts/stake_manager/src/execute_era_active.rs:77-122 | new active stake, token total and rate, the limit on the change, and the first-stake correction |
| `StakeManager.StakeManager.EraActive` | contracts/stake_manager/src/execute_era_active.rs:20-184 | the end of an era |
| `StakeManager.StakeManager.PoolDelegate` | contracts/stake_manager/src/execute_pool_delegate.rs:13-71 | the guards and the delegations of a direct delegation |
| `StakeManager.StakeManager.AddValidator` | contracts/stake_manager/src/execute_pool_add_validator.rs:12-41 | a validator is appended |
| `StakeManager.StakeManager.UpdateValidator` | contracts/stake_manager/src/execute_pool_update_validator.rs:18-119 | the new set, and a redelegation if there is anything to move |
| `StakeManager.StakeManager.UpdateValidatorDone` | contracts/stake_manager/src/execute_pool_update_validator.rs:121-135 | the set is read from the payload |
| `StakeManager.StakeManager.RmValidator` | contracts/stake_manager/src/execute_pool_rm_validator.rs:15-103 | the validator leaves at once or when its redelegation is acknowledged |
| `StakeManager.StakeManager.RmValidatorDone` | contracts/stake_manager/src/execute_pool_rm_validator.rs:105-119 | the validator of the payload leaves the set |
| `StakeManager.StakeManager.UpdateValidatorsIcq` | contracts/stake_manager/src/execute_update_validators_icq.rs:13-36 | the set may be used again |
| `StakeManager.StakeManager.Callback` | contracts/stake_manager/src/tx_callback.rs:130-147 | each type of payload reaches its success callback |
| `StakeManager.StakeManager.FailedCallback` | contracts/stake_manager/src/tx_callback.rs:149-165 | each type of payload reaches its failure callback |
| `StakeManager.StakeManager.Sudo` | contracts/stake_manager/src/tx_callback.rs:73-128 | a payload is removed and delivered, or nothing changes |
| `StakeManager.StakeManager.Execute` | contracts/stake_manager/src/contract.rs:142-264 | every message takes the stored state to the state the runs are about |
| `UserMessages.StakeExact` | contracts/stake_manager/src/execute_stake.rs:13-60 | a stake is accepted if and only if the pool is not paused, the amount is enough and everything fits; the staker is minted the amount at the rate, rounded down, which is all that is minted |
| `UserMessages.UnstakeExact` | contracts/stake_manager/src/execute_unstake.rs:16-135 | with commission and worth fixed by two bounds each, an unstake is accepted if and only if the limits hold; the commission goes to the platform, the rest is burned, its worth moves from active to unbond, and the sender gets a record of that less 5 |
| `UserMessages.OverCommission` | contracts/stake_manager/src/execute_unstake.rs:41-52 | a commission over the whole amount refuses every unstake |
| `UserMessages.WithdrawAccepted` | contracts/stake_manager/src/execute_withdraw.rs:15-103 | a withdrawal is accepted if and only if its indices are distinct, each names an open, due record of the sender, and there is something to pay; it pays the receiver exactly that |
| `UserMessages.NoRecordNamed` | contracts/stake_manager/src/execute_withdraw.rs:105-176 | a payload that names no record removes and reopens nothing |
| `UserMessages.StakeLsmExact` | contracts/stake_manager/src/execute_stake_lsm.rs:23-142 | liquid shares are accepted if and only if every guard holds, and are worth their part of the tokens of the validator, rounded down |
| `UserMessages.StakeLsmDoneExact` | contracts/stake_manager/src/execute_stake_lsm.rs:144-206 | arrived shares are booked at that worth and their staker is minted it at the rate, rounded down |
| `UserMessages.RedeemExact` | contracts/stake_manager/src/execute_redeem_token_for_share.rs:16-77 | a redemption is accepted if and only if it names one to ten pending tokens of distinct denominations, and redeems each of them once |
| `UserMessages.NoRateNoStake` | contracts/stake_manager/src/execute_stake.rs:37-45 | at rate zero nothing is staked or booked |
| `UserMessages.NoSharesNoStake` | contracts/stake_manager/src/execute_stake_lsm.rs:100-123 | shares of a validator with less than one whole share are refused |
| `UserMessages.UserDispatch` | contracts/stake_manager/src/contract.rs:142-264 | every message of a user reaches its own handler with its arguments in their places |
| `EraMessages.EraUpdateExact` | contracts/stake_manager/src/execute_era_update.rs:25-113 | an era begins if and only if the clock is ahead of a pool that rests, one at a time, with the booked numbers in the snapshot and the deposits sent |
| `EraMessages.EraUpdateFailedExact` | contracts/stake_manager/src/execute_era_update.rs:128-147 | a failed deposit packet takes the pool back by one era, with an empty snapshot |
| `EraMessages.SharesEven` | contracts/stake_manager/src/execute_era_rebond.rs:47-69 | the split is even: all parts equal but the first, which has less than one token per validator more |
| `EraMessages.SmallToFirst` | contracts/stake_manager/src/execute_era_bond.rs:152-183 | a small amount goes to the first validator whole, and the others have rewards withdrawn |
| `EraMessages.DepositExact` | contracts/stake_manager/src/execute_era_bond.rs:146-241 | a surplus of deposits is accepted if and only if the selected validators are the pool's; below 10,000 it goes to the first, otherwise it is split evenly |
| `EraMessages.SurplusAccepted` | contracts/stake_manager/src/execute_era_bond.rs:47-109 | a surplus of withdrawals is accepted if and only if the report is recent and the validators the host chain accepts offer it |
| `EraMessages.BondDoneExact` | contracts/stake_manager/src/execute_era_bond.rs:310-345 | the acknowledgement takes exactly the snapshot out of both counters |
| `EraMessages.CollectExact` | contracts/stake_manager/src/execute_era_collect_withdraw.rs:13-90 | rewards are collected whole on a recent report, or the step is skipped |
| `EraMessages.RebondExact` | contracts/stake_manager/src/execute_era_rebond.rs:16-94 | the collected amount is restaked evenly with validators of the pool |
| `EraMessages.StepsNoteHeight` | contracts/stake_manager/src/execute_era_rebond.rs:96-107 | each acknowledged step notes its height and goes to its phase |
| `EraMessages.EraActiveAccepted` | contracts/stake_manager/src/execute_era_active.rs:20-161 | an era ends if and only if the report is there and recent, no share is pending, the numbers fit and the rate moves within the limit |
| `EraMessages.EraActiveExact` | contracts/stake_manager/src/execute_era_active.rs:61-161 | with commission, stack part and rate fixed by two bounds each, the receiver of the stack is minted its part and that of the platform the rest and nobody anything else, each total grows by its own, and the book closes with the new stake and rate |
| `EraMessages.NoRateNoGain` | contracts/stake_manager/src/execute_era_active.rs:61-66 | a gain cannot be booked at rate zero |
| `EraMessages.PoolDelegateExact` | contracts/stake_manager/src/execute_pool_delegate.rs:13-71 | a direct delegation is accepted between eras from the administrator, and goes evenly to all validators of the pool |
| `EraMessages.EraDispatch` | contracts/stake_manager/src/tx_callback.rs:73-165 | every step reaches its own handler, and an answer the callback for the payload of its packet |
| `AdminMessages.InitAccepted` | contracts/stake_manager/src/execute_init_pool.rs:20-70 | a pool is set up by who administers both pool and stack, with one to ten validators, when registered or after a failure |
| `AdminMessages.InitExact` | contracts/stake_manager/src/execute_init_pool.rs:72-134 | the record of a new pool: empty, at rate one, in era 0 by its own clock, with the parameters given or the defaults |
| `AdminMessages.MigrateAccepted` | contracts/stake_manager/src/execute_migrate_pool.rs:23-121 | a pool is imported if and only if its administrator gives the very rate its numbers have |
| `AdminMessages.MigrateExact` | contracts/stake_manager/src/execute_migrate_pool.rs:60-139 | the record of an imported pool |
| `AdminMessages.RetryExact` | contracts/stake_manager/src/execute_init_pool.rs:46-56 | a retry sends the packet again and changes nothing else |
| `AdminMessages.ConfigAccepted` | contracts/stake_manager/src/execute_config_pool.rs:14-64 | on a clock that is on time only the administrator and the limits on the era length decide |
| `AdminMessages.ConfigExact` | contracts/stake_manager/src/execute_config_pool.rs:24-87 | each parameter sets its own field, and one that is absent sets none |
| `AdminMessages.ConfigStackExact` | contracts/stake_manager/src/execute_config_stack.rs:11-41 | each parameter sets its own field, and a pool is entrusted once |
| `AdminMessages.AddValidatorExact` | contracts/stake_manager/src/execute_pool_add_validator.rs:12-41 | a tenth validator is the last, and no validator is added twice |
| `AdminMessages.WithoutExact` | contracts/stake_manager/src/execute_pool_rm_validator.rs:105-119 | removing a validator leaves every other as often as it was there |
| `AdminMessages.RedelegationsExact` | contracts/stake_manager/src/execute_pool_update_validator.rs:55-76 | all that is delegated to the old validator moves to the new one, in one piece |
| `AdminMessages.UpdateValidatorExact` | contracts/stake_manager/src/execute_pool_update_validator.rs:18-119 | the exact guards of a replacement, its new set and its redelegation |
| `AdminMessages.RmValidatorExact` | contracts/stake_manager/src/execute_pool_rm_validator.rs:15-103 | the exact guards of a removal, and the redelegation to the first of the others |
| `AdminMessages.ChangeAnswered` | contracts/stake_manager/src/execute_pool_update_validator.rs:121-148 | what the answers to both make of the set and of its status |
| `AdminMessages.ChangeEnds` | contracts/stake_manager/src/execute_update_validators_icq.rs:11-36 | a change ends when its administrator has updated the queries |
| `AdminMessages.AdminDispatch` | contracts/stake_manager/src/contract.rs:142-264 | every message of an administrator reaches its own handler with its arguments in their places |
| `Flight.SingleFlightKept` | contracts/stake_manager/src/execute_era_update.rs:36-61 | every message keeps the rule that at most one packet of the era or of the administrator is out, in its phase |
| `Flight.PhaseIsPacket` | contracts/stake_manager/src/execute_era_bond.rs:39-42 | a waiting phase is held if and only if exactly one packet of its type is out, and left if and only if none is |
| `Flight.RedelegationBetweenEras` | contracts/stake_manager/src/execute_pool_rm_validator.rs:26-34 | a redelegation is only out between eras |
| `Flight.BondAckFits` | contracts/stake_manager/src/execute_era_bond.rs:338-342 | the subtractions of the bond acknowledgement never underflow |
| `Callbacks.ReplyIdsRepeat` | contracts/stake_manager/src/state.rs:190-200 | two allocations get the same id if and only if whole rings lie between them, so 1,000,001 in a row are distinct |
| `Callbacks.OneCallbackEach` | contracts/stake_manager/src/tx_callback.rs:86-91 | over every run, packets sent under a number are the ones answered under it and the one still out |
| `Callbacks.SubmissionsKept` | contracts/stake_manager/src/state.rs:190-241 | of any 1,000,001 submissions in a row each payload is still stored under its id |
| `LateAnswers.LateAnswerIffOverlap` | contracts/stake_manager/src/execute_era_rebond.rs:24-39 | after any message of an orderly run some continuation has an answer that takes the status back if and only if the message was a restake or a set-up sent while one of its type was out |
| `LateAnswers.RebondAlone` | contracts/stake_manager/src/execute_era_rebond.rs:24-118 | in every reachable world an accepted restake makes that possible if and only if a restake was out |
| `LateAnswers.RetryAlone` | contracts/stake_manager/src/execute_init_pool.rs:46-56 | in every reachable world an accepted set-up makes that possible if and only if a set-up was out |
| `LateAnswers.StatusGoesBackIffOverlap` | contracts/stake_manager/src/tx_callback.rs:73-165 | over every lawful run of a new pool the status could at some point be taken back if and only if such a packet was sent while one of its type was out, and where it was taken back that had happened |
| `LateAnswers.OverlappingRestakes` | contracts/stake_manager/src/execute_era_rebond.rs:93-118 | the first of two restakes is acknowledged, the era is closed, and the failure of the second reopens it with its book already closed |
| `LateAnswers.RestakedAgain` | contracts/stake_manager/src/execute_era_rebond.rs:16-107 | a reopened era accepts the restake of the same amount again, and its acknowledgement |
| `LateAnswers.ClosedTwice` | contracts/stake_manager/src/execute_era_active.rs:77-122 | closing an era twice leaves the active stake above its book value by exactly the first gain |
| `LateAnswers.FinishedEraReopened` | contracts/stake_manager/src/execute_era_rebond.rs:109-118 | a run of a new pool in which a finished era is reopened and closed again: two restakes of ten are acknowledged, twenty are reported, and thirty are booked |
| `LateAnswers.LateSetupFailure` | contracts/stake_manager/src/tx_callback.rs:124-165 | the failure of a set-up packet puts the pool into InitFailed wherever it is, and then no step of an era, liquid-share stake or validator change is accepted |
| `LateAnswers.RunningPoolFails` | contracts/stake_manager/src/execute_init_pool.rs:46-56 | a run of a new pool in which a running pool with a deposit is put into InitFailed |
| `Callbacks.FailedCollectionRestaked` | contracts/stake_manager/src/execute_era_collect_withdraw.rs:52-87 | after a failed collection and an empty one the failed amount is restaked |
| `Callbacks.EmptyCollection` | contracts/stake_manager/src/execute_era_collect_withdraw.rs:52-58 | an empty collection, with or without a query result, leads to no restake if and only if no amount was left from before |
| `Restakes.ExceedIffPassesOver` | contracts/stake_manager/src/execute_era_collect_withdraw.rs:52-87 | while the two sums are even, some continuation restakes more than was collected if and only if the message is an empty collection accepted over an amount left in the snapshot of a pool with validators |
| `Restakes.PassesOverFailed` | contracts/stake_manager/src/execute_era_collect_withdraw.rs:105-114 | what such a collection passes over is the amount of the one that failed in this era |
| `Restakes.RestakesWithinCollections` | contracts/stake_manager/src/execute_era_rebond.rs:16-118 | over every run of a new pool more could at some point be restaked than collected if and only if an empty collection passed over a failed one; otherwise all that was collected has been restaked but for the amount waiting |
| `Callbacks.UpdateAnswered` | contracts/stake_manager/src/execute_pool_update_validator.rs:83-148 | both answers to a validator change leave the set that was sent |
| `Callbacks.AddedMeanwhile` | contracts/stake_manager/src/execute_pool_add_validator.rs:12-41 | a validator added while a change is out is kept if and only if the change fails |
| `Rollbacks.EraUpdateUndone` | contracts/stake_manager/src/execute_era_update.rs:128-147 | a failed era update restores the pool but for the snapshot |
| `Rollbacks.EraBondUndone` | contracts/stake_manager/src/execute_era_bond.rs:347-356 | a failed bond step restores the pool record |
| `Rollbacks.WithdrawUndone` | contracts/stake_manager/src/execute_withdraw.rs:154-176 | a failed withdrawal restores every record and list |
| `Rollbacks.LsmAnswered` | contracts/stake_manager/src/execute_stake_lsm.rs:144-234 | a failed liquid-share stake is paid back in full, a successful one is booked and minted to its staker |
| `LiquidShares.StakeAnswered` | contracts/stake_manager/src/execute_stake_lsm.rs:144-234 | the failure of a well spelled liquid-share stake is always accepted, its success if and only if booking and mint fit 128 bits and there is a rate |
| `LiquidShares.SpelledKept` | contracts/stake_manager/src/execute_stake_lsm.rs:125-132 | every message keeps the payloads of liquid-share stakes well spelled |
| `LiquidShares.RedemptionExact` | contracts/stake_manager/src/execute_redeem_token_for_share.rs:79-98 | counting repetitions, the acknowledgement of a redemption removes exactly its tokens if and only if they are all that is pending of their denominations by then, and nothing beyond them if and only if nothing beyond them is |
| `LiquidShares.RedemptionTakesBoth` | contracts/stake_manager/src/execute_redeem_token_for_share.rs:79-98 | redeeming one of two stakes of a denomination, of equal amounts or not, takes the other off the list as well |
| `ShareLedger.RedemptionBalance` | contracts/stake_manager/src/execute_redeem_token_for_share.rs:79-98 | the acknowledgement of a redemption keeps shares received, pending and redeemed in balance if and only if each of its tokens is alone in its denomination |
| `ShareLedger.MiscountIffClash` | contracts/stake_manager/src/execute_redeem_token_for_share.rs:35-77 | while the shares are in order, a message opens a way to losing or repeating a redemption if and only if it redeems a token that is not alone or already being redeemed, or acknowledges a stake of a denomination being redeemed |
| `ShareLedger.RedeemedTwice` | contracts/stake_manager/src/execute_redeem_token_for_share.rs:35-52 | two redemptions of one denomination out at once lead to a miscount |
| `ShareLedger.SharesBalancedIffNoClash` | contracts/stake_manager/src/execute_stake_lsm.rs:185-206 | over every run of a new pool a miscount was at some point possible if and only if some message clashed; without a clash the shares acknowledged and imported are, with repetitions, those pending and those redeemed |
| `ShareLedger.EqualSharesLost` | contracts/stake_manager/src/execute_redeem_token_for_share.rs:79-98 | a run of a new pool in which two equal stakes are acknowledged, one is redeemed, and none is pending any more |
| `Solvency.UnstakeNeverUnderflows` | contracts/stake_manager/src/execute_unstake.rs:69-80 | a burn within the total never makes the active stake underflow |
| `Solvency.NoRoundTripProfit` | contracts/stake_manager/src/execute_stake.rs:37-49 | staking and unstaking at once returns at least 5 less than was put in |
| `Solvency.RateNeverFalls` | contracts/stake_manager/src/execute_era_active.rs:61-94 | without a loss of delegations the rate does not fall although fees are minted |
| `Solvency.RateMovesWithinLimit` | contracts/stake_manager/src/execute_era_active.rs:96-113 | with a limit set, an accepted era moves the rate by no more than it |
| `Solvency.CorrectionIsRounding` | contracts/stake_manager/src/execute_era_active.rs:116-122 | the first-stake correction applies only without gain and fee and puts back less than 1000 |
| `Solvency.MigrateSolvent` | contracts/stake_manager/src/execute_migrate_pool.rs:110-121 | the rate check makes an imported pool solvent |
| `Solvency.HealthyKept` | contracts/stake_manager/src/execute_unstake.rs:69-89 | every message of every run keeps the pool solvent |
| `Commission.OverchargedRun` | contracts/stake_manager/src/execute_era_active.rs:61-71 | for every platform commission above the whole gain, a run of a new pool with it that ends insolvent |
| `Commission.SafeCommissions` | contracts/stake_manager/src/execute_era_active.rs:61-71 | every run with commissions up to a limit leaves the pool solvent if and only if the limit is at most the whole gain |
| `BookValue.BalancedKept` | contracts/stake_manager/src/execute_era_bond.rs:338-342 | every message keeps active minus its snapshot equal to what came in minus what went out since |
| `BookValue.EraActiveSetsBookTotal` | contracts/stake_manager/src/execute_era_active.rs:77-122 | the end of an era sets the active stake to delegations plus deposits and liquid shares minus withdrawals, within 999 in the first-stake case only |
| `Settlements.AccountedKept` | contracts/stake_manager/src/execute_era_update.rs:52-61 | every message keeps the unbond counter equal to the uncovered unstakes, which are of the last two eras |
| `Withdrawals.PaidUnstakesSettled` | contracts/stake_manager/src/execute_withdraw.rs:44-46 | with a period of two eras or more, an accepted withdrawal names covered unstakes only |
| `Withdrawals.WaitingKept` | contracts/stake_manager/src/execute_era_update.rs:128-147 | while the period is at least two, every uncovered unstake is still there and open |
| `EarlyWithdrawal.PaidTooEarly` | contracts/stake_manager/src/execute_withdraw.rs:44-46 | with a shorter period a reachable pool accepts a withdrawal of an uncovered unstake |
| `EarlyWithdrawal.TwoErasSuffice` | contracts/stake_manager/src/execute_withdraw.rs:44-46 | over all runs, withdrawals name covered unstakes only if and only if the period is at least two |
| `UnstakeLedger.RepeatedIndexRefused` | contracts/stake_manager/src/execute_withdraw.rs:28-57 | a list that names an index twice is refused |
| `UnstakeLedger.WithdrawShape` | contracts/stake_manager/src/execute_withdraw.rs:28-101 | an accepted withdrawal names distinct, open, due records of the sender and pays exactly their sum |
| `UnstakeLedger.PaidExact` | contracts/stake_manager/src/execute_withdraw.rs:105-144 | the success callback removes exactly the records of its packet and their list entries |
| `UnstakeLedger.FailedExact` | contracts/stake_manager/src/execute_withdraw.rs:154-176 | the failure callback reopens exactly the records of its packet |
| `UnstakeLedger.LedgerKept` | contracts/stake_manager/src/execute_unstake.rs:69-124 | every message keeps records, lists and packets in agreement, and paid, pending and open amounts with 5 for each unstake equal to everything unstakes ever added to unbond |
| `UnbondWindow.WatchedKept` | contracts/stake_manager/src/execute_era_bond.rs:261-288 | every message keeps the stored times the recent end of all acknowledgements |
| `UnbondWindow.StampLogged` | contracts/stake_manager/src/execute_era_bond.rs:316-336 | the acknowledgement stores one more time for each validator named, and for no other |
| `Safety.FewRecentUsable` | contracts/stake_manager/src/execute_era_bond.rs:261-288 | over every run a validator of which fewer than seven undelegations were acknowledged within the period is never refused |
| `EraClock.ResetKeepsEra` | contracts/stake_manager/src/execute_config_pool.rs:48-59 | a new era length shows the same era at that instant if and only if the era fits the signed word it is cast to |
| `EraClock.ErasLost` | contracts/stake_manager/src/execute_config_pool.rs:48-59 | a run of a migrated pool in which an accepted change of the era length puts the clock from the first era outside the signed range back to era 0 |
| `EraClock.UnbondingCovered` | contracts/stake_manager/src/execute_config_pool.rs:60-63 | the new unbonding period is the least whose eras but one cover the unbonding time |
| `EraClock.ResetAccepted` | contracts/stake_manager/src/execute_config_pool.rs:41-59 | a new era length is accepted if and only if it is between eight hours and a day and the new offset fits its signed word |
| `EraClock.ConfigOnTime` | contracts/stake_manager/src/execute_config_pool.rs:41-64 | on a clock that is on time every reconfiguration keeps the era and covers the unbonding time |
| `EraClock.InitOnTime` | contracts/stake_manager/src/execute_init_pool.rs:96-101 | a new pool starts in era 0 by its own clock |
| `EraClock.ClockKept` | contracts/stake_manager/src/execute_era_update.rs:41-53 | every message keeps the computed era exact and not below what it was, and the pool's era not past it |
| `Safety.EveryRunSafe` | contracts/stake_manager/src/contract.rs:142-264 | after every run all these invariants hold together |
| `Safety.CallbacksAccepted` | contracts/stake_manager/src/tx_callback.rs:73-165 | whatever packet is out, an answer to it is accepted unless it is the success of a liquid-share stake that cannot be booked, and then it is not |
| `Safety.CounterOfNewPool` | contracts/stake_manager/src/execute_unstake.rs:69-89 | for every run without migration and with a period of at least two, unbond is the amounts of the uncovered records and 5 for each |
| `Safety.EighthWaits` | contracts/stake_manager/src/execute_era_bond.rs:261-336 | over every run a validator's times are sorted and at most seven, and the eighth of any eight undelegations is submitted more than the period after the first was acknowledged |
| `Safety.EraNeverAhead` | contracts/stake_manager/src/execute_era_update.rs:41-53 | over every run the computed era is at most the block time and at least the pool's era |
| `Safety.EraNeverFalls` | contracts/stake_manager/src/execute_config_pool.rs:48-59 | over every run the computed era never goes down |
| `Funding.FundedKept` | contracts/stake_manager/src/execute_era_bond.rs:338-342 | every message keeps transfers, undelegations and the unbond counter equal to delegations, issued unstakes, imports and the deposits in transit |
| `Funding.FundsExact` | contracts/stake_manager/src/execute_withdraw.rs:59-96 | over every run with a period of at least two, what transfers and bond steps have left on the remote account is what was paid, is being paid and is owed to covered unstakes, 5 for each, what a migration brought, and deposits in transit |
| `Funding.PayoutsFunded` | contracts/stake_manager/src/execute_withdraw.rs:59-96 | over every such run, payouts made and under way never exceed what transfers and bond steps have left there |
| `LsdToken.LsdToken.Instantiate` | contracts/lsd_token/src/contract.rs:92-126 | the initial accounts, the cap check and the minter |
| `LsdToken.LsdToken.CreateAll` | contracts/lsd_token/src/contract.rs:157-171 | the initial balances and their sum |
| `LsdToken.LsdToken.ValidateAccounts` | contracts/lsd_token/src/contract.rs:173-183 | true if and only if no address occurs twice |
| `LsdToken.LsdToken.Transfer` | contracts/lsd_token/src/contract.rs:241-269 | a transfer |
| `LsdToken.LsdToken.Burn` | contracts/lsd_token/src/contract.rs:271-296 | a burn |
| `LsdToken.LsdToken.MintTo` | contracts/lsd_token/src/contract.rs:298-341 | a mint, with the minter check and the cap |
| `LsdToken.LsdToken.SendTokens` | contracts/lsd_token/src/contract.rs:343-381 | a transfer to a contract |
| `LsdToken.LsdToken.AddMinter` | contracts/lsd_token/src/contract.rs:383-407 | a minter is added by the administrator |
| `LsdToken.LsdToken.RemoveMinter` | contracts/lsd_token/src/contract.rs:409-430 | a minter is removed by the administrator |
| `LsdToken.LsdToken.TransferAdmin` | contracts/lsd_token/src/contract.rs:432-456 | the administrator hands over |
| `LsdToken.LsdToken.IncreaseAllowance` | contracts/lsd_token/src/allowances.rs:10-44 | the same update on both tables |
| `LsdToken.LsdToken.DecreaseAllowance` | contracts/lsd_token/src/allowances.rs:46-93 | a lower allowance in both tables, or its removal from both |
| `LsdToken.LsdToken.DeductAllowance` | contracts/lsd_token/src/allowances.rs:96-122 | an allowance is spent in both tables |
| `LsdToken.LsdToken.TransferFrom` | contracts/lsd_token/src/allowances.rs:124-159 | a transfer by the spender |
| `LsdToken.LsdToken.BurnFrom` | contracts/lsd_token/src/allowances.rs:161-195 | a burn by the spender |
| `LsdToken.LsdToken.RebuildIndex` | contracts/lsd_token/src/contract.rs:634-642 | the migration writes every allowance into the index, in whatever order |
| `LsdToken.LsdToken.MigrateIndex` | contracts/lsd_token/src/contract.rs:634-642 | the migration changes the index only, and its loop, in whatever order, writes exactly the allowances over it |
| `Token.MoveExact` | contracts/lsd_token/src/contract.rs:250-261 | a move is accepted if and only if the sender has the amount, moves nothing else and keeps the sum, also to itself |
| `Token.BurnExact` | contracts/lsd_token/src/contract.rs:278-290 | a burn is accepted if and only if the account has the amount |
| `Token.MintExact` | contracts/lsd_token/src/contract.rs:305-334 | a mint is accepted if and only if a minter stays within 128 bits and the cap: the credit never overflows |
| `Token.InstantiateConserved` | contracts/lsd_token/src/contract.rs:99-106 | a new token's balances add up to its supply, within the cap |
| `Token.DeductTransposed` | contracts/lsd_token/src/allowances.rs:96-122 | spending an allowance succeeds in both tables or in neither |
| `Token.RebuildTransposes` | contracts/lsd_token/src/contract.rs:634-642 | the migrated index is right if and only if it held nothing but allowances before |
| `Token.MigrationSettled` | contracts/lsd_token/src/contract.rs:634-642 | on an index that is right the migration changes nothing |
| `Token.EveryTokenRun` | contracts/lsd_token/src/contract.rs:186-239 | after every run of a newly created token, migrations included, the balances add up to the supply, within the cap, and the index is the transpose |
| `TokenMessages.InstantiateExact` | contracts/lsd_token/src/contract.rs:92-183 | a token is created if and only if its accounts are distinct and their sum is within the width and the cap; each has its amount, nobody else has anything, and nothing is granted |
| `TokenMessages.TransferExact` | contracts/lsd_token/src/contract.rs:241-269 | a transfer is accepted if and only if the balance covers it, and moves it from sender to recipient only |
| `TokenMessages.BurnMessageExact` | contracts/lsd_token/src/contract.rs:271-296 | a burn takes the amount from the sender and from the supply only |
| `TokenMessages.MintMessageExact` | contracts/lsd_token/src/contract.rs:298-341 | a mint gives the amount to the recipient and to the supply only |
| `TokenMessages.MintersExact` | contracts/lsd_token/src/contract.rs:383-456 | only the administrator adds, removes and hands over, and each changes only that |
| `TokenMessages.IncreaseExact` | contracts/lsd_token/src/allowances.rs:10-44 | exactly when an allowance is raised, by how much, and until when it holds then |
| `TokenMessages.DecreaseExact` | contracts/lsd_token/src/allowances.rs:46-93 | exactly when an allowance is lowered or removed, by how much, and until when it holds then |
| `TokenMessages.TransferFromExact` | contracts/lsd_token/src/allowances.rs:124-159 | a spender moves tokens if and only if a live allowance and the balance cover them; the allowance is less by the amount, holds as long as before, and no other changes |
| `TokenMessages.BurnFromExact` | contracts/lsd_token/src/allowances.rs:161-195 | a spender burns tokens under the same condition, at the same cost |
| `TokenMessages.MovedWithinGranted` | contracts/lsd_token/src/allowances.rs:96-122 | over every run of a new token what a spender moved and what was taken back is within what was granted, and the rest is the allowance |
| `PoolToken.MessageCounts` | contracts/stake_manager/src/execute_era_active.rs:84-161 | every message of the pool changes its count by exactly what its token messages mint and burn |
| `PoolToken.AgreementRun` | contracts/stake_manager/src/execute_stake.rs:37-49 | over any interleaving the count and the supply differ only by what others minted and burned and by what was imported |
| `PoolToken.SupplyBacked` | contracts/stake_manager/src/execute_unstake.rs:41-89 | while the pool is the only minter, the difference is what others burned, and every existing token is backed at the rate |
| `Escrow.AmountRoundTrip` | contracts/cw20-ics20/src/amount.rs:16-46 | an amount survives its encoding if and only if it is not a native coin called like a token |
| `Escrow.VoucherRoundTrip` | contracts/cw20-ics20/src/ibc.rs:214-235 | a name parses to a denomination if and only if it is its voucher from that end |
| `Escrow.UndoRestores` | contracts/cw20-ics20/src/state.rs:74-110 | undoing a reduction restores the balances |
| `Escrow.LossyReceipt` | contracts/cw20-ics20/src/ibc.rs:194-261 | a receipt answered with an error has changed a balance if and only if the amount was there and the token is not permitted |
| `Escrow.ErrorAckNeutral` | contracts/cw20-ics20/src/ibc.rs:90-117 | while every balance is permitted, an error acknowledgement changes no balance |
| `Escrow.AllowMonotone` | contracts/cw20-ics20/src/contract.rs:179-191 | permissions are never withdrawn and gas limits never lowered |
| `Escrow.MigrateMonotone` | contracts/cw20-ics20/src/contract.rs:255-260 | a migration withdraws no permission |
| `EscrowMessages.TransferExact` | contracts/cw20-ics20/src/contract.rs:97-163 | a transfer is accepted if and only if every guard holds; its packet says what was sent, by whom and to whom, and both counters of its line grow |
| `EscrowMessages.AllowExact` | contracts/cw20-ics20/src/contract.rs:167-204 | a token is allowed if and only if the administrator does not lower its limit, and no other entry changes |
| `EscrowMessages.UndoExact` | contracts/cw20-ics20/src/state.rs:98-110 | undoing a reduction gives the outstanding amount back and leaves the total |
| `EscrowMessages.SettingsExact` | contracts/cw20-ics20/src/contract.rs:73-76 | the administrator is replaced by the administrator only, and a migration sets the default limit only |
| `EscrowMessages.LastEntryCounts` | contracts/cw20-ics20/src/contract.rs:33-54 | of several first entries for one token the last one counts |
| `EscrowMessages.NoOtherEntry` | contracts/cw20-ics20/src/contract.rs:33-54 | a token without an entry is not allowed |
| `EscrowMessages.GasExact` | contracts/cw20-ics20/src/ibc.rs:279-295 | a payout runs with the limit of its token or else with the default one |
| `EscrowMessages.ReceiveExact` | contracts/cw20-ics20/src/ibc.rs:90-277 | a packet succeeds if and only if its token is of this chain, permitted and there, and its payout goes through, to the receiver it names |
| `EscrowMessages.FailureExact` | contracts/cw20-ics20/src/ibc.rs:344-372 | a failure is undone if and only if the amount is on the line and permitted, and pays the sender of the packet |
| `Cw20Ics20.Cw20Ics20.IncreaseChannelBalance` | contracts/cw20-ics20/src/state.rs:59-72 | the balance and the total grow |
| `Cw20Ics20.Cw20Ics20.ReduceChannelBalance` | contracts/cw20-ics20/src/state.rs:74-94 | the balance shrinks, or there are insufficient funds |
| `Cw20Ics20.Cw20Ics20.UndoReduceChannelBalance` | contracts/cw20-ics20/src/state.rs:98-110 | the balance grows again, the total does not |
| `Cw20Ics20.Cw20Ics20.Transfer` | contracts/cw20-ics20/src/contract.rs:97-163 | the guards, the optimistic increase and the packet |
| `Cw20Ics20.Cw20Ics20.Allow` | contracts/cw20-ics20/src/contract.rs:167-204 | a token is allowed or its limit raised |
| `Cw20Ics20.Cw20Ics20.UpdateAdmin` | contracts/cw20-ics20/src/contract.rs:73-76 | the administrator hands over |
| `Cw20Ics20.Cw20Ics20.CheckGasLimit` | contracts/cw20-ics20/src/ibc.rs:279-295 | the limit of a payout, or that it is not permitted |
| `Cw20Ics20.Cw20Ics20.DoReceive` | contracts/cw20-ics20/src/ibc.rs:238-277 | parse, reduce, remember for the reply, check the limit |
| `Cw20Ics20.Cw20Ics20.Receive` | contracts/cw20-ics20/src/ibc.rs:90-210 | the answer and the state after the receipt and its reply |
| `Cw20Ics20.Cw20Ics20.OnPacketFailure` | contracts/cw20-ics20/src/ibc.rs:344-372 | the balance is reduced and the sender refunded |
| `EscrowRuns.EveryRunConserved` | contracts/cw20-ics20/src/contract.rs:142-145 | after every run of a new contract, on the honest channels outstanding per channel and denomination equals packets under way, vouchers, and returns under way, and holdings cover all channels together, whatever arrives on the others |
| `EscrowRuns.RefundOwed` | contracts/cw20-ics20/src/ibc.rs:344-372 | over every run the refund of an unfinished packet pays exactly what was sent to whoever sent it |
| `EscrowRuns.AnyTouchesItsChannel` | contracts/cw20-ics20/src/ibc.rs:238-277 | a packet nobody sent changes no line of another channel |
| `EscrowRuns.AnyCovered` | contracts/cw20-ics20/src/state.rs:74-94 | a packet nobody sent leaves the holdings covering all channels |
| `EscrowRuns.RefundAccepted` | contracts/cw20-ics20/src/ibc.rs:344-372 | after every run a refund over an honest channel is never refused and there is enough to pay what it names |
| `EscrowRuns.ReturnAccepted` | contracts/cw20-ics20/src/ibc.rs:238-277 | after every run a return over an honest channel is answered with success if and only if its payout goes through and its line has been used, which can fail for a return of nothing only |
| `EscrowRuns.ReturnCovered` | contracts/cw20-ics20/src/state.rs:74-94 | after every run what is returned over an honest channel is outstanding and held |
| `EscrowRuns.VouchersLocked` | contracts/cw20-ics20/src/state.rs:59-94 | what exists on the other side is locked here |

## Left out

- PoolToken.SupplyBacked: a migrated pool counts liquid tokens that its new token contract does not have; they appear as imported.
- Funding.FundsExact: counts what transfers and bond steps move; restakes (see `Restakes`), direct delegations and losses of the remote account are not part of it.
- One pool is modelled, so the pool address in storage keys and the check that a record belongs to the pool are not.
- The pool record's fields are grouped into sub-records; fields that name accounts, channels and denominations of the set-up are not modelled.
- Storage writes inside a message are local values until it succeeds, which is the chain's rollback.
- StakeManager.InitPool: the check of the funds sent for packet fees is not modelled; it guards the message and changes no state.
- StakeManager.Execute: registration and the opening of channels are not messages of the model, as they act before there is a pool record or on none of its fields.
- Funds and fee checks, the denomination trace of liquid shares, address validation, memo and timeout of transfers: guards or plain data without state.
- The registration of pools by the stack's administrator.
- Registration of interchain accounts, their queries and instantiation of the token: the answer of a query is an input with its height.
- The encoding of packets; a transaction is the list of its amounts, and the reward withdrawals of a bond step are a set because their order is not fixed.
- Opening channels and changing query periods: no stored state of the pool changes.
- The floating-point ceiling of the unbonding period is an integer ceiling, which agrees for the era lengths allowed.
- Wall-clock guarantees on unbonding beyond the spacing per validator; eras may be caught up quickly.
- `contracts/bridge`, marketing and logo data, pagination, the version migrations of the escrow, and closing a channel.
- The liveness of the keeper and of the relayers.
