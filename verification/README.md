# iogrid: verified models of the token programs, the tunnel multiplexer and the client protocols

Dafny models of the parts of the repository in which money, interleavings or wire formats can go
wrong, with proofs of what those parts promise. `dafny verify dfyconfig.toml` checks everything.

| Files | Models |
|---|---|
| `Integers`, `MapSum` | Rust integer widths, casts and saturation written out; sums over maps |
| `TokenLedger` | one Token-2022 mint: supply, a single mint authority, balances only their owner can spend |
| `HalvingCurve` | the emission curve, second by second and as the program's slice loop |
| `Emission`, `GridToken`, `SupplyInstructions`, `SupplyRun`, `HardCap` | epochs against the curve, the capped admin mint, what each instruction pays, whole runs of both over the ledger, and when the hard cap holds |
| `VestingSchedule`, `Vesting`, `VestingPayments`, `VestingRun`, `VestingVault` | the four vesting tiers, one provider's deposits, what each instruction pays, whole runs, and runs whose callers fund the vault |
| `Staking`, `StakingInstructions`, `StakingRun`, `StakingYield`, `StakingRewards` | positions, discount vouchers and keeper yield of one pool, what each instruction does, whole runs, and the rewards minted in them |
| `Tunnels`, `TunnelStreams`, `TunnelDelivery` | the TCP-over-dispatch multiplexer as interleaved atomic steps of a receiver and any number of pumps, its stream by attempt id, and what reaches each socket |
| `SseText`, `SseDecoders`, `SseAgreement`, `SseRoundTrip` | the TypeScript chunk-buffer decoder and the Go line decoder of event streams (WHATWG HTML Living Standard, sections 9.2.5 and 9.2.6) |
| `TunnelRoutes`, `TunnelTraffic`, `TunnelOutcomes` | the Linux route override of the VPN SDK, longest-prefix lookup of every IPv4 address, and what a failed override leaves behind |
| `Failover` | the strike counter of the VPN SDK |
| `AntiAbuse`, `AntiAbuseRules`, `AntiAbuseRun`, `DestinationHosts` | the daemon's blocklist pipeline, what a ruleset blocks, its rate limiter, and the host its rules see in a destination |
| `Socks5`, `Socks5Grammar` | the SOCKS5 client handshake and the grammar of RFC 1928 sections 3 to 6 and RFC 1929 section 2 |

Each component has two layers. A class has the source's fields, and its methods do what the source's
functions do, statement by statement; their contracts give the whole new state, on success and on every
error, as a specification function of the old state. The theorems are lemmas about those specification
functions and about whole runs of them: actions by anybody, in any order, with a clock where there is one.
On chain a failed instruction changes nothing, including the token transfers it had already made; a
`Ledger.Revert` stands for that.

## Where code and documentation disagree

The models follow the code.

- The halving curve pays out 193,882,705,479,452,052 raw units in all (about 193.9M $GRID), not the
  "~485M" of contracts/programs/emission/src/lib.rs:14.
- The documented mint authority of emission, `emission-mint-authority`
  (contracts/programs/emission/src/lib.rs:29), is not the PDA that signs; the vault authority is.
- A mint has one authority, so emission epochs and staking rewards exclude each other
  (`SupplyRun.EpochsAndYieldExclude`).
- After `lock_authorities` a user who still holds the mint authority can go on minting
  (`SupplyRun.LockStopsUsersExactly`), although contracts/programs/grid-token/src/lib.rs:197-199 says
  that only programs can.
- `claim_epoch` does not compare windows. After the hand-over the hard cap holds exactly when the supply and the
  budgets of the windows claimed are within it (`HardCap.CapHoldsExactly`): always when they do not overlap after an
  allocation that leaves room for one curve (`HardCap.HardCapHolds`), not when they do
  (`HardCap.OverlappingWindowsPassTheCap`).
- The `as u32` casts of the curve wrap 2^32 halving periods after TGE (`HalvingCurve.Wraps`); the budget
  is then `u64::MAX`.
- `early_unlock` ignores what was withdrawn, and its 365-day cooldown is shorter than two of the four
  schedules: a deposit that was unlocked early is unlocked early again and paid exactly if the cooldown has run, its
  schedule has not ended and the vault can bear it (`VestingRun.RepeatUnlockExactly`; a run that does it:
  `VestingRun.SecondUnlockPays`).
- Both event-stream clients drop every leading space of a data line, where the standard drops one.
- The two event-stream clients disagree on carriage returns and on white space other than spaces; exactly when:
  `SseAgreement.DecodersAgreeExactly`.
- The rate limiter's comment says "sliding"; the window tumbles, and keeps what a sliding one promises exactly for a
  cap of one (`AntiAbuseRun.SlidingExactly`).
- `host_of` does not end the host at '?' or '#', takes an IPv6 address up to its first colon, and follows an '@' in
  the path; exactly when it sees the host: `DestinationHosts.HostOfUrl`, `HostOfBare` and `HostOfDialled`.
- The comment on `ResetExceptionHosts` says that teardown calls it; nothing does, and teardown leaves the
  pinned host routes behind.
- The SOCKS5 client sends an empty user name or password, which RFC 1929 does not allow.

## Model

| member | source | states |
|---|---|---|
| TokenLedger.TransferConserves | contracts/programs/staking/src/lib.rs:75-85 | a token transfer moves exactly its amount, needs the owner's signature, and keeps supply equal to the sum of balances |
| TokenLedger.MintToConserves | contracts/programs/emission/src/lib.rs:106-123 | a mint needs the one mint authority, credits one account and raises the supply by exactly its amount |
| HalvingCurve.AnnualEmissionMeetsCurve | contracts/programs/emission/src/lib.rs:218-228 | the annual rate is the documented halved rate exactly when the u32 cast does not wrap, which it never does within 2^32 periods of TGE |
| HalvingCurve.BudgetForWindow | contracts/programs/emission/src/lib.rs:232-236 | for every i64 input the loop returns the closed-form budget, aborts exactly where i64 arithmetic overflows, and saturates exactly where the cast wraps |
| HalvingCurve.SumSlices | contracts/programs/emission/src/lib.rs:237-257 | the slice loop terminates, computes the recursive slice sum with every cast, clamp and saturation, and turns at most five times, six when the start wraps |
| HalvingCurve.LoopMeetsBudget | contracts/programs/emission/src/lib.rs:237-257 | the recursive slice sum is the closed-form budget |
| HalvingCurve.TurnsBounded | contracts/programs/emission/src/lib.rs:239-255 | the turns that `HalvingCurve.SumSlices` counts: one per halving period still ahead of the start, and one more only when the start wraps |
| HalvingCurve.CurveRefinesIntegral | contracts/programs/emission/src/lib.rs:230-257 | the budget is the second-by-second sum of the rate over a year, rounded down by less than 5 raw units |
| HalvingCurve.BudgetMeetsCurve | contracts/programs/emission/src/lib.rs:230-257 | what the function returns is within 5 units of the second-by-second sum exactly when the start does not wrap |
| HalvingCurve.BudgetInRange | contracts/programs/emission/src/lib.rs:232-257 | within the practical range no cast, clamp, saturation or overflow has any effect |
| HalvingCurve.SplitWindow | contracts/programs/emission/src/lib.rs:232-257 | cutting a window in two never gains and loses at most one raw unit |
| HalvingCurve.PartitionWindow | contracts/programs/emission/src/lib.rs:232-257 | cutting a window into n epochs never gains and loses at most n - 1 raw units |
| HalvingCurve.CurveBounded | contracts/programs/emission/src/lib.rs:38-46 | no window pays more than the lifetime total of 193,882,705,479,452,052 raw units |
| Emission.EmissionConfig.ClaimEpoch | contracts/programs/emission/src/lib.rs:80-148 | an epoch is claimed, minted and recorded, or nothing changes and the first failing check is reported |
| Emission.EmissionConfig.DistributeTo | contracts/programs/emission/src/lib.rs:153-198 | a distribution pays from the vault and counts against its epoch's reward, or nothing changes |
| Emission.EmissionConfig.FinalizeEpoch | contracts/programs/emission/src/lib.rs:201-211 | an epoch is closed once |
| GridToken.GridConfig.MintToRecipientAccount | contracts/programs/grid-token/src/lib.rs:89-115 | an admin mint counts against the hard cap, or nothing changes |
| GridToken.GridConfig.HandOver | contracts/programs/grid-token/src/lib.rs:120-145 | the mint authority moves only by the admin and only before the lock |
| GridToken.GridConfig.Lock | contracts/programs/grid-token/src/lib.rs:200-206 | the lock can be set once, by the admin |
| SupplyInstructions.DistributeExactly | contracts/programs/emission/src/lib.rs:153-198 | in every state that runs keep, a distribution is accepted exactly for the billing signer, an open epoch and an amount that is left of its reward; it takes exactly that from the vault to the recipient, and touches no other balance and no other epoch |
| SupplyInstructions.RecipientsGotIt | contracts/programs/emission/src/lib.rs:153-198 | over every run whose distributions go outside the vault, what each epoch says it distributed is what its recipients gained on the ledger |
| SupplyInstructions.RemainderIsCovered | contracts/programs/emission/src/lib.rs:168-176 | no epoch's undistributed part is more than what the vault is kept to hold |
| SupplyInstructions.ClaimExactly | contracts/programs/emission/src/lib.rs:80-148 | a claim succeeds exactly for the billing signer, a past window, the next number, a reward within the budget, the mint authority in place and room in both u64 totals; the reward goes to the vault alone and earlier epochs stay as they are |
| SupplyInstructions.FinalizeExactly | contracts/programs/emission/src/lib.rs:201-211 | an epoch is closed by the billing signer exactly if it was open, and closing changes nothing else |
| SupplyInstructions.AdminMintExactly | contracts/programs/grid-token/src/lib.rs:89-115 | an admin mint succeeds exactly for the admin holding the mint authority, before the lock, within the cap; the recipient is credited and the cap's counter grows by the same |
| SupplyInstructions.HandOverExactly | contracts/programs/grid-token/src/lib.rs:120-145 | the mint authority becomes the key named, exactly for the admin holding it before the lock, and no token moves |
| SupplyInstructions.LockExactly | contracts/programs/grid-token/src/lib.rs:200-206 | the admin sets the lock exactly once, and after it every instruction of the program is refused, whoever signs |
| SupplyInstructions.ClaimErrors | contracts/programs/emission/src/lib.rs:80-148 | which error a refused claim reports, a window in the future and a foreign signer among them |
| SupplyInstructions.DistributeErrors | contracts/programs/emission/src/lib.rs:153-198 | which error a refused distribution reports; it is never that the vault is short |
| SupplyInstructions.FinalizeErrors | contracts/programs/emission/src/lib.rs:201-211 | which error a refused closing reports |
| SupplyInstructions.GridErrors | contracts/programs/grid-token/src/lib.rs:89-206 | which error each grid-token instruction reports |
| SupplyRun.StepKeepsBooks | contracts/programs/emission/src/lib.rs:80-211 | every instruction by anybody keeps the books: minted total is the sum of claimed rewards, every reward is within its window's budget, no epoch pays more than its reward, and the vault covers every undistributed remainder |
| SupplyRun.RunKeepsBooks | contracts/programs/emission/src/lib.rs:80-211 | the books hold after every run |
| SupplyRun.FinalizedStaysClosed | contracts/programs/emission/src/lib.rs:200-211 | no run after finalization pays from the epoch, changes it or finalizes it again |
| SupplyRun.RunAfterHandOver | contracts/programs/grid-token/src/lib.rs:117-145 | once emission holds the mint authority it keeps it, and supply grows by no more than the claimed rewards |
| SupplyRun.SupplyIsAccountedFor | contracts/programs/grid-token/src/lib.rs:89-145 | before the hand-over, supply is at most what was minted under the cap or claimed |
| HardCap.SupplyWithinBudgets | contracts/programs/emission/src/lib.rs:80-148 | after the hand-over no run adds more to the supply than the budgets of the windows it claims |
| HardCap.CapHoldsExactly | contracts/programs/emission/src/lib.rs:88-123 | claiming given windows, for whatever rewards and whatever else happens, keeps the supply within 1B $GRID exactly if supply plus their budgets, as far as the u64 minted total has room for them, is within it |
| HardCap.RewardsWithinCurve | contracts/programs/emission/src/lib.rs:80-148 | epochs with ordered windows share one lifetime of the curve |
| HardCap.HardCapHolds | contracts/programs/grid-token/src/lib.rs:31-31 | allocation up to the cap less the lifetime budget, hand-over, then any run whose claimed windows do not overlap: supply never passes 1B $GRID |
| HardCap.OverlappingWindowsPassTheCap | contracts/programs/emission/src/lib.rs:88-104 | without that hypothesis the cap fails: from genesis, allocate, hand over and claim the same full window twice |
| SupplyRun.LockIsFinal | contracts/programs/grid-token/src/lib.rs:197-206 | after the lock no run changes the capped counter or the lock |
| SupplyRun.LockStopsUsersExactly | contracts/programs/grid-token/src/lib.rs:197-206 | after the lock no user can mint exactly if the mint authority is not a user's |
| VestingSchedule.VestedAmount | contracts/programs/vesting/src/lib.rs:306-318 | the computed amount is the schedule's for every deposit, time and tier |
| VestingSchedule.VestedWithin | contracts/programs/vesting/src/lib.rs:298-318 | never more than the deposit vests, all of it exactly from the end of the schedule on, and the cast to u64 never bites |
| VestingSchedule.VestedMonotone | contracts/programs/vesting/src/lib.rs:298-318 | what has vested never shrinks |
| VestingSchedule.DocumentedDays | contracts/programs/vesting/src/lib.rs:14-18 | each tier vests nothing before its documented cliff, half of the deposit midway through its linear part, and all of it from the documented end |
| VestingSchedule.UpgradeVestsSlower | contracts/programs/vesting/src/lib.rs:67-82 | the guard accepts exactly the tiers under which every deposit vests pointwise no faster |
| Vesting.ProviderVesting.Upgrade | contracts/programs/vesting/src/lib.rs:68-82 | the tier changes only by the provider and only to one that locks at least as long |
| Vesting.ProviderVesting.Record | contracts/programs/vesting/src/lib.rs:89-119 | a deposit is recorded under the present tier and time without looking at the vault |
| Vesting.ProviderVesting.Withdraw | contracts/programs/vesting/src/lib.rs:122-166 | the newly vested part is paid and recorded, or nothing changes |
| Vesting.ProviderVesting.UnlockEarly | contracts/programs/vesting/src/lib.rs:170-251 | half of the locked part is burned, the rest paid and the deposit consumed, or nothing changes |
| Vesting.ProviderVesting.CheckUnlock | contracts/programs/vesting/src/lib.rs:170-186 | signer, deposit, cooldown and a positive locked part are checked in that order |
| VestingPayments.UnlockPays | contracts/programs/vesting/src/lib.rs:170-251 | in every reachable state an early unlock succeeds exactly for the provider, after the cooldown, with something still locked that vault and totals can bear; the recipient gains the locked part less half, supply falls by that half, the vault loses the whole, and no other balance or deposit changes |
| VestingPayments.WithdrawPays | contracts/programs/vesting/src/lib.rs:122-166 | a withdrawal succeeds exactly for the provider with something due that vault and total can bear; it goes from the vault to the recipient, and no other balance or deposit changes |
| VestingPayments.RecipientsGotIt | contracts/programs/vesting/src/lib.rs:122-251 | over every run whose payouts go outside the vault, the withdrawn and burned totals are what recipients gained and what the supply lost |
| VestingPayments.RecordExactly | contracts/programs/vesting/src/lib.rs:89-119 | a deposit is appended unwithdrawn, under the present tier and time, exactly if the count and the total have room |
| VestingPayments.UpgradeExactly | contracts/programs/vesting/src/lib.rs:68-82 | the tier changes exactly for the provider and to a tier under which no deposit vests faster at any age |
| VestingPayments.PayoutErrors | contracts/programs/vesting/src/lib.rs:122-251 | which error a refused withdrawal or early unlock reports, a foreign signer first |
| VestingPayments.AccountErrors | contracts/programs/vesting/src/lib.rs:68-119 | which error a refused tier change or record reports |
| VestingRun.WithdrawCatchesUp | contracts/programs/vesting/src/lib.rs:122-166 | in any run a successful withdrawal brings the total paid for the deposit up to exactly what has vested |
| VestingRun.Conservation | contracts/programs/vesting/src/lib.rs:89-251 | in every run deposited equals withdrawn plus burned plus unpaid plus what early unlocks left behind, exactly when no deposit was unlocked early twice |
| VestingRun.ShortTiersUnlockOnce | contracts/programs/vesting/src/lib.rs:170-186 | no run unlocks a Standard or Loyalty deposit early twice |
| VestingRun.UnlockChecksExactly | contracts/programs/vesting/src/lib.rs:170-186 | in every reachable state the checks of an early unlock pass exactly when the cooldown has run, the deposit is not empty and its schedule has not ended, whether it was unlocked before or not |
| VestingRun.UnlockExactly | contracts/programs/vesting/src/lib.rs:170-251 | an early unlock succeeds exactly when its checks pass and the vault and the two checked totals can bear it |
| VestingRun.RepeatUnlockExactly | contracts/programs/vesting/src/lib.rs:170-251 | a deposit already unlocked early is unlocked early once more exactly when cooldown, schedule, vault and totals allow it |
| VestingRun.SecondUnlockPays | contracts/programs/vesting/src/lib.rs:170-251 | under Conviction and Maximum the run record, unlock, one cooldown, unlock pays the same deposit twice |
| VestingRun.NoWithdrawAfterUnlock | contracts/programs/vesting/src/lib.rs:232-241 | after an early unlock no withdrawal of that deposit succeeds, whatever run follows, whoever asks and whenever |
| VestingRun.DepositTermsNeverChange | contracts/programs/vesting/src/lib.rs:100-107 | no run changes the amount, start or tier of a recorded deposit |
| VestingVault.WithdrawExactly | contracts/programs/vesting/src/lib.rs:122-166 | with a covered vault the provider's withdrawal pays exactly the vested part not yet withdrawn, and is refused exactly when that is nothing |
| VestingVault.CarefulUnlockExactly | contracts/programs/vesting/src/lib.rs:170-251 | with a covered vault an early unlock of a deposit not used up is refused only by its own checks |
| VestingVault.VaultNeverShort | contracts/programs/vesting/src/lib.rs:84-251 | if the vault is funded before each record and no used-up deposit is unlocked again, the vault covers what is owed in every run, withdrawals succeed exactly when something is due and early unlocks exactly when their checks pass: no transfer, burn or checked sum fails |
| VestingVault.WithdrawalsTelescope | contracts/programs/vesting/src/lib.rs:122-166 | in every such run the withdraw instructions have paid, for a deposit not unlocked early, exactly what had vested at the latest attempt, and the full amount after the end |
| Staking.StakingPool.OpenPosition | contracts/programs/staking/src/lib.rs:58-109 | one position per owner is opened and counted by kind, or nothing changes |
| Staking.StakingPool.ClosePosition | contracts/programs/staking/src/lib.rs:325-377 | a matured position is paid back and closed, or nothing changes |
| Staking.StakingPool.OpenVoucher | contracts/programs/staking/src/lib.rs:210-279 | a voucher locks tokens for at least 30 days, or nothing changes |
| Staking.StakingPool.CloseVoucher | contracts/programs/staking/src/lib.rs:284-322 | a voucher past its lock is paid back and closed, or nothing changes |
| Staking.StakingPool.AccrueYield | contracts/programs/staking/src/lib.rs:113-131 | yield is added with its u128 check and u64 cast, or nothing changes |
| Staking.StakingPool.Claim | contracts/programs/staking/src/lib.rs:134-165 | the unclaimed yield is minted and reset, or nothing changes |
| StakingInstructions.StakeExactly | contracts/programs/staking/src/lib.rs:58-109 | a stake is accepted exactly from the wallet's owner, without a position, for an amount that is there; the position begins with no yield, so that a claim at once finds nothing |
| StakingInstructions.UnstakeExactly | contracts/programs/staking/src/lib.rs:325-377 | a position is closed exactly from 30 days on, and its whole amount goes from the vault to the account named |
| StakingInstructions.LockExactly | contracts/programs/staking/src/lib.rs:210-279 | a voucher is opened exactly for an unused key, tokens that are there and a lock of at least 30 days that fits the clock, and lasts until the end chosen |
| StakingInstructions.RedeemExactly | contracts/programs/staking/src/lib.rs:284-322 | a voucher is closed exactly from its end on, and its whole amount goes from the vault to the account named |
| StakingInstructions.ClaimExactly | contracts/programs/staking/src/lib.rs:134-165 | a claim succeeds exactly with unclaimed yield, the mint authority in place and room in the supply; it mints that yield to the account named and a second claim finds nothing |
| StakingInstructions.AccrueExactly | contracts/programs/staking/src/lib.rs:113-131 | an accrual touches only the position named, never lowers its yield and marks it as accrued now |
| StakingInstructions.StakeErrors | contracts/programs/staking/src/lib.rs:58-109 | which error a refused stake or unstake reports |
| StakingInstructions.YieldErrors | contracts/programs/staking/src/lib.rs:113-165 | which error a refused accrual or claim reports |
| StakingInstructions.VoucherErrors | contracts/programs/staking/src/lib.rs:210-322 | which error a refused lock or redemption reports |
| StakingRun.StepKeepsInv | contracts/programs/staking/src/lib.rs:58-377 | every action keeps: the vault is the two totals plus other gifts, the totals are the sums over live accounts, every payout was locked 30 days |
| StakingRun.VaultHoldsStakes | contracts/programs/staking/src/lib.rs:58-377 | in every interleaving the vault holds the two totals, which are what live positions and vouchers hold, plus what was sent to it otherwise |
| StakingRun.MaturedHoldersArePaid | contracts/programs/staking/src/lib.rs:284-377 | unstake and redeem succeed exactly for matured holders: no payout and no checked subtraction can fail |
| StakingRun.StakesAreAccepted | contracts/programs/staking/src/lib.rs:58-279 | stakes and locks succeed exactly for fresh accounts with the tokens: no checked addition of a total can fail |
| StakingRun.StakesBalance | contracts/programs/staking/src/lib.rs:58-377 | in every run, for any choice of stakes by owner and start, what came in is what went out plus what is held |
| StakingRun.LockedThirtyDays | contracts/programs/staking/src/lib.rs:3-8 | in every run, at any time, what an owner has taken out is at most what that owner had put in 30 days before |
| StakingRun.StakeMatures | contracts/programs/staking/src/lib.rs:324-333 | a position just opened can be closed exactly from 30 days on |
| StakingRun.VoucherMatures | contracts/programs/staking/src/lib.rs:281-288 | a voucher just opened can be redeemed exactly from the end of its lock on |
| StakingRun.HoldersGetTheirDue | contracts/programs/staking/src/lib.rs:134-377 | the whole stake reaches the recipient, and a claim mints the unclaimed yield once |
| StakingYield.IncrementIsFloor | contracts/programs/staking/src/lib.rs:117-124 | an accrual adds the rounded-down yield exactly below the cast limit, and never more |
| StakingYield.KeeperFrequency | contracts/programs/staking/src/lib.rs:111-165 | in every pool run an open position that was accrued n times, mixed with claims that succeed or fail, has earned at most the yield of one accrual over the whole time and is short of it by at most n - 1 |
| StakingYield.AccrualSucceeds | contracts/programs/staking/src/lib.rs:113-131 | in every pool run an accrual of an open position whose yield fits in a u64 is refused exactly when no time has passed |
| StakingYield.PracticalRange | contracts/programs/staking/src/lib.rs:119-124 | amounts to 10^18, rates to 100% and 18 years stay below the limit |
| StakingYield.YieldOfYear | contracts/programs/staking/src/lib.rs:119-124 | a full year yields the basis-point rate of the amount, rounded down |
| StakingRewards.YieldSinceOpening | contracts/programs/staking/src/lib.rs:58-165 | in every run of a new pool, what an owner's claims minted since the position was opened plus its unclaimed yield is at most the yield of one accrual over that time, and short of it by less than one unit per accrual |
| StakingRewards.RewardsWithinYield | contracts/programs/staking/src/lib.rs:111-165 | in every run of a new pool, all reward supply minted is at most the sum of those yields over the positions closed and open, less what is unclaimed |
| Tunnels.StepKeepsInv | coordinator/cmd/dev-stub-daemon/main.go:470-617 | every atomic step of receiver, pumps and teardowns keeps the invariant on map, Once, socket and stream |
| Tunnels.InsertFollowsDeletes | coordinator/cmd/dev-stub-daemon/main.go:498-518 | when a tunnel is inserted, every earlier tunnel with its id has executed its delete |
| Tunnels.DeleteSparesOthers | coordinator/cmd/dev-stub-daemon/main.go:604-617 | a teardown that deletes by attempt id never unregisters another tunnel, whatever its id |
| Tunnels.ClosedOnce | coordinator/cmd/dev-stub-daemon/main.go:604-617 | in every interleaving socket and done channel are closed at most once, and exactly once when the Once is done |
| Tunnels.StreamPerTunnel | coordinator/cmd/dev-stub-daemon/main.go:570-617 | the data sent is a prefix of the bytes read, in order; at most one TunnelClose, none if the coordinator's close won; at most one TunnelData after it |
| Tunnels.WaitersAreServed | coordinator/cmd/dev-stub-daemon/main.go:604-617 | when a thread waits for the Once, the thread inside it has a step to take |
| TunnelStreams.OnceFinishes | coordinator/cmd/dev-stub-daemon/main.go:604-617 | however a run goes on, the Once is done exactly when the thread inside has taken the steps it had left, at most five |
| TunnelStreams.ReplacedIsClosed | coordinator/cmd/dev-stub-daemon/main.go:498-518 | a tunnel whose id was given to another one has been deleted and its socket is closed |
| TunnelStreams.StreamPerId | coordinator/cmd/dev-stub-daemon/main.go:570-617 | in every interleaving a tunnel sends at most one TunnelData after its socket was closed, by either side; those sent while its id belongs to another tunnel are among them |
| TunnelStreams.LateDataUnderNewTunnel | coordinator/cmd/dev-stub-daemon/main.go:570-600 | such a frame is possible: for every id and chunk a run sends the bytes of a closed tunnel under the id after the id was opened again |
| TunnelDelivery.DataReachesItsSocket | coordinator/cmd/dev-stub-daemon/main.go:521-550 | in every interleaving and for every tunnel, what was written to its socket is, in order, what the coordinator sent for its id while the map named it, short only of one payload that is being written or whose write failed; nothing else reaches the socket |
| TunnelDelivery.ReceiverServes | coordinator/cmd/dev-stub-daemon/main.go:470-550 | in every interleaving the receiver dials, registers, refuses, writes or tears down for the id, target, payload and reason of the last frame and the last answer it got |
| TunnelDelivery.CloseTellsWhy | coordinator/cmd/dev-stub-daemon/main.go:570-617 | a TunnelClose names the tunnel's id and the failed write of a frame for it, or the failed read or send of its pump |
| TunnelDelivery.RefusalTellsWhy | coordinator/cmd/dev-stub-daemon/main.go:474-497 | a refused open is answered under its own id with the reason of the refusal |
| TunnelDelivery.RefusalsAreAnswered | coordinator/cmd/dev-stub-daemon/main.go:474-497 | in every interleaving every open without a target and every failed dial is answered, in order, but for the one in hand, and the stream has exactly these answers less those it did not take |
| TunnelDelivery.FramesNameTheirTunnel | coordinator/cmd/dev-stub-daemon/main.go:570-617 | in every interleaving the frames of a tunnel carry the id it was opened under, and data comes in chunks of 1 to 32,768 bytes |
| Tunnels.TunnelTable.BeginOpen | coordinator/cmd/dev-stub-daemon/main.go:474-497 | an open frame without an id is ignored, one without a target is refused, any other is dialed |
| Tunnels.TunnelTable.Register | coordinator/cmd/dev-stub-daemon/main.go:503-518 | the insert is the model's atomic step: a duplicate id keeps the existing tunnel |
| Tunnels.TunnelTable.Lookup | coordinator/cmd/dev-stub-daemon/main.go:521-529 | data for an unknown attempt is dropped, other data goes to that tunnel's socket |
| Tunnels.TunnelTable.Remove | coordinator/cmd/dev-stub-daemon/main.go:541-550 | the coordinator's close unregisters first and sends nothing back |
| Tunnels.TunnelTable.PumpRead | coordinator/cmd/dev-stub-daemon/main.go:570-573 | a chunk read is what will be sent next |
| Tunnels.TunnelTable.PumpSend | coordinator/cmd/dev-stub-daemon/main.go:574-600 | one TunnelData per chunk, then the next read or the teardown |
| Tunnels.TunnelTable.RunOnce | coordinator/cmd/dev-stub-daemon/main.go:606-616 | close, done, delete, notify, in that order |
| SseDecoders.Stream | sdks/typescript/src/transport.ts:115-140 | for every way of cutting a text into chunks the reader yields the payloads and leftover of the whole text |
| SseDecoders.TakeEvents | sdks/typescript/src/transport.ts:126-136 | the inner loop takes every complete event off the buffer and leaves the rest |
| SseDecoders.ParseSseEvent | sdks/typescript/src/transport.ts:142-154 | comments are dropped and data lines joined; a block without data gives nothing |
| SseDecoders.DrainInPieces | sdks/typescript/src/transport.ts:122-136 | draining after each piece is draining at the end |
| SseDecoders.ChunkInvariance | sdks/typescript/src/transport.ts:115-140 | any two ways of cutting the same text give the same payloads and leftover |
| SseDecoders.StreamWorkloadEvents | sdks/go/client.go:249-275 | the scanner loop sends the payloads of the line decoder, in order |
| SseDecoders.BlocksAreLines | sdks/typescript/src/transport.ts:119-154 | on every text, splitting into blocks decodes the same payloads as scanning its lines one by one would, with comments, multi-line data, blank runs and unterminated tails |
| SseAgreement.DecodersAgreeExactly | sdks/typescript/src/transport.ts:119-154 | for every text, the two clients decode the same payloads exactly when no event is cut by a lone carriage return and then goes on or stays incomplete, and every data line of a completed event is, after its leading spaces, empty or one carriage return, or neither begins with ECMAScript white space nor ends in a carriage return |
| SseAgreement.SameTrimExactly | sdks/go/client.go:249-275 | that condition on a data line holds exactly when both clients read the same value off it |
| SseAgreement.DecodersAgree | sdks/go/client.go:249-275 | in particular they agree on every text whose only white space is LF and space |
| SseDecoders.CarriageReturnsDiffer | sdks/typescript/src/transport.ts:126-136 | with CR LF line ends the Go client sends the payload and the TypeScript client sends nothing |
| SseRoundTrip.RoundTrip | sdks/typescript/src/transport.ts:119-154 | encoding a list of payloads and decoding gives the list back exactly: in the TypeScript client when no line starts with ECMAScript white space, in the Go client when no line starts with a space or ends in a carriage return |
| SseRoundTrip.OtherLinesAreIgnored | sdks/typescript/src/transport.ts:142-154 | a comment or a field other than data, put between any two lines of any text, changes no payload of either client |
| TunnelRoutes.Tunnel.AddExceptionHost | sdks/go/vpn/tunnel_route_linux.go:56-66 | a host is appended once |
| TunnelRoutes.Tunnel.PinExceptionHosts | sdks/go/vpn/tunnel_route_linux.go:103-122 | every IPv4 exception host is pinned through the original gateway, up to the first refusal |
| TunnelRoutes.Tunnel.ConfigureTunnelInterface | sdks/go/vpn/tunnel_route_linux.go:83-157 | the requests, their tolerated and fatal errors and the read-back, with the table left behind in each case |
| TunnelRoutes.Tunnel.VerifyTunnelConfigured | sdks/go/vpn/tunnel_route_linux.go:163-218 | read-back succeeds exactly when link, address and both /1 routes on the link are there |
| TunnelRoutes.Tunnel.DefaultRouteOriginal | sdks/go/vpn/tunnel_route_linux.go:223-234 | the first listed route at 0.0.0.0 of any length is taken for the default |
| TunnelRoutes.Tunnel.TeardownTunnelInterface | sdks/go/vpn/tunnel_route_linux.go:241-262 | only the /1 routes on the link and the address are removed |
| TunnelRoutes.LookupIsLongest | sdks/go/vpn/tunnel_route_linux.go:22-28 | the lookup used below is longest-prefix match |
| TunnelTraffic.WhereTrafficGoes | sdks/go/vpn/tunnel_route_linux.go:83-157 | after success every address has its route: pinned hosts the original gateway or their own host route, routes of two bits or more as before, everything else the tunnel |
| TunnelTraffic.DefaultIsNeverUsed | sdks/go/vpn/tunnel_route_linux.go:22-28 | with one default and nothing else at 0.0.0.0, success implies the requests took effect and no address resolves to the old default |
| TunnelTraffic.SuccessExactly | sdks/go/vpn/tunnel_route_linux.go:83-157 | with the capability, success is reported exactly when the link exists and no needed request is turned down |
| TunnelTraffic.NoEffectWithoutCapability | sdks/go/vpn/tunnel_route_linux.go:146-157 | without the capability nothing changes and success means it was all there before |
| TunnelTraffic.TeardownRestores | sdks/go/vpn/tunnel_route_linux.go:241-262 | after teardown an address resolves as originally exactly unless it got a new pinned route or used a /1 route on the tunnel link |
| TunnelTraffic.StaleException | sdks/go/vpn/tunnel_route_linux.go:241-262 | a pinned host keeps the first gateway on every later connect, whatever the default is then |
| TunnelOutcomes.ListOfHosts | sdks/go/vpn/tunnel_route_linux.go:56-66 | after any additions the exception list has exactly the hosts added, each once, in the order of their first addition |
| TunnelOutcomes.ErrorExactly | sdks/go/vpn/tunnel_route_linux.go:83-157 | with the capability, which error is reported: link, address, flag, route, or the read-back, the last exactly when a half already goes to another link |
| TunnelOutcomes.ReadBackExactly | sdks/go/vpn/tunnel_route_linux.go:163-218 | without the capability, which error is reported: link, flag, address or a missing half, in that order |
| TunnelOutcomes.ConfigureOnlyAdds | sdks/go/vpn/tunnel_route_linux.go:83-157 | whatever fails, no route is removed and none is added but the halves on the link and the pins of exception hosts |
| TunnelOutcomes.TeardownExactly | sdks/go/vpn/tunnel_route_linux.go:241-262 | a route is gone after teardown exactly if it was a half on the tunnel link, and so is the address |
| Failover.FailoverDetector.Loop | sdks/go/vpn/failover.go:65-93 | over any ticks the loop makes the specified state changes and attempts |
| Failover.FailoverDetector.Detect | sdks/go/vpn/failover.go:103-121 | unreachable means no new bytes, once any were seen; failed reads count as healthy |
| Failover.FailoverDetector.Trigger | sdks/go/vpn/failover.go:126-173 | the endpoint moves to the first candidate of highest priority, or not at all |
| Failover.Best | sdks/go/vpn/failover.go:151-161 | the chosen candidate has the highest priority and is the first that has |
| Failover.LoopFollowsHistory | sdks/go/vpn/failover.go:65-121 | over every history the stored counter is the running peak, strikes are the length of the current unhealthy run, and failover is attempted exactly when that reaches the threshold |
| Failover.RunIsUnhealthy | sdks/go/vpn/failover.go:77-91 | the run begins right after the last healthy tick or successful failover |
| Failover.NeverBeforeFirstByte | sdks/go/vpn/failover.go:115-119 | no failover before the first received byte |
| Failover.RetriesUntilSuccess | sdks/go/vpn/failover.go:80-86 | a failed attempt is repeated on the next unhealthy tick |
| Failover.AttemptsAreSpaced | sdks/go/vpn/failover.go:80-86 | after a successful failover the next attempt is at least the threshold away |
| Failover.EndpointFollowsHistory | sdks/go/vpn/failover.go:126-173 | over every history the endpoint moves exactly at the attempts that find a candidate the tunnel accepts, and then to the first of highest priority |
| AntiAbuse.InMemoryFilter.Install | daemon/crates/anti-abuse/src/lib.rs:124-144 | a ruleset is replaced with normalised patterns and the rate buckets stay |
| AntiAbuse.InMemoryFilter.CheckRateLimit | daemon/crates/anti-abuse/src/lib.rs:147-165 | one tumbling window per customer, a zero cap meaning none |
| AntiAbuse.InMemoryFilter.CheckRules | daemon/crates/anti-abuse/src/lib.rs:170-209 | the first of hash, port, phish and destination rules that matches decides |
| AntiAbuse.InMemoryFilter.CheckRequest | daemon/crates/anti-abuse/src/lib.rs:170-219 | rules first, then the rate limit, with the buckets after each |
| AntiAbuseRules.BlockedExactly | daemon/crates/anti-abuse/src/lib.rs:124-209 | from the coordinator's lists to the verdict: a rule blocks a request exactly if its hash, its port or its lower-cased host is listed, or that host ends at a label boundary in an installed pattern, and the category is the first of these |
| AntiAbuseRules.EntriesOnlyBlock | daemon/crates/anti-abuse/src/lib.rs:124-209 | entries added to whatever list never unblock a request |
| AntiAbuseRules.CaseDoesNotMatter | daemon/crates/anti-abuse/src/lib.rs:190-209 | two destinations whose hosts differ only in the case of ASCII letters get the same verdict and leave the same buckets |
| AntiAbuseRules.PatternExactly | daemon/crates/anti-abuse/src/lib.rs:132-140 | a pattern is installed without its leading stars, then without its leading dots, in small letters |
| AntiAbuseRules.ZeroCapIsUnlimited | daemon/crates/anti-abuse/src/lib.rs:147-165 | with a cap of zero no run refuses a request for its rate |
| AntiAbuseRun.AtMostTwiceTheCap | daemon/crates/anti-abuse/src/lib.rs:146-165 | in no half-open minute is a customer allowed more than twice the cap less one |
| AntiAbuseRun.BoundIsAttained | daemon/crates/anti-abuse/src/lib.rs:146-165 | for every ruleset with a cap and every customer an ordered run reaches that bound |
| AntiAbuseRun.SlidingExactly | daemon/crates/anti-abuse/src/lib.rs:146-165 | every ordered run allows at most the cap in every minute, as a sliding window would, exactly when the cap is one |
| AntiAbuseRun.RefusedOnlyWhenFull | daemon/crates/anti-abuse/src/lib.rs:147-165 | a rate refusal means that the full cap was allowed in the preceding minute |
| AntiAbuseRun.CustomersAreIndependent | daemon/crates/anti-abuse/src/lib.rs:147-219 | striking other customers' and rule-blocked requests from a run changes none of a customer's verdicts |
| DestinationHosts.HostOfUrl | daemon/crates/anti-abuse/src/lib.rs:287-298 | the rules see the host of a URL exactly when it has no colon and, if the part of the tail that is read has an '@', the text after the last one begins with that host followed by ':', '/' or nothing, and otherwise the host is followed by a port, a '/' or nothing |
| DestinationHosts.QueryJoinsHost | daemon/crates/anti-abuse/src/lib.rs:287-298 | a query or fragment right after the host is taken for a part of it |
| DestinationHosts.HostOfBare | daemon/crates/anti-abuse/src/lib.rs:287-298 | without a scheme the same condition on the whole destination |
| DestinationHosts.HostOfDialled | daemon/crates/routing/src/lib.rs:353-358 | of the "host:port" that the daemon's own callers send, for any host at all, the rules see the whole host exactly when it has no colon, '/' or '@', and up to the first colon when it has only colons |
| DestinationHosts.SuffixBoundary | daemon/crates/anti-abuse/src/lib.rs:199-208 | a blocked suffix matches only at a label boundary |
| DestinationHosts.StarPattern | daemon/crates/anti-abuse/src/lib.rs:132-140 | "*.domain" is installed as the bare lower-case domain |
| Socks5.Conn.Socks5Handshake | examples/phase0-vcard-customer/client.go:224-343 | for every input the bytes written, the error, and on success the input left are the specified ones |
| Socks5.Conn.ConnectRequest | examples/phase0-vcard-customer/client.go:281-300 | the request for a legal destination, none for a host name over 255 bytes |
| Socks5Grammar.ClientBytesDecode | examples/phase0-vcard-customer/client.go:224-304 | under the RFC grammar the bytes written decode to exactly that user, password, host and port, unless a credential is empty |
| Socks5Grammar.ReplyIsConsumed | examples/phase0-vcard-customer/client.go:306-342 | a well-formed success reply is consumed exactly |
| Socks5Grammar.HandshakeSucceeds | examples/phase0-vcard-customer/client.go:224-343 | the handshake succeeds exactly when the request is legal and the input begins with a well-formed success reply; then all three messages are out and the next byte is tunnel data |
| Socks5Grammar.WrittenExactly | examples/phase0-vcard-customer/client.go:224-304 | how far the client writes on every input: the greeting alone unless user-password is selected and the credentials fit, the request only once they are accepted and the destination is legal |
| Socks5Grammar.ErrorTells | examples/phase0-vcard-customer/client.go:224-343 | which answer of the gateway, or which of the caller's inputs, each error reports |

## Left out

- Anchor plumbing: account sizes, rents, PDA seeds and bumps, events, metadata. Signer checks are modelled; that an
  account has the right address is not. `EpochMismatch` and `DepositMismatch` cannot happen by the seeds.
- Token-2022 itself: the ledger has mint, transfer, burn and set-authority; delegates, freezing, closing and
  extensions are not modelled.
- contracts/programs/burn: append-only counters, easy members only.
- `compute_weight` and the discount ramp of staking: short bounded interpolations.
- Clocks of the vesting and staking runs are between 0 and 2^62 seconds.
- HardCap.HardCapHolds: TGE is between 0 and half the i64 range and windows end within 2^32 halving periods of it; beyond
  that the cast wraps, and `HalvingCurve.BudgetMeetsCurve` says exactly when.
- Tunnels: the pump's reused read buffer is a value, because the source copies it before sending; `closeAll` is
  not part of a run, as `os.Exit` skips it; sockets, dialing and the dispatch stream answer arbitrarily.
- Tunnels.TunnelTable.CloseWithReason: states one atomic step, so that other threads can run between the statements.
- Event streams: UTF-8, JSON and the 4 MiB line limit of the Go scanner. A payload that is not JSON ends the TypeScript
  stream and is skipped by the Go client; payloads here are raw.
- Routes: one table with one route per prefix (no metrics, no policy rules), IPv4 only; the connected route of the
  inner /16 is an entry of the table like any other; the link neither vanishes nor appears during one call.
- Failover: the coordinator's HTTP exchange is an arbitrary answer per tick.
- The anti-abuse filter: each check is one step; letters outside ASCII are not folded; a clock that goes back is
  excluded from the rate theorems only.
- SOCKS5: splitting "host:port" and recognising literal addresses are inputs; write errors and deadlines are not modelled.
