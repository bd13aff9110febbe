# Compute market and deployment agent: a verified model

The repository rents out compute. Users pay for it through three Solidity contracts, and a Go agent deploys
their code and has its action log attested on chain. This project models the three parts whose behaviour
cannot be settled by examples, and proves what they promise for all inputs, all runs and all counterparties.

**The money contracts.** `DeploymentEscrow` (one-shot escrows and per-second streaming sessions over one ETH
balance), `JobAuction` (a 30-second bid window and a winner) and `ProviderRegistry` (stakes, slashing and
enumeration) are transition systems (`EscrowModel`, `AuctionModel`, `RegistryModel`). A transaction may stop at
an external call. There foreign code runs: it may call back any function any number of times, its callees may
do the same, and it then accepts or refuses; a refusal reverts the transaction. The reentrancy guard is part of
the state, so a callback into a guarded function fails because the guard says so. Each contract is also a class
with its storage as fields (`DeploymentEscrow`, `ProviderRegistry`, `JobAuction`), whose methods update it step
by step and are proved to leave exactly the storage and the receipt that the transition system prescribes,
reverts and callbacks included. The results are then proved about the transition systems. For each call there is
an exact condition and an exact effect (`EscrowCalls`, `RegistryCalls`, `AuctionCalls`), and what holds over whole
runs is built on top. A *journal* of ETH
movements is kept beside the storage so that "what was paid, to whom, for what" can be stated.

**The action log.** `Merkle` is the duplicate-last tree for any digest type and any pair hash; `ActionLog` adds
the log, the hash of an action, and its string form. SHA-256, Keccak-256 and the JSON encoding are arbitrary
functions; where binding is claimed, the hypothesis is only that the hashes *actually computed* for the two logs
do not collide.

**The agent loop and its events.** `AgentModel` is the turn machine of a session against an arbitrary model and
arbitrary tools; `SessionLoop` is the session object; `Transcript` is the translation into the chat format of
the model; `FanOut` and `EventBusObjects` are the event path through two lossy buffers; `SelectProvider` is the
ranking of providers.

Where the code and its comments disagree, the model follows the code:

- `cancelJob` calls the contract's balance "all ETH held for this job" and speaks of refunding "the full
  deposit". With several open jobs it pays out all of them. `TwoOpenJobsPool` is a concrete run,
  `SettlementMovesOwnDepositIff` the exact condition, `OneJobAtATime` the case in which the promise holds.
- The comment on `cancelJob` allows cancelling after the window only without bids; the code allows it with bids
  too. `CancelSucceedsIff` is the exact condition, `CancelWithBids` a run in which a job with a bid is cancelled.
- The auction declares a provider record of six fields where the registry returns seven, so it decodes its
  `active` flag from the word that holds the completed jobs, and the decoder refuses a flag other than 0 and 1.
  "Any active staked provider" can bid only as long as no active provider at all has completed a second job:
  `StakeCheckIsExact` and `BidSucceedsIff` are the exact conditions, `SecondJobBlocksEveryone` a run that gets
  there.
- `elapsed * ratePerSecond` is checked arithmetic. A session whose product no longer fits in 256 bits can
  neither be released nor stopped any more, whatever runs (`OverflowIsForever`). `OverflowReached` is a session
  that gets there, `ReleaseSucceedsIff` and `StopSucceedsIff` are the exact conditions, and `SlashRefundsFully`
  shows the way out that remains.
- The auction says that "all payment enforcement (streaming, slashing, refund)" is handled by the escrow. For the
  sessions it starts, refund and slashing are not to be had there: the session's user is the auction, which can
  neither stop nor receive (`AuctionSessionNeverRefunds`, `AuctionSessionCannotBeSlashed`).
- The Merkle tree alone does not bind a log (`BareTreeCollides`); the index hashed into every leaf does
  (`RootBindsLog`).

## Model

| member | source | states |
|---|---|---|
| DeploymentEscrowContract.DeploymentEscrow.Deposit | contracts/contracts/DeploymentEscrow.sol:117-130 | records the sender's escrow, or reverts on zero value or a used id, leaving storage as it was |
| DeploymentEscrowContract.DeploymentEscrow.Refund | contracts/contracts/DeploymentEscrow.sol:136-150 | status before payment; reverts in source order; the state a callback leaves is kept |
| DeploymentEscrowContract.DeploymentEscrow.Release | contracts/contracts/DeploymentEscrow.sol:158-175 | pays the provider less the fee under the guard |
| DeploymentEscrowContract.DeploymentEscrow.Dispute | contracts/contracts/DeploymentEscrow.sol:180-189 | freezes a pending escrow; unguarded, so callable from a callback |
| DeploymentEscrowContract.DeploymentEscrow.ResolveDispute | contracts/contracts/DeploymentEscrow.sol:195-217 | both ways of settling a dispute |
| DeploymentEscrowContract.DeploymentEscrow.WithdrawFees | contracts/contracts/DeploymentEscrow.sol:222-229 | clears the fee counter before it pays the owner |
| DeploymentEscrowContract.DeploymentEscrow.StartSession | contracts/contracts/DeploymentEscrow.sol:245-270 | opens a session and pays a fifth up front |
| DeploymentEscrowContract.DeploymentEscrow.ReleaseAccrued | contracts/contracts/DeploymentEscrow.sol:358-378 | drains what accrued, with its three ways of doing nothing or failing |
| DeploymentEscrowContract.DeploymentEscrow.ReleasePayment | contracts/contracts/DeploymentEscrow.sol:275-280 | anyone may drain an active session |
| DeploymentEscrowContract.DeploymentEscrow.SubmitProof | contracts/contracts/DeploymentEscrow.sol:286-296 | the same for the proof authority or the owner |
| DeploymentEscrowContract.DeploymentEscrow.StopSession | contracts/contracts/DeploymentEscrow.sol:301-319 | two payments in one call: accrued to the provider, the rest to the user |
| DeploymentEscrowContract.DeploymentEscrow.SlashProvider | contracts/contracts/DeploymentEscrow.sol:326-349 | the registry call may fail or call back; the refund follows either way |
| DeploymentEscrowContract.DeploymentEscrow.SetAuthority | contracts/contracts/DeploymentEscrow.sol:232-235 | only the owner moves the authorities and the ownership; unguarded |
| DeploymentEscrowContract.DeploymentEscrow.PendingPayment | contracts/contracts/DeploymentEscrow.sol:390-395 | the view computes the specified amount, or reverts on overflow |
| DeploymentEscrowContract.DeploymentEscrow.Transfer | contracts/contracts/DeploymentEscrow.sol:148-149 | an external payment: balance, journal, then foreign code |
| DeploymentEscrowContract.DeploymentEscrow.Execute | contracts/contracts/DeploymentEscrow.sol:117-378 | every message does what the transition system says, or reverts and changes nothing |
| EscrowLifecycle.LockupViewDecidesRefund | contracts/contracts/DeploymentEscrow.sol:383-387 | a refund fails for the lockup exactly when the view is false and nothing earlier stands in the way, and never succeeds while it is false |
| EscrowLifecycle.LockupViewFromDeposit | contracts/contracts/DeploymentEscrow.sol:383-387 | in every run after a deposit the view is true exactly from 24 hours after it |
| EscrowSafety.HandoverIsFrozen | contracts/contracts/DeploymentEscrow.sol:117-378 | whatever foreign code does during a payment, balance, sessions, fees and journal stand still, and escrows can only go from pending to disputed |
| EscrowSafety.LockedCallIsFrozen | contracts/contracts/DeploymentEscrow.sol:117-378 | a single callback under the guard makes no external call, and a guarded one reverts |
| EscrowCalls.ObjectionDecides | contracts/contracts/DeploymentEscrow.sol:117-378 | every call reverts with the first objection in source order, or goes through if the parties accept and fails for nothing but their refusal |
| EscrowCalls.DepositSucceedsIff | contracts/contracts/DeploymentEscrow.sol:117-130 | exactly with money under a free id; records the sender's escrow and nothing else |
| EscrowCalls.DisputeSucceedsIff | contracts/contracts/DeploymentEscrow.sol:180-189 | in every state, exactly for the release authority or the owner on a pending escrow; only its status changes |
| EscrowCalls.SettersSucceedIff | contracts/contracts/DeploymentEscrow.sol:232-355 | in every state, only the owner, and each setter its own field |
| EscrowCalls.ProofSucceedsIff | contracts/contracts/DeploymentEscrow.sol:286-296 | the exact condition of a proof, its authority included |
| EscrowCalls.ReleasePaysWhatIsDue | contracts/contracts/DeploymentEscrow.sol:358-378 | nothing and no change if nothing is due; otherwise what is due in one entry, nine tenths to the provider and a tenth kept |
| EscrowCalls.PendingIsDrip | contracts/contracts/DeploymentEscrow.sol:390-395 | the view for every session, closed ones included |
| EscrowCalls.HandoverIsRun | contracts/contracts/DeploymentEscrow.sol:148-149 | what foreign code does with its calls back is a run of transactions from the state it is handed |
| EscrowCalls.HandoverSeesEach | contracts/contracts/DeploymentEscrow.sol:148-149 | and it sees the state after each of them |
| EscrowCalls.ForeignCodeRuns | contracts/contracts/DeploymentEscrow.sol:136-296 | a call with one payment stops there with the guard taken and ends where the payee's calls back end |
| EscrowCalls.ForeignCodeRunsTwice | contracts/contracts/DeploymentEscrow.sol:301-349 | the same for a stop and a slash and their two external calls |
| EscrowCalls.DisputeFromInside | contracts/contracts/DeploymentEscrow.sol:136-189 | a run in which a call back takes effect: a dispute from inside a refund |
| EscrowRuns.ExecKeeps | contracts/contracts/DeploymentEscrow.sol:117-378 | one transaction with arbitrary callbacks keeps every account, and every state it exposes covers its liabilities |
| EscrowRuns.SolventInEveryRun | contracts/contracts/DeploymentEscrow.sol:117-378 | after every run balance = open escrows + session remainders + fees; at every external call point balance >= that sum |
| EscrowRuns.EscrowPaysOnce | contracts/contracts/DeploymentEscrow.sol:117-217 | at most one payment per escrow in any run; a settled escrow is final |
| EscrowRuns.FeesConserved | contracts/contracts/DeploymentEscrow.sol:158-229 | fees charged = fees accrued + fees withdrawn |
| EscrowRuns.SessionConserved | contracts/contracts/DeploymentEscrow.sol:245-378 | deposit = up-front + net payments + fees + refund + remainder; a closed session holds nothing |
| EscrowRuns.ClosedSessionIsFinal | contracts/contracts/DeploymentEscrow.sol:301-349 | no later step of any run pays for a closed session |
| EscrowRuns.FeeDriftBounded | contracts/contracts/DeploymentEscrow.sol:358-378 | over n releases that drained G: G/10 - (n-1) <= fees <= G/10 |
| EscrowLifecycle.DepositLifecycle | contracts/contracts/DeploymentEscrow.sol:117-217 | from a deposit on, in every run: paid is 0, all of it to the depositor, or nine tenths to the named provider |
| EscrowLifecycle.SessionPaysItsParties | contracts/contracts/DeploymentEscrow.sol:245-378 | in every run, up-front parts and releases go to the session's provider and refunds to its user |
| EscrowLifecycle.RefundSucceedsIff | contracts/contracts/DeploymentEscrow.sol:136-150 | exactly for the depositor of a pending escrow, 24 hours on, who takes the money; never for lack of funds |
| EscrowLifecycle.EscrowReleaseSucceedsIff | contracts/contracts/DeploymentEscrow.sol:158-175 | exactly when authorised and pending; ten percent rounded down is kept |
| EscrowLifecycle.ResolveSucceedsIff | contracts/contracts/DeploymentEscrow.sol:195-217 | exactly for the owner once disputed, in either direction |
| EscrowLifecycle.WithdrawSucceedsIff | contracts/contracts/DeploymentEscrow.sol:222-229 | exactly for the owner when there are fees; all of them |
| EscrowLifecycle.StopSucceedsIff | contracts/contracts/DeploymentEscrow.sol:301-319 | the exact condition for a stop, over both of its payments and the checked product |
| StreamingSchedule.StartedSession | contracts/contracts/DeploymentEscrow.sol:245-270 | four fifths held, a fifth paid, clock started, whatever the provider does with the money |
| StreamingSchedule.ScheduleIndependent | contracts/contracts/DeploymentEscrow.sol:275-296 | a release at t leaves what one single release at t would have left, after any run up to t |
| StreamingSchedule.StopRefundDependsOnlyOnTime | contracts/contracts/DeploymentEscrow.sol:301-319 | the refund of a stop at t depends only on t |
| StreamingSchedule.ReleaseFromStart | contracts/contracts/DeploymentEscrow.sol:245-296 | from the start of a session, whatever runs: a release at t leaves escrowed - min(escrowed, rate * (t - t0)) |
| StreamingSchedule.StopFromStart | contracts/contracts/DeploymentEscrow.sol:245-319 | and a stop at t refunds exactly that |
| StreamingSchedule.PendingIsWhatReleaseDrains | contracts/contracts/DeploymentEscrow.sol:390-395 | pendingPayment is what the next release drains, and reverts only where the release would |
| StreamingSchedule.ReleaseSucceedsIff | contracts/contracts/DeploymentEscrow.sol:275-280 | the exact condition for a release to go through |
| StreamingSchedule.SlashRefundsFully | contracts/contracts/DeploymentEscrow.sol:326-349 | a slash refunds the full remainder, whether or not the registry call succeeds |
| EscrowRefunds.StartSucceedsIff | contracts/contracts/DeploymentEscrow.sol:245-270 | the exact condition for a session to start |
| EscrowRefunds.SessionStaysTaken | contracts/contracts/DeploymentEscrow.sol:252 | a session id once taken keeps its user and provider in every run |
| EscrowRefunds.StaysActive | contracts/contracts/DeploymentEscrow.sol:245-349 | only a stop and a slash close a session |
| EscrowRefunds.MuteUserGetsNothingBack | contracts/contracts/DeploymentEscrow.sol:301-349 | a user who neither stops a session nor accepts a slash's refund is paid back nothing of it in any run |
| EscrowRefunds.RefusedSlashReverts | contracts/contracts/DeploymentEscrow.sol:345-348 | a refused refund reverts the slash |
| StreamingSchedule.OverflowBlocksExit | contracts/contracts/DeploymentEscrow.sol:363 | once the product overflows, releases and stops revert at every later time |
| EscrowOverflow.OverflowIsForever | contracts/contracts/DeploymentEscrow.sol:275-378 | from an overflowed session no run leads back: every later release, proof or stop reverts, and unless slashed it keeps all it holds |
| EscrowOverflow.OverflowReached | contracts/contracts/DeploymentEscrow.sol:245-270 | a session started with the largest rate is there after two seconds, and cannot be stopped after any run |
| EscrowOverflow.ExecElsewhere | contracts/contracts/DeploymentEscrow.sol:117-378 | a call that does not name a session leaves it as it was, callbacks included |
| ProviderRegistryContract.ProviderRegistry.Register | contracts/contracts/ProviderRegistry.sol:73-88 | registration with the minimum stake |
| ProviderRegistryContract.ProviderRegistry.Update | contracts/contracts/ProviderRegistry.sol:94-102 | a registered provider changes its endpoint and price |
| ProviderRegistryContract.ProviderRegistry.Deactivate | contracts/contracts/ProviderRegistry.sol:147-151 | a registered provider leaves the enumeration |
| ProviderRegistryContract.ProviderRegistry.Reactivate | contracts/contracts/ProviderRegistry.sol:154-159 | back in, only with the minimum stake |
| ProviderRegistryContract.ProviderRegistry.RecordJobCompleted | contracts/contracts/ProviderRegistry.sol:192-198 | the slash authority or the owner counts a job |
| ProviderRegistryContract.ProviderRegistry.SetAuthority | contracts/contracts/ProviderRegistry.sol:203-206 | only the owner moves the authority and the ownership |
| ProviderRegistryContract.ProviderRegistry.Stake | contracts/contracts/ProviderRegistry.sol:107-119 | adding stake, which may reactivate |
| ProviderRegistryContract.ProviderRegistry.Unstake | contracts/contracts/ProviderRegistry.sol:125-143 | withdrawing stake, which may deactivate, before the payment |
| ProviderRegistryContract.ProviderRegistry.Slash | contracts/contracts/ProviderRegistry.sol:166-186 | half of the stake to the owner |
| ProviderRegistryContract.ProviderRegistry.Execute | contracts/contracts/ProviderRegistry.sol:73-205 | every message does what the transition system says, or reverts and changes nothing |
| RegistryCalls.ObjectionDecides | contracts/contracts/ProviderRegistry.sol:73-206 | every call reverts with the first objection in source order, or goes through exactly if the payee accepts |
| RegistryCalls.RegisterRecords | contracts/contracts/ProviderRegistry.sol:73-91 | what was sent and named is recorded, active, at the end of the list |
| RegistryCalls.UpdateRewrites | contracts/contracts/ProviderRegistry.sol:94-102 | endpoint and price of the call, and nothing else |
| RegistryCalls.StakeAdds | contracts/contracts/ProviderRegistry.sol:107-120 | to the wei; active afterwards exactly if it was or the total reaches the minimum |
| RegistryCalls.UnstakeSucceedsIff | contracts/contracts/ProviderRegistry.sol:125-143 | the exact condition; the sender is paid exactly the amount asked for and no other stake moves, callbacks included |
| RegistryCalls.UnstakeHands | contracts/contracts/ProviderRegistry.sol:130-141 | in the state handed over, the sender is active exactly if it was and the minimum is still there |
| RegistryCalls.SlashSucceedsIff | contracts/contracts/ProviderRegistry.sol:166-186 | the exact condition of a slash |
| RegistryCalls.SlashHands | contracts/contracts/ProviderRegistry.sol:171-181 | in the state handed over, half is gone, the counter is up and the provider is active exactly if it was and the minimum is still there |
| RegistryCalls.ActivationRewrites | contracts/contracts/ProviderRegistry.sol:147-159 | leaving and coming back change the flag and nothing else |
| RegistryCalls.RecordCounts | contracts/contracts/ProviderRegistry.sol:192-198 | one job more, and nothing else |
| RegistryCalls.SettersRewrite | contracts/contracts/ProviderRegistry.sol:203-206 | each setter its own field |
| RegistryCalls.ForeignCodeRuns | contracts/contracts/ProviderRegistry.sol:125-186 | a payout ends where the payee's calls back end, from the state it is handed |
| ProviderRegistryContract.ProviderRegistry.GetActiveProviders | contracts/contracts/ProviderRegistry.sol:211-229 | count and fill passes agree: no write out of bounds, the array is full, and it is the active providers in registration order |
| RegistryRuns.InvInEveryRun | contracts/contracts/ProviderRegistry.sol:73-205 | in every run and at every callback: balance = sum of enumerated stakes, no duplicates, exactly the registered wallets, active implies minimum stake |
| RegistryLedger.StakeAccounted | contracts/contracts/ProviderRegistry.sol:73-186 | in every run, a wallet's stake is what it put in less what it was itself paid back and what was slashed; slashCount counts the slashes |
| RegistryRuns.SlashOnce | contracts/contracts/ProviderRegistry.sol:166-186 | half of one stake, rounded down, goes to the owner and no other stake moves, callbacks included |
| RegistryRuns.HalvedIsCeiling | contracts/contracts/ProviderRegistry.sol:171-173 | halving k times, rounding at each step, is one ceiling of S / 2^k, and never zero for S > 0 |
| RegistryRuns.SlashesLeaveCeiling | contracts/contracts/ProviderRegistry.sol:166-186 | k slashes leave ceil(S / 2^k), send the rest to the owner, and deactivate below the minimum |
| RegistryRuns.EnumeratesActive | contracts/contracts/ProviderRegistry.sol:211-229 | a wallet is enumerated if and only if it is registered and active |
| RegistryRuns.EnumeratesInOrder | contracts/contracts/ProviderRegistry.sol:221-227 | an earlier entry of the enumeration was registered earlier |
| ProviderRegistryContract.HasSufficientStake | contracts/contracts/JobAuction.sol:303-312 | the scan passes if and only if the first listing of the wallet holds the minimum stake |
| ProviderRegistryContract.ScanIsExact | contracts/contracts/JobAuction.sol:303-312 | over a reachable registry the scan passes for exactly the active providers |
| ProviderRegistryContract.DecodingIsExact | contracts/contracts/JobAuction.sol:8-16 | the registry's answer decodes exactly when no active provider has completed a second job |
| ProviderRegistryContract.StakeCheckIsExact | contracts/contracts/JobAuction.sol:303-312 | over a reachable registry the auction's check, decoding included, passes for exactly the active providers while no active provider has completed a second job |
| ProviderRegistryContract.SecondJobBlocksEveryone | contracts/contracts/ProviderRegistry.sol:192-198 | a run after which the check passes for nobody, though a provider is active and staked |
| JobAuctionContract.JobAuction.PostJob | contracts/contracts/JobAuction.sol:136-162 | posting a job with a deposit |
| JobAuctionContract.JobAuction.CancelJob | contracts/contracts/JobAuction.sol:168-185 | cancelling pays out the whole balance |
| JobAuctionContract.JobAuction.SubmitBid | contracts/contracts/JobAuction.sol:194-211 | the reasons to refuse a bid, in order, an undecodable registry answer among them, and the recorded bid |
| JobAuctionContract.JobAuction.PickWinner | contracts/contracts/JobAuction.sol:246-253 | the winner loop computes the specified position |
| JobAuctionContract.JobAuction.CloseAuction | contracts/contracts/JobAuction.sol:220-267 | award to the winner or the fallback, with the rate floored at one |
| JobAuctionContract.JobAuction.SetFallbackOrOwner | contracts/contracts/JobAuction.sol:295-298 | only the owner moves the fallback and the ownership |
| JobAuctionContract.JobAuction.LowestBid | contracts/contracts/JobAuction.sol:277-285 | the first of the cheapest bids |
| JobAuctionContract.JobAuction.Execute | contracts/contracts/JobAuction.sol:136-298 | every message does what the transition system says, or reverts and changes nothing |
| AuctionCalls.ObjectionDecides | contracts/contracts/JobAuction.sol:136-298 | every call reverts with the first objection in source order, or goes through exactly if the paid party accepts |
| AuctionCalls.PostSucceedsIff | contracts/contracts/JobAuction.sol:136-162 | exactly with money, a duration and a free id; stores the terms of the call under that id and nothing else |
| AuctionCalls.TermsStand | contracts/contracts/JobAuction.sol:136-267 | whatever runs after a post, the job keeps user, time, ceiling, RAM, cores and duration of the call |
| AuctionCalls.WindowFromPost | contracts/contracts/JobAuction.sol:288-292 | an open job's window is the 30 seconds from its post |
| AuctionCalls.BidAppends | contracts/contracts/JobAuction.sol:203-208 | an accepted bid is appended with its price and the time of the block, and marks its sender |
| AuctionCalls.SettersRewrite | contracts/contracts/JobAuction.sol:295-298 | each setter its own field |
| AuctionCalls.SettlementHands | contracts/contracts/JobAuction.sol:168-267 | a settlement writes its job and empties the balance, and ends where the paid party's calls back end |
| AuctionOutcomes.CancelSucceedsIff | contracts/contracts/JobAuction.sol:168-185 | exactly for the user of an open job, before the first bid or after the window |
| AuctionOutcomes.CloseSucceedsIff | contracts/contracts/JobAuction.sol:220-267 | exactly for an open job past its window with a bid or a fallback, if the escrow takes the session |
| AuctionOutcomes.CancelWithBids | contracts/contracts/JobAuction.sol:164-185 | a run in which a job with a bid is cancelled after the window |
| AuctionOutcomes.BidSucceedsIff | contracts/contracts/JobAuction.sol:194-211 | over a reachable registry: the exact condition for a bid, stake check and decoding included |
| AuctionOutcomes.WindowViewDecidesBid | contracts/contracts/JobAuction.sol:288-292 | a bid fails for the job, its status or its window exactly when the view is false, and never succeeds then |
| AuctionOutcomes.WindowViewBlocksClose | contracts/contracts/JobAuction.sol:288-292 | while the view is true nobody closes the auction |
| AuctionOutcomes.WindowNeverReopens | contracts/contracts/JobAuction.sol:288-292 | once false of a posted job, the view stays false in every run |
| AuctionRuns.WinnerIsLeast | contracts/contracts/JobAuction.sol:246-253 | the loop's winner is the one least bid by price, time and arrival |
| AuctionRuns.TieBreakNeverFires | contracts/contracts/JobAuction.sol:246-253 | for bids in time order, closeAuction and lowestBid agree |
| AuctionRuns.InvInEveryRun | contracts/contracts/JobAuction.sol:136-267 | bids under the ceiling, in the window, in time order, one per provider, hasBid exactly the bidders; ETH in = out + balance |
| AuctionRuns.WinnerInEveryRun | contracts/contracts/JobAuction.sol:194-285 | in every reachable state closeAuction picks what lowestBid reports, under the ceiling |
| AuctionRuns.MoneyInEveryRun | contracts/contracts/JobAuction.sol:136-267 | deposited = refunded + forwarded + balance in every run |
| AuctionRuns.BidsFreeze | contracts/contracts/JobAuction.sol:194-211 | once the window has closed no run changes a job's bids |
| AuctionRuns.SettledJobIsFinal | contracts/contracts/JobAuction.sol:168-267 | no run changes an awarded or cancelled job |
| AuctionRuns.CancelRefundsUser | contracts/contracts/JobAuction.sol:168-185 | what a cancel leaves: the job's user, who alone can have asked, is paid all that was posted since the last payout |
| AuctionRuns.CloseAwardsLeast | contracts/contracts/JobAuction.sol:220-267 | a close awards the least bid at max(price / 3600, 1), or the fallback at the ceiling |
| AuctionRuns.SettlementMovesPool | contracts/contracts/JobAuction.sol:179-226 | a settlement moves everything posted since the last payout and touches no other job |
| AuctionRuns.SettlementMovesOwnDepositIff | contracts/contracts/JobAuction.sol:179-226 | a settlement pays its own part and the others' part of what was posted since the last payout; that is its own deposit and nothing else if and only if that job alone was posted since then |
| AuctionRuns.PooledAmountTells | contracts/contracts/JobAuction.sol:179-226 | for a job posted since the last payout, the amount equals its deposit if and only if it alone was |
| AuctionOutcomes.PaidWithOthersMoney | contracts/contracts/JobAuction.sol:179-226 | for a job whose deposit already left, the amount can equal it by chance: a run that refunds it with another job's money |
| AuctionRuns.OneJobAtATime | contracts/contracts/JobAuction.sol:168-267 | with at most one job open, the balance is the open job's deposit |
| AuctionRuns.OneJobMovesItsDeposit | contracts/contracts/JobAuction.sol:168-267 | from deployment on, with at most one job open at a time, every cancel or close moves exactly its job's deposit |
| AuctionRuns.TwoOpenJobsPool | contracts/contracts/JobAuction.sol:179 | with two jobs open, cancelling the first pays out both deposits |
| Market.AwardOf | contracts/contracts/JobAuction.sol:220-267 | what a close hands to the escrow: provider, amount, and a rate under the ceiling |
| Market.PriceCeiling | contracts/contracts/JobAuction.sol:220-267 | 3600 * gross <= max(maxPricePerHour, 3600) * t for every session a close starts, whatever runs on the escrow |
| Market.PriceCeilingFromPost | contracts/contracts/JobAuction.sol:136-267 | from the user's post on, over any run of the auction and then of the escrow: never more than the price the post named |
| Market.DepositForwarded | contracts/contracts/JobAuction.sol:226-266 | what leaves the auction is the session's deposit, with the auction as its user |
| Market.SessionIsWinners | contracts/contracts/JobAuction.sol:220-267 | the session a close starts has the least bid's provider at max(price / 3600, 1) wei a second, or the fallback at the ceiling, and four fifths of the money |
| Market.CloseGoesThroughIff | contracts/contracts/JobAuction.sol:220-267 | the exact condition of a close with the real escrow behind it: job, window, bidder or fallback, money, a free session id, and a provider who takes its part |
| Market.TakenIdBlocksClose | contracts/contracts/JobAuction.sol:266 | once anyone holds a session under a job's id, no close of that job goes through after any run of the escrow |
| Market.AuctionSessionNeverRefunds | contracts/contracts/JobAuction.sol:34-36 | of the session of a close nothing ever comes back to the auction: in every run the deposit is up-front part + streamed + remainder |
| Market.AuctionSessionCannotBeSlashed | contracts/contracts/JobAuction.sol:34-36 | and while money remains, slashing through the escrow reverts |
| Merkle.NextLevel | backend/internal/chain/eas.go:225-232 | the loop builds the level above, an unpaired last node hashed with itself |
| Merkle.MerkleRoot | backend/internal/chain/eas.go:221-234 | the recursion ends and computes the root |
| Merkle.HeightIsLog | backend/internal/chain/eas.go:221-234 | the number of levels above n leaves is log2 n rounded up |
| Merkle.EqualRootsMirror | backend/internal/chain/eas.go:221-242 | equal roots: each tree repeats the other's leaves node by node, whatever their sizes |
| Merkle.BareTreeCollides | backend/internal/chain/eas.go:225-231 | the bare tree does not bind its length, for any hash |
| Merkle.EveryLeafIncluded | backend/internal/chain/eas.go:221-242 | hashing up from any leaf through exactly ceil(log2 n) siblings gives the root |
| Merkle.OnlyLeavesIncluded | backend/internal/chain/eas.go:221-242 | and a digest with such a path at position i is leaf i |
| ActionLog.HashRoundTrip | backend/internal/agent/session.go:702-709 | decoding a logged "sha256:" string gives back the digest |
| ActionLog.HashStringDigits | backend/internal/agent/session.go:702-709 | a logged hash is "sha256:" and 64 lower-case digits, high half first |
| ActionLog.HexDigitExact | backend/internal/chain/eas.go:214-216 | digits count in either case, and nothing else does |
| ActionLog.DecodesUpToFirstBad | backend/internal/chain/eas.go:214-216 | decoding keeps the bytes before the first bad pair |
| ActionLog.DamagedLeaf | backend/internal/chain/eas.go:213-217 | a short or damaged hash is padded with zeros; the prefix may be missing |
| ActionLog.SmallestRoots | backend/internal/chain/eas.go:208-224 | an empty log has the zero root, a log of one call that call's hash |
| ActionLog.ComputeMerkleRoot | backend/internal/chain/eas.go:208-219 | the root over decoded hashes; the zero digest for an empty log |
| ActionLog.RootBindsLog | backend/internal/chain/eas.go:208-242 | two recorded logs of any lengths have equal roots if and only if they made the same calls with the same inputs |
| ActionLog.BindingApplies | backend/internal/chain/eas.go:208-242 | the hypotheses of the binding theorem hold for some hashes and two logs of different lengths |
| AgentRuns.AttestedRunsBind | backend/internal/api/handlers.go:653-661 | the same between any two runs of the loop, however far they got |
| SessionLoop.Session.ExecuteToolAndRecord | backend/internal/agent/session.go:665-684 | one call, one entry with its index and hash, one event |
| SessionLoop.Session.BootstrapInitialPlan | backend/internal/agent/session.go:643-663 | the fixed tool sequence and its two ways to fail |
| SessionLoop.Session.ProcessTools | backend/internal/agent/session.go:215-252 | the loop's own recording path does the same, and answers each call |
| SessionLoop.Session.EmitTexts | backend/internal/agent/session.go:172-178 | one message event for each non-empty text, in order |
| SessionLoop.Session.NoToolTurn | backend/internal/agent/session.go:191-212 | nudge twice, then bootstrap if nothing was logged and there is a repository, else finish |
| SessionLoop.Session.ToolsTurn | backend/internal/agent/session.go:213-259 | the counter is reset and the turn and its results join the transcript |
| SessionLoop.Session.Turn | backend/internal/agent/session.go:157-259 | one pass of the loop is one step of the turn machine |
| SessionLoop.Session.Run | backend/internal/agent/session.go:151-273 | after any number of turns the session's log, state, events and transcript are those of the turn machine |
| AgentOutcomes.AnswersAreOutcomes | backend/internal/agent/session.go:215-252 | in every run: each log entry holds the result or error of its own call, and each answer to the model is that result in JSON or "error: " and that error |
| AgentOutcomes.FailedCall | backend/internal/agent/session.go:159-166 | a failed model call ends the run with its error |
| AgentOutcomes.HasToolUseIff | backend/internal/agent/session.go:181-187 | a reply counts as silent exactly if none of its blocks is a tool call |
| AgentOutcomes.SilenceIsNudged | backend/internal/agent/session.go:188-194 | the first two silences in a row are nudged |
| AgentOutcomes.ThirdSilenceBoots | backend/internal/agent/session.go:197-211 | the third on an empty log with a repository runs the bootstrap |
| AgentOutcomes.BootTurnEnds | backend/internal/agent/session.go:200-209 | the fixed sequence is logged; a bad end fails the run with that error as its last event, a good one goes on |
| AgentOutcomes.BootstrapFollowsPlan | backend/internal/agent/session.go:643-663 | names, order and inputs of the fixed sequence, and its error |
| AgentOutcomes.BootedInEveryRun | backend/internal/agent/session.go:643-663 | in every run the log starts with that sequence as far as it went, or has none of it |
| AgentOutcomes.ThirdSilenceCompletes | backend/internal/agent/session.go:211-271 | otherwise the third silence completes the run |
| AgentEvents.ToolTurnOutcome | backend/internal/agent/session.go:169-259 | a turn with tool calls emits its texts, then each call's own events and its action, in order, and extends the transcript |
| AgentEvents.EventsAnnounceLog | backend/internal/agent/session.go:230-236 | in every run the announced actions are the log, if tools announce none themselves |
| AgentEvents.RunsClose | backend/internal/agent/session.go:261-271 | a run that is over has said so last, with its error or with the container of the last call that created one |
| AgentRuns.RunIsBounded | backend/internal/agent/session.go:151-272 | against any endless model, after any number of turns: calls <= 3T + 6, one bootstrap at most, entry i has index i and its own hash |
| AgentRuns.EndsIffFiniteToolTurns | backend/internal/agent/session.go:157-259 | a run ends if and only if it makes finitely many tool turns |
| AgentRuns.EndsWithin | backend/internal/agent/session.go:157-259 | with at most T tool turns it ends within 3T + 6 turns |
| AgentBound.BoundIsReached | backend/internal/agent/session.go:188-211 | the bound is exact: for every T there is a model against which a run makes T tool turns and 3T + 6 calls |
| AgentRuns.LogIsAppendOnly | backend/internal/agent/session.go:234-684 | the log after m turns is a prefix of the log after n >= m turns |
| Transcript.ConvertMessages | backend/internal/agent/session.go:580-633 | the translation loops compute the specified chat |
| Transcript.ConvertAssistant | backend/internal/agent/session.go:580-633 | texts joined by newlines, calls in order with their ids and arguments |
| Transcript.ConvertResults | backend/internal/agent/session.go:580-633 | one tool message for each result, in order |
| Transcript.PairedIsWellFormed | backend/internal/agent/session.go:580-633 | a transcript of answered calls translates to a chat where each call is answered at once, in order, and nothing else is |
| Transcript.TranscriptAtEveryCall | backend/internal/agent/session.go:214-259 | the chat of every model call of every run is well-formed, and its calls are the log |
| TranscriptContent.ChatTellsWhatHappened | backend/internal/agent/session.go:580-633 | at every model call: the chat starts with the system prompt and the user's prompt, and its tool messages tell what each logged call brought back |
| TranscriptContent.PlainsKept | backend/internal/agent/session.go:586-587 | plain messages keep order, role and text |
| TranscriptContent.AnswersKept | backend/internal/agent/session.go:616-626 | tool messages are the answers, in order |
| TranscriptContent.RepliesKept | backend/internal/agent/session.go:589-615 | assistant messages are the model's turns, in order, with texts and calls |
| TranscriptContent.ConvertConcat | backend/internal/agent/session.go:580-633 | the translation goes message by message |
| TranscriptContent.TextsAre | backend/internal/agent/session.go:593-596 | the texts of a turn are its non-empty text blocks, in order |
| TranscriptContent.JoinConcat | backend/internal/agent/session.go:609-611 | joined with one separator between neighbours |
| TranscriptContent.TextsAreEvents | backend/internal/agent/session.go:169-176 | and they are what the run emits as messages |
| FanOut.StreamsInEveryRun | backend/internal/api/bus.go:44-76 | a subscriber's stream is a subsequence of what was published while it was subscribed, and of what was emitted; buffers stay within 64; it is complete iff it was never full |
| FanOut.EmitLosesOnlyWhenFull | backend/internal/agent/session.go:635-641 | the session loses an event exactly when its buffer holds 64 |
| FanOut.PublishLosesOnlyWhenFull | backend/internal/api/bus.go:67-76 | a subscriber misses an event exactly when its channel holds 64 |
| FanOut.ComingAndGoing | backend/internal/api/bus.go:44-65 | joining starts from here, leaving and reading lose nothing |
| FanOut.Isolated | backend/internal/api/bus.go:52-76 | what others do, unsubscribing included, never changes a subscriber's stream |
| EventBusObjects.EventBus.Subscribe | backend/internal/api/bus.go:44-50 | a fresh channel at the end of the list |
| EventBusObjects.EventBus.Unsubscribe | backend/internal/api/bus.go:52-65 | that channel is spliced out, the others keep order and content, an empty list is dropped |
| EventBusObjects.EventBus.Publish | backend/internal/api/bus.go:67-76 | every channel of the session is offered the event; only a full one misses it |
| EventBusObjects.Channel.TrySend | backend/internal/api/bus.go:70-75 | a send that gives up on a full channel |
| EventBusObjects.PublishReaches | backend/internal/api/handlers.go:613-620 | a publish of the bus is a publish step of the fan-out |
| EventBusObjects.SubscribeJoins | backend/internal/api/bus.go:44-50 | a subscribe of the bus is a subscribe step of the fan-out |
| EventBusObjects.UnsubscribeLeaves | backend/internal/api/bus.go:52-65 | a splice of the bus is an unsubscribe step of the fan-out |
| SelectProvider.LessIsStrictWeak | backend/internal/chain/provider.go:184-190 | the comparator is a strict weak order, as a sort needs |
| SelectProvider.SortSlice | backend/internal/chain/provider.go:184-190 | in place: a permutation of the slice in comparator order |
| SelectProvider.Select | backend/internal/chain/provider.go:179-192 | an error without providers, else one with no cheaper rival and no equally cheap one with more jobs |
| SelectProvider.HeadIsBest | backend/internal/chain/provider.go:184-192 | this holds for whatever permutation a sort leaves |
| SelectProvider.PickFromRegistry | backend/internal/chain/provider.go:122-202 | over a reachable registry the pick is an active staked provider that no active one undercuts |

## Left out

- Arithmetic overflow other than `elapsed * ratePerSecond`: the other `uint256` values are sums of ETH or
  timestamps, far below 2^256.
- Solidity events, gas, ABI encoding, and ETH forced in by self-destruct, which would turn the balance equation
  into an inequality.
- OpenZeppelin's ownership beyond "the owner may name another address"; its zero-address check is not modelled,
  so `TransferOwnership(ZERO)` stands for renouncing.
- The escrow and the auction act on each other only through `CloseWithEscrow`; the registry behind
  `slashProvider` and behind a bid is a callee with arbitrary behaviour, respectively an arbitrary list.
- Of the auction's reading of the registry's longer record, the values it puts into the jobs and the flag: the
  check looks at the wallet and the stake, and what the flag word must be for the reading to succeed is modelled.
- The auction's own code as a callee: that it has no function that stops a session and none that receives is the
  hypothesis `Mute` of the two results about auction-started sessions; the stop and refund results are about
  users that can act and accept.
- A registry address without code: the compiler's check before the `try` call would then revert the slash, so
  `SlashRefundsFully` is about a deployment whose registry is a contract.
- Rates and prices of 2^256 and above, which no caller can send, are allowed by the model; the results cover them
  too, and the overflow witness uses the largest rate that can be sent.
- The evidence and state hashes of slashes and proofs, which the contracts only log.
- JobAuctionContract.JobAuction.PickWinner: works on the list of bids as one value, not on storage slots.
- ActionLog.RootBindsLog: binds calls, not outcomes, because results, errors and timestamps are not hashed.
- SessionLoop.Session.Run: the loop is watched for a given number of turns, any number, because a run against a
  model that calls tools forever has no end.
- SessionLoop.Session.ExecuteTool: what tools do is an arbitrary function of the call, its input and its
  position; their effects are a result or an error, events and the created container.
- The session's own buffer inside the loop: `Session` records what it tries to emit; dropping is in `FanOut`.
- Concurrency: locked sections of the bus and channel operations are atomic steps in any order; the
  confirmation channel and `Session.Confirm` are not modelled.
- SelectProvider.SortSlice: an in-place insertion sort stands for the library's sort; `HeadIsBest` covers any
  sorted permutation.
- The wording of the loop's messages, the GitHub URL found in a prompt and the JSON text of values are
  parameters.
- RPC, transaction signing, attestation submission, HTTP handlers, storage, containers, scanner and front ends.
