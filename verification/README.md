# A verified model of the Contentos chain core

This project models the state machine of contentos-go in Dafny 4.11 and proves what it keeps over
every run: the ledger and its economy, the reversible block store with the caches over it, the
parallel application of transactions, the stamina arithmetic and the bookkeeping of the consensus.
`dafny verify dfyconfig.toml` checks all of it.

## What is modelled

**Ledger.** `LedgerState` holds the tables that carry value, `Evaluators` and `Economist` say what
each operation and each per-block pass does to them, and `Ledger`, `Passes` and `BlockApply` do the
same in place, row by row and loop by loop, each method proved against its function. The books
(`LedgerInvariant`) have three parts:

- the sums: coins on accounts and contracts are the coin total; vest held, delivering, staked, pooled
  and waiting as bonus is the vest total; both totals with the ticket income are the initial supply
  plus what was minted;
- the records: stake and delegation totals of every account agree with the records and orders, vest
  covers what is borrowed, a power-down never pays more than was announced;
- the vote index: a producer's weight is the vest of its voters, its count their number.

`Holds(s, d)` says that they are right but for a debt `d`: vest that was lost, and for each producer
the vest of its voters that its weight misses. `Inv(s)` is the case without debt. `LedgerKeeps`,
`DelegationKeeps`, `ContractKeeps`, `MintKeeps`, `PassKeeps`, `CashoutKeeps`, `BlockPassKeeps` and
`BonusKeeps` carry it through every step, `LedgerRuns` through every run of blocks from genesis, with
no hypothesis on what the transactions do; `Rounds` is the consensus's rule for production rounds. A
voter whose producer is credited with less than the voter's own vest has a stale vote, and a change of
its vest panics; `VestMoves` tells from the state before a pass whether the pass meets one.
`OpEffects`, `BookEffects`, `ContractEffects` and `ProducerEffects` state what each operation does, and
exactly when it succeeds; `CashoutShares` and `PowerDownPlans` state how much cashouts and power-downs
pay.

**Block store.** `Storage` and `Database` model batches with revert logs, revisions, tags and tagged
sessions; `BlockIceberg` is proved to refine a list of snapshots, from the store after genesis on,
and `IdleBlocks` shows what becomes of blocks that write nothing. `History`, `Tapos` and `AuthCache`
follow the database through apply, revert and commit; `Discards` says what they are told when a pass
discards a block, and `ReplaySafety` drives a node through every run of such events.

**Parallel application.** `Patches` is the stack of database patches, `TransactionApply` runs the
operations of a transaction on it one by one, `Scheduler` splits a batch, `ParallelApply`,
`Interleaving`, `Confluence` and, read by read, `FineReads` prove that interleaving and map order do
not matter, and `BlockOrder` says when the order of the block is followed.

**Stamina and consensus.** `Stamina`, `ByteKeys`, `Checkpoint`, `Dynasties`, `Shuffle`, `SwitchFork`
and `Merkle`.

A panic is the outcome `Panic`. In a transaction it discards the transaction, in a pass the block.
Constants are those of the main network. Iteration orders of Go maps are arbitrary choices; orders of
database indexes are lists that hold each row once.

## What the code does not keep

- A contract's vest payment to a voter leaves the vote index behind (`ContractToUserVestIndex`, if and
  only if). The weight of a producer can then fall short of one voter's vest, and two things follow.
  A pass that changes that voter's vest discards the whole block (`BlockIff`, if and only if). Sharing
  out the ticket bonus stops half way, its panic is recovered and the error ignored
  (consensus/sabft.go:172), and the rest of the bonus is gone although the bonus was set to zero
  (`BonusLossIff` and `RunLossIff`, if and only if; `BonusIsLost` is such a run from genesis, made by
  the consensus's own rule for rounds).
- A block is announced to the caches of the transaction manager before its passes (app/trx_pool.go:581),
  and when a pass discards it nobody takes that back (app/trx_pool.go:157-175). The next block of that
  number is then taken for known: its transactions can be replayed (`ReplayAfterDiscard` for every run,
  `Replayed` from genesis; `WindowIff` and `ReplaySafe` have the condition). Its id does not enter the
  ring (`RingIff`, if and only if), and its key changes are not noticed (`FallBlock` and `SkipBlock`, if
  and only if; `DiscardedKey`, `SkippedKey`, `UnhealedKey`).
- The year number is 32 bits wide and moves on with every block after the last budgeted year; when it
  wraps, minting starts over and exceeds the lifetime budget (`MintKeepsBooks`, if and only if;
  `LifetimeExceeded`).
- A block that writes nothing leaves no revision once it is sunk. Reverting the block after it then
  leaves the content alone (`RevertBlock`, if and only if; `SnapshotLost`), and finalizing it is
  forgotten with a restart (`Restart`, if and only if; `FinalityLost`). Blocks of the chain always write,
  because they update the global properties.
- The outcome of a batch does not follow the block's order although the scheduler's comment says that
  dependent transactions are applied in order (`BlockOrderIff`).
- The search for the next checkpoint starts over at zero after the largest block number (`NextWraps`).
- After a failed switch the head of the fork database is the common ancestor, because the head to
  return to is read after it was moved; a block with a rejected producer ends the switch half way
  (`Switch`, with the exact condition for each outcome).
- A cached key is returned for a frozen account: freezing discards the cache entry, but the end of the
  block puts a key set in the same block back, and a reversion can restore the freeze
  (`FrozenInOneBlock`, `FrozenAgain`; the conditions of `ApplyBlock` and `BlockReverted` are exact).
- A fetcher created after a key change serves the new key when that change is reverted (`StaleKey`; the
  condition of `BlockReverted` is exact).
- Usages beyond 2^63 are misread by the signed stamina arithmetic (`ReadsBack`, `ChargeExactIff`, if and
  only if), and windows that no caller has round wrongly (`AddsExactlyIff`, `GrowsBeyondPrecision`).

- A power-down of less than twelve units, of less than six from the second hard fork on, has the rate
  zero and never pays; a larger one pays its rest in one instalment more if and only if the rest is no
  more than the rate (`ConvertPays`).
- Close to the largest block number the end of the stamina window wraps around, and a usage is
  forgotten at once (`WrappedWindow`).
- Banning an account switches its producer off, but switching a producer on does not ask for its
  reputation (`BannedOffIff`, if and only if; `BannedComesBack`).

## Model

| member | source | states |
|---|---|---|
| `Amounts.Add` | prototype/coin.go:20-27 | the overflow test, which compares with the wrapped sum, panics exactly on sums that do not fit 64 bits |
| `Amounts.Sub` | prototype/coin.go:29-35 | panics exactly when the subtrahend is larger |
| `Amounts.Mul` | prototype/coin.go:37-46 | the quotient test panics exactly on products that do not fit 64 bits |
| `OpEffects.TransferIff` | app/evaluator.go:311-338 | a transfer succeeds if and only if its own checks pass, whatever the index looks like, and then moves the amount from sender to receiver and changes no other row |
| `OpEffects.TransferToVestIff` | app/evaluator.go:797-825 | succeeds if and only if its own checks pass and the receiver’s vote is not stale; coins of the sender become vest of the receiver, in rows, totals and the weight of the receiver’s producer |
| `OpEffects.AccountCreateIff` | app/evaluator.go:246-300 | succeeds if and only if fee, balance and a free name and key are there; the creator pays the fee, the new account holds exactly it as vest, no other row changes |
| `OpEffects.StakeIff` | app/evaluator.go:1082-1141 | succeeds if and only if the balance covers it and the sender is not banned; both rows, the record and the three totals move by the amount, the freeze of the record starts over, other records stay |
| `OpEffects.UnStakeIff` | app/evaluator.go:1143-1186 | succeeds if and only if the record covers it and the freeze is over: neither account nor any total can underflow; the exact reverse of a stake in rows, record and totals |
| `BookEffects.AcquireTicketIff` | app/evaluator.go:1188-1245 | succeeds if and only if the balance pays for the tickets and the 32-bit ticket count does not overflow; the fee leaves the balance and the coin total and becomes ticket income |
| `BookEffects.SpendTicketsEffect` | app/evaluator.go:1307-1340 | the used tickets take their floored share of the income, never more than the income, into the producers’ bonus and the vest total |
| `BookEffects.VoteByTicketIff` | app/evaluator.go:1247-1341 | succeeds if and only if the account and the global count cover the tickets and the block’s producer has an account; exactly the used tickets and their share of the income move |
| `BookEffects.ConvertVestIff` | app/evaluator.go:844-867 | a power-down may be announced for exactly the vest that is neither borrowed nor the account fee; it starts over at the floor of a twelfth of the amount, of a sixth from the second hard fork on, is first due a week of blocks later, and nothing else changes |
| `BookEffects.DeliveryDueIff` | app/economist.go:759-768 | a recalled order falls due exactly when more than a week of blocks has passed since it was called back, wrap-around of block numbers aside, which is stated too |
| `PowerDownPlans.RowAfter` | app/economist.go:693-737 | on any state an instalment that is not stopped is the largest within rate, rest and own vest above the fee, and moves from vest to balance |
| `PowerDownPlans.PlanRun` | app/economist.go:669-740 | over any run of instalments, whatever happens in between while own vest covers the rest, the account has received the rate for each of them until the amount is reached |
| `PowerDownPlans.FirstDue` | app/evaluator.go:853-862 | the account is in the index of due power-downs exactly when more than a week of blocks has passed since the announcement |
| `PowerDownPlans.ConvertPays` | app/evaluator.go:844-867 | from the announcement on: twelve (later six) instalments pay all but less than one unit for each, the next one the rest if and only if the rest is no more than the rate; an amount below twelve (six) is never paid |
| `BookEffects.BookTotals` | app/evaluator.go:1370-1398 | summed over all accounts, what the order book says is lent, or borrowed, is the sum of the open orders |
| `BookEffects.LentIsBorrowed` | app/evaluator.go:1370-1398 | all vest lent is vest borrowed, and is covered by the vest of all accounts |
| `BookEffects.LendIff` | app/evaluator.go:1370-1398 | an order that the lender’s own vest covers is placed if and only if neither vote update meets a stale weight, the lender’s coming first; vest moves from lender to borrower and is booked on both |
| `BookEffects.RecallEffect` | app/evaluator.go:1414-1429 | calling an order back takes the vest from the borrower and books it as delivering to the lender |
| `BookEffects.DelegateVestIff` | app/evaluator.go:1343-1399 | a delegation succeeds if and only if its own checks pass and neither vote is stale, and adds exactly one order with its maturity and the two rows that book it |
| `BookEffects.UnDelegateVestIff` | app/evaluator.go:1401-1430 | undelegation succeeds if and only if its own checks pass and the borrower’s vote is not stale; only the order’s mark with its delivery block and the two rows change |
| `BookEffects.BpVoteIff` | app/evaluator.go:665-729 | a vote can be withdrawn if and only if it is cast and not stale; a new one needs exactly an active producer and a voter without a vote; the producer’s weight moves by the voter’s vest |
| `ContractEffects.ContractToUserIff` | app/trx_context.go:251-263 | a payment by a contract succeeds if and only if it is covered and the receiver exists; exactly the amount moves, the unchecked addition never wraps |
| `ContractEffects.UserToContractIff` | app/trx_context.go:282-295 | a payment to a contract succeeds if and only if it is signed and covered and the contract exists; exactly the amount moves |
| `ContractEffects.ContractToContractIff` | app/trx_context.go:297-310 | a payment between contracts succeeds if and only if both exist and it is covered, or they are the same; each balance moves by exactly the amount |
| `ContractEffects.ContractToUserVestIff` | app/trx_context.go:265-280 | a payment in vest succeeds if and only if it is covered and the receiver exists, stale or not: subtraction, addition and both totals never panic; coins become vest in row and totals |
| `ContractEffects.ContractDeployIff` | app/evaluator.go:869-933 | a contract is deployed if and only if its code is accepted and its owner not refused; a new one starts with nothing, an old one keeps its coins |
| `ProducerEffects.BpRegisterIff` | app/evaluator.go:575-640 | an account becomes a producer if and only if it is none yet, is not banned, holds 30000 coins of vest and proposes parameters in range; it starts switched on and without votes, no other changes |
| `ProducerEffects.BpEnableIff` | app/evaluator.go:642-663 | a producer can be switched exactly to what it is not, and only its switch changes |
| `ProducerEffects.SwitchedBack` | app/evaluator.go:642-663 | switching it back leaves the chain as it was |
| `ProducerEffects.SetReputationIff` | vm/vm_cosvm_native.go:298-312 | any existing account’s reputation can be set; the lowest one switches its producer off, nothing else does |
| `ProducerEffects.OpSwitches` | app/evaluator.go:575-663 | over all operations: only registering adds a producer, none is ever removed, and only switching it and banning its account touch its switch |
| `ProducerEffects.StaysOff` | app/evaluator.go:575-663 | a producer that is off stays off through any transaction that does not switch it on |
| `ProducerEffects.BannedOffIff` | app/evaluator.go:642-663 | that no banned producer is on is kept by every operation if and only if it does not switch a banned producer on |
| `ProducerEffects.BannedComesBack` | app/evaluator.go:642-663 | such an operation on a banned producer always succeeds |
| `LedgerInvariant.PutVestKeepsIndex` | app/evaluator.go:827-842 | the vote update leaves what each producer’s weight misses of the vest of its voters as it was |
| `LedgerInvariant.SkippedIndex` | app/trx_context.go:265-280 | a row written without the vote update adds exactly its gain to what the weight of its producer misses |
| `LedgerInvariant.PutVestIff` | app/evaluator.go:827-842 | the vote update panics if and only if the producer is credited with less than the voter’s own vest |
| `LedgerInvariant.NeverStale` | app/evaluator.go:827-842 | which cannot be while the weight misses nothing |
| `LedgerInvariant.VotesBounded` | app/evaluator.go:827-842 | the votes for one producer never outweigh the vest of all accounts |
| `LedgerKeeps.TransferKeeps` | app/evaluator.go:311-338 | transfer keeps all sums and books, and what the vote index misses, as they are |
| `LedgerKeeps.TransferToVestKeeps` | app/evaluator.go:797-825 | transfer to vest keeps all sums and books, and what the vote index misses, as they are |
| `LedgerKeeps.AccountCreateKeeps` | app/evaluator.go:246-300 | account creation, nothing in the books referring to the new account keeps all sums and books, and what the vote index misses, as they are |
| `LedgerKeeps.ConvertVestKeeps` | app/evaluator.go:844-867 | announcing a power-down keeps all sums and books, and what the vote index misses, as they are |
| `LedgerKeeps.BpRegisterKeeps` | app/evaluator.go:575-640 | registering a producer, which starts with no votes keeps all sums and books, and what the vote index misses, as they are |
| `LedgerKeeps.BpEnableKeeps` | app/evaluator.go:642-663 | switching a producer on or off keeps all sums and books, and what the vote index misses, as they are |
| `LedgerKeeps.BpVoteKeeps` | app/evaluator.go:665-729 | voting and withdrawing a vote keeps all sums and books, and what the vote index misses, as they are |
| `LedgerKeeps.StakeKeeps` | app/evaluator.go:1082-1141 | staking keeps all sums and books, and what the vote index misses, as they are |
| `LedgerKeeps.UnStakeKeeps` | app/evaluator.go:1143-1186 | unstaking keeps all sums and books, and what the vote index misses, as they are |
| `LedgerKeeps.AcquireTicketKeeps` | app/evaluator.go:1188-1245 | buying tickets keeps all sums and books, and what the vote index misses, as they are |
| `LedgerKeeps.VoteByTicketKeeps` | app/evaluator.go:1247-1341 | voting with tickets keeps all sums and books, and what the vote index misses, as they are |
| `LedgerKeeps.SetReputationKeeps` | vm/vm_cosvm_native.go:298-312 | setting a reputation, which may switch a producer off, keeps the invariant |
| `LedgerKeeps.StakeMoves` | app/evaluator.go:1082-1186 | the stake totals of every account and the global total stay the sums of the records |
| `DelegationKeeps.DelegateVestKeeps` | app/evaluator.go:1343-1399 | delegating keeps sums, order book and vote index |
| `DelegationKeeps.UnDelegateVestKeeps` | app/evaluator.go:1401-1430 | undelegating keeps sums, order book and vote index |
| `DelegationKeeps.RecallIff` | app/evaluator.go:1414-1429 | calling an order back panics if and only if the borrower’s vote is stale: no underflow behind the checks |
| `DelegationKeeps.OrderCovered` | app/evaluator.go:1414-1429 | what an order records is covered by the lent, borrowed, delivering and vest fields of the rows it names |
| `ContractKeeps.ContractDeployKeeps` | app/evaluator.go:869-933 | deploying keeps the invariant |
| `ContractKeeps.ContractToUserKeeps` | app/trx_context.go:251-263 | the unchecked additions never wrap: exactly the amount moves, and the invariant stays |
| `ContractKeeps.UserToContractKeeps` | app/trx_context.go:282-295 | the unchecked additions never wrap: exactly the amount moves, and the invariant stays |
| `ContractKeeps.ContractToContractKeeps` | app/trx_context.go:297-310 | the unchecked additions never wrap: exactly the amount moves, and the invariant stays |
| `ContractKeeps.ContractToUserVestKeeps` | app/trx_context.go:265-280 | paying vest from a contract moves exactly the amount and keeps all sums and books; what a voter receives joins what the index misses |
| `ContractKeeps.ContractToUserVestIndex` | app/trx_context.go:265-280 | it keeps the vote index if and only if the amount is zero or the receiver does not vote |
| `MintKeeps.MintedBound` | app/annual_mint/annual_mint_chain.go:7-26 | never more than the lifetime budget is minted, and all of it exactly when the twelfth year is closed |
| `MintKeeps.MintStep` | app/economist.go:126-154 | a mint never exceeds what the year has left, records what it creates, and moves to the next year exactly when the budget is used up, so every closed year minted its budget |
| `MintKeeps.YearBudget` | app/annual_mint/annual_mint_chain.go:7-26 | the budget of every year as a share of the supply, together 35 percent of it |
| `MintKeeps.MintPace` | app/economist.go:126-154 | while a year stays open one mint is its budget spread over 31536000 blocks, rounded down |
| `MintKeeps.YearPace` | app/economist.go:126-154 | a year never closes before its 31536000th mint, has closed at most 23 mints later, and has then minted exactly its budget |
| `MintKeeps.MintKeepsBooks` | app/economist.go:126-154 | the yearly books stay right if and only if the 32-bit year number does not wrap |
| `MintKeeps.LastNumberReached` | app/economist.go:126-154 | from any state of the books enough mints reach the largest year number, with all that was minted recorded |
| `MintKeeps.FirstYearAgain` | app/economist.go:126-154 | one mint later the number wraps, two later the first year is open again, and three later there is a mint |
| `MintKeeps.LifetimeExceeded` | app/annual_mint/annual_mint_chain.go:7-26 | from genesis on, enough blocks mint more than the lifetime budget |
| `MintKeeps.SplitExact` | app/economist.go:156-163 | the mint is split at the fixed rates without losing a unit |
| `VestMoves.MovedOne` | app/evaluator.go:827-842 | one more change of vest moves the row and the weight of its producer by the same amount |
| `VestMoves.CoveredOn` | app/economist.go:581-600 | whether two lists of vest changes go through one after the other can be told from the state before both |
| `PassKeeps.MintIff` | app/economist.go:119-200 | minting keeps the books, adds exactly the mint, and discards the block if and only if the vote of the block’s own producer is stale |
| `PassKeeps.MintShares` | app/economist.go:156-200 | where a mint goes, told from the total before and after: a tenth to the application pool, of three fifths three quarters to posts, 15 percent to replies and the rest to votes, all else to the producer |
| `PassKeeps.PayVest` | app/economist.go:172-186 | paying vest to an account panics if and only if its vote is stale, and opens the books by exactly the amount |
| `CashoutKeeps.RewardsWithinPool` | app/economist.go:65-73 | for any weights the rewards, each rounded down, add up to at most the pool, and to the exact share of the items but for less than one unit for each |
| `CashoutKeeps.ProportionExact` | app/economist.go:65-73 | the whole part of the exact share: from below and from above |
| `CashoutShares.CashoutShares` | app/economist.go:377-579 | every account that is not banned gains its exact share of the pool, rounded down once for each of its items; a banned one nothing; its row changes in nothing else |
| `CashoutShares.PoolShares` | app/economist.go:377-579 | the pool pays the exact share of the items it can pay, but for less than one unit for each |
| `CashoutShares.AllShares` | app/economist.go:377-579 | when no beneficiary is missing or banned it pays more than the exact share of all items less one unit for each |
| `CashoutShares.CashoutPaid` | app/economist.go:482-527 | the pool’s weight grows by that of the items, other pools stay, and every post notes exactly the rewards paid for it |
| `CashoutShares.DecayExact` | app/economist.go:253-268 | a block takes one part in 907200 off a pool’s weight, rounded down |
| `CashoutShares.DoWeights` | app/economist.go:270-375 | the weight of each pool after a block is the decayed one and the weight of its items |
| `CashoutKeeps.NoteKeeps` | app/economist.go:614-620 | the sum of a post’s application rewards never overflows: it is within what the pool has claimed |
| `CashoutKeeps.ProcessRewardIff` | app/economist.go:581-600 | a reward panics if and only if it meets a stale vote; banned or missing accounts get nothing |
| `CashoutKeeps.PayItemsIff` | app/economist.go:401-420 | the loop panics if and only if a payment meets a stale vote, those before it being made; otherwise every eligible account gains exactly the rewards of its items and the claims are what the accounts gained |
| `CashoutKeeps.CashoutIff` | app/economist.go:377-579 | the final subtraction from the pool cannot panic, the pool loses exactly what accounts gain, and the pool’s weight grows by that of the items, and the block is discarded if and only if a payment meets a stale vote, for each of the four cashouts |
| `BlockPassKeeps.DoIff` | app/economist.go:270-375 | decay and the four cashouts keep the books and discard the block if and only if a payment meets a stale vote, told from the state before them |
| `BlockPassKeeps.QuotaCovered` | app/economist.go:695-705 | a power-down instalment is covered by own vest above the fee, by the rate and by what was announced, and is the largest that is |
| `BlockPassKeeps.PowerDownOneIff` | app/economist.go:693-737 | power-down of an account panics if and only if its vote is stale; otherwise the largest instalment within rate, rest and own vest above the fee moves from vest to balance, in the row and the totals; the schedule ends when all is paid or only the fee is left, and is due a week of blocks later otherwise |
| `BlockPassKeeps.PowerDownAllIff` | app/economist.go:669-740 | the pass goes through if and only if no instalment meets a stale vote, touches no other row, and keeps the books |
| `BlockPassKeeps.DeliverOneIff` | app/economist.go:773-785 | a recalled order is paid in full to its lender and removed, unless the lender’s vote is stale |
| `BlockPassKeeps.DeliverAllIff` | app/economist.go:746-788 | the pass delivers each order of the list exactly once and removes exactly those, if and only if no payment meets a stale vote |
| `BlockPassKeeps.DueIsRecalled` | app/economist.go:759-768 | only recalled orders become due, while block numbers fit 63 bits |
| `BonusKeeps.ShareLoopLeaves` | app/trx_pool.go:1163-1181 | the loop over the scheduled producers stops at the first share that meets a stale vote; that row is written, its weight is not, and the rest is handed to nobody |
| `BonusKeeps.ShareTicketBonusKeeps` | app/trx_pool.go:1139-1182 | sharing out the bonus keeps sums and books but for exactly what it loses and skips |
| `BonusKeeps.BonusLossIff` | app/trx_pool.go:1139-1182 | nothing is lost if and only if no producer before the last one paid has a stale vote |
| `BonusKeeps.BonusExact` | app/trx_pool.go:1139-1182 | with a right index the recovered panic never happens: the whole bonus reaches the scheduled producers |
| `BonusKeeps.BonusShares` | app/trx_pool.go:1163-1181 | when no vote is stale each account gains one equal share, rounded down, for each time it is scheduled, the first what rounding leaves over as well; the bonus is used up |
| `LedgerRuns.OpKeeps` | app/evaluator.go:246-1430 | every successful operation keeps the sums and the books whatever the vote index looks like, and the index but for a contract’s vest payment to a voter |
| `LedgerRuns.OpKeepsIndex` | app/evaluator.go:246-1430 | a right index stays right if and only if the operation is not such a payment |
| `LedgerRuns.TransactionsKeep` | app/trx_pool.go:421-466 | a transaction that panics changes nothing, all others keep sums and books |
| `LedgerRuns.BlockIff` | app/trx_pool.go:485-609 | a block is discarded if and only if one of its passes meets a stale vote; otherwise it keeps sums and books but for what its bonus loses |
| `LedgerRuns.BlockSafe` | app/trx_pool.go:485-609 | with a right index no pass can discard a block, and it stays right while no contract pays vest to a voter |
| `LedgerRuns.RunKeeps` | app/trx_pool.go:485-609 | sums and books hold after every run of blocks, whatever contracts pay to whom, but for what was lost, which only grows |
| `LedgerRuns.RunLossIff` | app/trx_pool.go:485-609 | a run loses nothing if and only if every bonus it shares out reaches its producers |
| `LedgerRuns.SafeRunKeeps` | app/trx_pool.go:485-609 | without vest payments from contracts to voters the index is right after every run and no block is ever discarded |
| `LedgerRuns.RunGoesOn` | app/trx_pool.go:485-609 | the hypotheses on runs shut out nothing else: any transactions and items a registered producer puts into a block let the run go on |
| `LedgerRuns.SupplyOverRuns` | app/trx_pool.go:625-759 | over every run from genesis, coins and vest in all accounts, contracts, records and pools and what was lost are the initial supply plus what was minted, never above the total supply; nothing is lost if and only if every bonus reaches its producers |
| `Rounds.ScheduleRule` | app/trx_pool.go:971-1019 | at most 21 producers are scheduled, all active, the first producer of the chain only when no other is active |
| `Rounds.RuleIsOk` | consensus/sabft.go:165-186 | a block made by the consensus’s rule, which ends a round when the number says so and schedules those elected, is one the theorems on runs speak of |
| `LostBonus.BonusIsLost` | app/trx_pool.go:1139-1182 | ten blocks from genesis made by that rule, with the chain’s own fee and ticket price, after which vest is missing: at the end of the second round a producer that a contract paid in vest stops the sharing of the bonus |
| `Ledger.Tables.Transfer` | app/evaluator.go:311-338 | the transfer, writing row by row, ends in the state its function gives, or reports the panic |
| `Ledger.Tables.TransferToVest` | app/evaluator.go:797-825 | the transfer to vest, writing row by row, ends in the state its function gives, or reports the panic |
| `Ledger.Tables.AccountCreate` | app/evaluator.go:246-300 | the account creation, writing row by row, ends in the state its function gives, or reports the panic |
| `Ledger.Tables.ConvertVest` | app/evaluator.go:844-867 | the power-down announcement, writing row by row, ends in the state its function gives, or reports the panic |
| `Ledger.Tables.BpRegister` | app/evaluator.go:575-640 | the producer registration, writing row by row, ends in the state its function gives, or reports the panic |
| `Ledger.Tables.BpEnable` | app/evaluator.go:642-663 | the producer switch, writing row by row, ends in the state its function gives, or reports the panic |
| `Ledger.Tables.BpVote` | app/evaluator.go:665-729 | the producer vote, writing row by row, ends in the state its function gives, or reports the panic |
| `Ledger.Tables.Stake` | app/evaluator.go:1082-1141 | the stake, writing row by row, ends in the state its function gives, or reports the panic |
| `Ledger.Tables.UnStake` | app/evaluator.go:1143-1186 | the unstake, writing row by row, ends in the state its function gives, or reports the panic |
| `Ledger.Tables.AcquireTicket` | app/evaluator.go:1188-1245 | the ticket purchase, writing row by row, ends in the state its function gives, or reports the panic |
| `Ledger.Tables.VoteByTicket` | app/evaluator.go:1247-1341 | the ticket vote, writing row by row, ends in the state its function gives, or reports the panic |
| `Ledger.Tables.DelegateVest` | app/evaluator.go:1343-1399 | the delegation, writing row by row, ends in the state its function gives, or reports the panic |
| `Ledger.Tables.UnDelegateVest` | app/evaluator.go:1401-1430 | the undelegation, writing row by row, ends in the state its function gives, or reports the panic |
| `Ledger.Tables.ContractDeploy` | app/evaluator.go:869-933 | the deployment, writing row by row, ends in the state its function gives, or reports the panic |
| `Ledger.Tables.ContractToUser` | app/trx_context.go:251-263 | the payment by a contract, writing row by row, ends in the state its function gives, or reports the panic |
| `Ledger.Tables.ContractToUserVest` | app/trx_context.go:265-280 | the vest payment by a contract, writing row by row, ends in the state its function gives, or reports the panic |
| `Ledger.Tables.UserToContract` | app/trx_context.go:282-295 | the payment to a contract, writing row by row, ends in the state its function gives, or reports the panic |
| `Ledger.Tables.ContractToContract` | app/trx_context.go:297-310 | the payment between contracts, writing row by row, ends in the state its function gives, or reports the panic |
| `Ledger.Tables.SetReputation` | vm/vm_cosvm_native.go:298-312 | the reputation change, writing row by row, ends in the state its function gives, or reports the panic |
| `Ledger.Tables.UpdateBpVoteValue` | app/evaluator.go:827-842 | the vote index is repaired in place, or nothing is written |
| `Ledger.Tables.ApplyTransaction` | app/trx_pool.go:421-466 | the operations in order, with everything discarded on a panic |
| `Passes.StartMint` | app/economist.go:126-154 | the year bookkeeping, field by field, gives the year and amount of the function |
| `Passes.MintBlock` | app/economist.go:119-200 | the mint in place equals its function |
| `Passes.PayOne` | app/economist.go:401-420 | one reward in place equals its function |
| `Passes.PayAll` | app/economist.go:401-420 | the cashout loop in place equals its function |
| `Passes.CashoutPool` | app/economist.go:377-429 | a cashout in place equals its function |
| `Passes.DoCashouts` | app/economist.go:270-375 | decay and cashouts in place equal their function |
| `Passes.PowerDownAccount` | app/economist.go:693-737 | one power-down in place equals its function |
| `Passes.PowerDownDueAccounts` | app/economist.go:669-740 | the power-down loop in place equals its function |
| `Passes.DeliverDelegatedVests` | app/economist.go:746-788 | the delivery loop in place equals its function |
| `Passes.ShareBonus` | app/trx_pool.go:1139-1182 | the bonus loop in place, stopped by a panic, equals its function |
| `BlockApply.PushBlock` | app/trx_pool.go:155-194 | a block in place: all of it, or the tables as they were |
| `BlockApply.RunChain` | app/trx_pool.go:485-609 | every run of blocks from genesis over the tables: what circulates and what was lost is the initial supply plus what was minted; without vest payments from contracts to voters the whole invariant holds and every block is accepted |
| `Storage.BatchExact` | db/storage/revertible.go:313-379 | dropping puts before deletes and not issuing deletes of absent keys leaves the effect of a batch as it is |
| `Storage.RevertExact` | db/storage/revertible.go:333-371 | the revert log of a batch restores exactly the content before it |
| `Storage.ShrinkOrders` | db/storage/revertible.go:396-426 | after shrinking no put is followed by a delete of its key |
| `Storage.SessionReads` | db/storage/dbsession.go:54-128 | reading through a session is reading the store with the session’s changes applied |
| `Patches.Stack.Get` | db/storage/dbsession.go:73-91 | asking patch after patch down to the database gives what the changes of all patches, applied in order, leave there |
| `Patches.Stack.Write` | db/storage/dbsession.go:93-128 | a write is seen through its own patch and no patch below notices it |
| `Patches.Stack.Merge` | db/storage/dbpatch.go:59-61 | replaying the log of changes into the patch below changes nothing a reader sees, and nothing further below |
| `Patches.Stack.Store` | db/storage/dbsession.go:24-53 | replaying the last patch leaves in the database exactly what was seen through it |
| `Patches.Stack.Drop` | db/storage/dbpatch.go:11-21 | an abandoned patch leaves everything below as it was |
| `IcebergInvariant.OpenNewSound` | app/trx_pool.go:89-101 | the store after genesis, one tagged revision above an untagged one, stands for the genesis state alone |
| `IcebergInvariant.ViewIsLatest` | db/storage/dbsession.go:54-128 | a reader sees the latest snapshot, inside a block with the block’s writes on top |
| `IcebergInvariant.SinkSound` | db/storage/squash.go:62-84 | squashing the oldest block in memory makes one tagged revision whose log leads back one snapshot, or none when the block wrote nothing |
| `IcebergInvariant.SinkTagsBlock` | db/storage/revertible.go:313-379 | a sunk block can be reverted to if and only if it wrote something |
| `IcebergInvariant.RollbackSound` | db/storage/squash.go:86-109 | rolling back a tag drops exactly the blocks from it on, whatever they wrote |
| `IcebergInvariant.RebaseSound` | db/storage/revertible.go:180-216 | rebasing to a block’s tag keeps every snapshot from it on |
| `IcebergInvariant.RebaseFails` | db/storage/revertible.go:571-577 | a block without a revision is not found, and nothing changes |
| `IcebergInvariant.FinalizeSound` | db/storage/revertible.go:82-96 | squashing with reversion off leaves one revision that stands for the finalized block, or for the last one that wrote |
| `IcebergInvariant.RevertSound` | db/storage/revertible.go:117-169 | undoing the logs down to a tag restores the tagged snapshot |
| `IcebergInvariant.NothingToRevert` | db/storage/revertible.go:563-569 | when no block from the one before on wrote, the missing tag does no harm |
| `IcebergInvariant.ReopenSound` | db/storage/revertible.go:67-76 | after reopening the store stands for the chain without what was in memory and without the last blocks that wrote nothing |
| `BlockIceberg.BlockIceberg.constructor` | app/block_iceberg.go:51-81 | a new iceberg takes over exactly the chain in the store, with its finalized block |
| `BlockIceberg.BlockIceberg.SeesLatest` | app/block_iceberg.go:273-281 | between blocks the database content is the snapshot of the latest block |
| `BlockIceberg.BlockIceberg.BeginBlock` | app/block_iceberg.go:83-107 | succeeds exactly for the next number outside a block; content and snapshots stay; with the 128th block in memory the oldest are sunk until 127 are left, and none otherwise |
| `BlockIceberg.BlockIceberg.Sink` | app/block_iceberg.go:244-259 | moves the given number of blocks below the sea level, none of the database calls failing |
| `BlockIceberg.BlockIceberg.EndBlock` | app/block_iceberg.go:109-131 | a committed block adds its content as snapshot, even one that wrote nothing; a discarded one leaves the latest snapshot |
| `BlockIceberg.BlockIceberg.TagIff` | app/block_iceberg.go:244-259 | above the finalized block, a block in the store has a tag if and only if it wrote something |
| `BlockIceberg.BlockIceberg.RevertBlock` | app/block_iceberg.go:133-187 | restores exactly the content before the block, first or not, if and only if the block is in memory, or the one before it has a tag, or nothing from it on that is in the store wrote; otherwise the content stays that of the store; refuses exactly finalized, future and open cases |
| `BlockIceberg.BlockIceberg.FinalizeBlock` | app/block_iceberg.go:189-242 | changes no snapshot and no content, only what can be reverted; a block in the store is found there if and only if it wrote something |
| `BlockIceberg.Restart` | app/block_iceberg.go:51-81 | a restart yields the chain cut behind the last block in the store that wrote, with the same content; the finalized block stays finalized if and only if it has a tag |
| `BlockIceberg.Open` | app/trx_pool.go:89-109 | the first start: a valid iceberg over the genesis rows, so that block 1 can be applied and reverted |
| `IdleBlocks.SnapshotLost` | app/block_iceberg.go:157-174 | a run from genesis in which reverting the third block does not bring back what the second, which wrote nothing, left |
| `IdleBlocks.FinalityLost` | app/block_iceberg.go:189-219 | a run in which a finalized block can be reverted after a restart |
| `History.JoinChunk` | app/inblock_trxs.go:46-58 | cutting the stored blob gives back the signatures it was joined from |
| `History.CutJoin` | app/inblock_trxs.go:46-58 | the entry cut from the blob of a block holds exactly its signatures |
| `History.NewInBlockEntry` | app/inblock_trxs.go:46-58 | the loop over offsets cuts exactly the whole chunks of any blob |
| `History.InBlockTrxChecker.constructor` | app/inblock_trxs.go:70-80 | loading reads the rows of the window |
| `History.InBlockTrxChecker.BlockApplied` | app/inblock_trxs.go:97-121 | memory and table in place equal their functions: a known number is ignored, a new block enters and the oldest leaves |
| `History.InBlockTrxChecker.BlockReverted` | app/inblock_trxs.go:124-150 | memory and table in place equal their functions, for a reversion of any depth and any state |
| `History.InBlockTrxChecker.Has` | app/inblock_trxs.go:83-94 | finds a signature if and only if some entry in memory carries it |
| `History.FoundIsRecent` | app/inblock_trxs.go:83-94 | when memory is the window, that is if and only if one of the latest blocks carries it |
| `History.LoadInStep` | app/inblock_trxs.go:159-178 | loading leaves memory and table with exactly the window |
| `History.NoteInStep` | app/inblock_trxs.go:97-121 | after a block memory and table hold exactly the latest 61 blocks again |
| `History.ForgetInStep` | app/inblock_trxs.go:124-150 | after a reversion of any depth memory and table hold exactly the window of the shorter chain |
| `Discards.OwedShape` | app/trx_pool.go:155-194 | the caches are at most one block ahead of the chain, namely when a discarded block has not been taken back |
| `Discards.SureShape` | app/trx_pool.go:155-194 | all blocks before the first such number were announced as they stand |
| `Tapos.RoundUsesAll` | app/tapos.go:49-51 | 2048 consecutive blocks use every slot |
| `Tapos.SlotKept` | app/trx_pool.go:950-959 | blocks that do not use a slot leave it in the table |
| `Tapos.TaposChecker.constructor` | app/tapos.go:23-32 | all 2048 slots equal the table |
| `Tapos.TaposChecker.CreateBlockSummary` | app/trx_pool.go:950-959 | the table then stands for the chain with the new block |
| `Tapos.TaposChecker.BlockApplied` | app/tapos.go:65-80 | in place equals its function: the slots of new blocks are read from the table, a known number is ignored |
| `Tapos.TaposChecker.BlockReverted` | app/tapos.go:83-97 | in place equals its function: the slots of the blocks undone are read from the table before them |
| `Tapos.RingIff` | app/tapos.go:65-97 | over every run of blocks that stand, fall and are undone: the ring is the table if and only if every discarded block has been followed by a reversion at or below its number or by the next block of its slot, or has the id the table holds |
| `Tapos.WrongIsOwed` | app/tapos.go:65-97 | a slot can be wrong only for a discarded block that was not taken back, and for less than 2048 blocks |
| `Tapos.RunChecker` | app/tapos.go:65-97 | the checker driven through any such run is right under exactly that condition |
| `AuthCache.AuthFetcher.GetPublicKey` | app/auth.go:56-81 | a cached key is served as it is; otherwise the database’s key, unless the account is frozen; while the cache is right the key is the database’s |
| `AuthCache.AuthFetcher.Evict` | app/auth.go:48-52 | any eviction keeps the cache right |
| `AuthCache.AuthFetcher.ApplyBlock` | vm/vm_cosvm_native.go:314-321 | over a whole block with its key changes and freezes: no frozen account is cached afterwards if and only if none whose key the block set is frozen at its end |
| `AuthCache.AuthFetcher.BlockApplied` | app/auth.go:110-136 | caches and logs exactly the keys of a new block, the last one set of each account; a known number is ignored |
| `AuthCache.AuthFetcher.FallBlock` | app/trx_pool.go:577-604 | a block announced and then discarded leaves the cache right if and only if it set no key to anything new |
| `AuthCache.AuthFetcher.SkipBlock` | app/auth.go:110-136 | a block that stands on the number of a discarded one leaves the cache right if and only if no account that either names is cached with another key |
| `AuthCache.AuthFetcher.BlockReverted` | app/auth.go:139-156 | for any reversion, a discarded block included: what is still cached is right if and only if blocks without a log changed none of it; no frozen account is cached if and only if each one frozen in the restored table was named by a dropped log |
| `AuthCache.AuthFetcher.BlockCommitted` | app/auth.go:159-173 | dropping the logs of committed blocks keeps the cache right |
| `AuthCache.CoherentReverts` | app/auth.go:139-156 | the condition on blocks without a log is exact for every cache and every chain |
| `AuthCache.KeyKept` | app/auth.go:139-156 | an account no reverted block names has kept its key |
| `AuthCache.FrozenInOneBlock` | app/auth.go:56-81 | a run after which a frozen account is served: key set and account frozen in one block |
| `AuthCache.FrozenAgain` | app/auth.go:56-81 | another: the account is served, then the block that unfroze it is reverted |
| `AuthCache.StaleKey` | app/auth.go:139-156 | a fetcher created after a key change serves the new key once that change is undone |
| `AuthCache.DiscardedKey` | app/trx_pool.go:577-604 | a run in which the key set by a discarded block is served |
| `AuthCache.SkippedKey` | app/auth.go:110-136 | a run in which a key change in the block that follows it is not noticed |
| `AuthCache.UnhealedKey` | app/auth.go:139-156 | a run in which even reverting that block leaves the wrong key |
| `ReplaySafety.ExpirationBound` | app/trx_mgr.go:97-106 | although the bound wraps at 32 bits, a transaction is accepted if and only if it expires within 60 seconds of its block and that time fits 32 bits |
| `ReplaySafety.CheckBlockTrxs` | app/trx_mgr.go:323-393 | accepts a block if and only if each transaction passes all checks against the memory and no id repeats |
| `ReplaySafety.AliveIsRecent` | app/inblock_trxs.go:31-37 | the block of a transaction that is still alive is inside the window of 61 blocks |
| `ReplaySafety.WindowIff` | app/trx_pool.go:577-604 | over every run of blocks that stand, are discarded and are undone: memory and the tables at all heights are the window of the chain if and only if every discarded block has been followed by a reversion at or below its number |
| `ReplaySafety.ReplaySafe` | app/trx_mgr.go:523-539 | over every such run no signed transaction occurs twice among the blocks before the first discarded number; on the whole chain when no block stands on such a number |
| `ReplaySafety.ReplayAfterDiscard` | app/trx_pool.go:155-194 | after any run: of a block that stands on the number of a discarded one, every transaction is accepted again as long as it lives |
| `ReplaySafety.Replayed` | app/trx_pool.go:155-194 | such a run from genesis, with the replay on the chain |
| `ReplaySafety.Node.PushBlock` | app/trx_pool.go:485-609 | checked against the memory, announced, and then standing or discarded, with the table taken back and the memory not |
| `ReplaySafety.Node.PopBlock` | app/trx_pool.go:1036-1051 | the table goes back if there is such a block, and the window is told in any case |
| `ReplaySafety.RunNode` | app/trx_pool.go:155-194 | a node driven through any attempts has exactly the memory and tables of the run: its window is right under exactly the condition above, and no transaction occurs twice while no block stands on a discarded number |
| `Scheduler.FirstsDisjoint` | app/trx_sched.go:48-75 | two transactions that found their properties untouched do not overlap |
| `Scheduler.CountProps` | app/trx_sched.go:57-66 | counts the changers of every property and detects exactly the dependent transactions |
| `Scheduler.IsShared` | app/trx_sched.go:77-83 | the sum of the counts exceeds the number of properties if and only if another transaction shares one |
| `Scheduler.Recheck` | app/trx_sched.go:77-88 | whatever the order of the map, the groups are the dependent transactions followed by the shared ones, and one group per loner |
| `Scheduler.ScheduleTrxs` | app/trx_sched.go:24-98 | every schedule is one of the plans of the batch |
| `BlockOrder.BlockOrderIff` | app/trx_sched.go:7-98 | whatever transactions with these footprints do, under every schedule and interleaving database and receipts are those of the block’s order, if and only if the batch is not split or nothing in it is dependent |
| `BlockOrder.Completes` | app/trx_multi_apply.go:29-65 | every schedule has an interleaving that runs to the end |
| `BlockOrder.Schedules` | app/trx_sched.go:24-98 | every batch has a schedule |
| `ParallelApply.ApartRuns` | app/trx_multi_apply.go:46-65 | transactions that do not overlap each do what they would do alone |
| `ParallelApply.ApartEnds` | app/trx_multi_apply.go:46-65 | and their rows end up as each leaves them |
| `Interleaving.ExecInv` | app/trx_multi_apply.go:29-65 | in every interleaving every patch, receipt and database row is that of the groups applied alone |
| `Confluence.Confluent` | app/trx_multi_apply.go:29-65 | for every batch, whole or split, every map order and every interleaving the database and all receipts are those of one sequential order |
| `FineReads.Simulated` | app/trx_multi_apply.go:46-65 | every interleaving of single reads, ends of transactions and commits has one of whole transactions with the same database, patches and receipts |
| `FineReads.FineConfluent` | app/trx_multi_apply.go:29-65 | so the outcome is that of the same sequential order even when other groups commit between two reads of a transaction |
| `TransactionApply.Execute` | app/trx_pool.go:421-466 | code run on the youngest patch, stopped anywhere by a panic, reads and writes there what it would on a flat database, and leaves the patches below alone |
| `TransactionApply.RunOperations` | app/trx_pool.go:421-466 | the operations one by one on a patch of their own stop at the first panic, with the fees collected until then |
| `TransactionApply.ApplyOnPatch` | app/trx_pool.go:421-473 | the operations’ patch is merged or abandoned, stamina charged on the transaction’s patch, and nothing below changes |
| `TransactionApply.ApplySingle` | app/trx_multi_apply.go:52-77 | the patch below then reads all of the transaction or what it read before |
| `TransactionApply.AllOrNothing` | app/trx_pool.go:421-473 | whichever operation panics: status 200 if and only if none does, 500 if and only if one does and no fees were met; the database sees all operations and the charge, only the charge, or nothing |
| `TransactionApply.ApplyGroup` | app/trx_multi_apply.go:46-65 | a group’s patch over patches leaves the database and the receipts of its transactions one after the other |
| `TransactionApply.FailureIsolated` | app/trx_multi_apply.go:46-77 | a transaction that is not committed leaves the database and all other receipts as if it were not there |
| `Stamina.DivideCeil` | utils/resource_limit.go:121-128 | the least integer that is not below the quotient |
| `Stamina.CalculateEMA` | utils/resource_limit.go:130-157 | the in-place computation equals the function |
| `Stamina.AddsExactlyIff` | utils/resource_limit.go:130-157 | in every window and without decay, usages that the signed arithmetic represents add up exactly if and only if the two roundings stay below the precision |
| `Stamina.AddsExactly` | utils/resource_limit.go:130-157 | they do when twice the window less two is below the precision |
| `Stamina.AddsUpIff` | utils/resource_limit.go:130-157 | in such a window, as both callers have one, any two usages add up if and only if both are below 2^63 or they make up 2^63 |
| `Stamina.AddsSigned` | utils/resource_limit.go:130-157 | there they add up exactly as signed numbers, for all inputs |
| `Stamina.InexactBeyondBound` | utils/resource_limit.go:130-157 | a window beyond the bound, which no caller has, for which a unit is added |
| `Stamina.DecayNeverIncreases` | utils/resource_limit.go:141-152 | waiting never increases a usage, whatever it is, in windows up to the precision |
| `Stamina.GrowsBeyondPrecision` | utils/resource_limit.go:130-157 | in a larger window, which no caller has, reading a usage can increase it |
| `Stamina.ZeroAfterWindow` | utils/resource_limit.go:141-152 | after a full window nothing is left |
| `Stamina.DecaysInProportion` | utils/resource_limit.go:141-152 | inside the window what is left of a usage is the share of the window still to come, up to stated rounding, from below and from above |
| `Stamina.LaterReadsLess` | utils/resource_limit.go:130-157 | a later block never reads a larger usage, for all inputs and windows |
| `Stamina.WrappedWindow` | utils/resource_limit.go:141-152 | when the end of the window wraps around at 64 bits everything is forgotten at once |
| `Stamina.AllowanceRecovers` | utils/resource_limit.go:50-89 | an allowance comes back in proportion to the blocks that pass, and all of it after a window |
| `Stamina.UseMeans` | app/trx_context.go:89-140 | ten points for a byte, wrapping around, one for every hundred full steps of the processor |
| `Stamina.ReadsBack` | utils/resource_limit.go:130-157 | a stored usage reads back as itself if and only if it is at most 2^63, and else as what it lacks of 2^64 |
| `Stamina.ChargeExactIff` | utils/resource_limit.go:50-89 | a charge takes the use or all that is left; the allowance shrinks by no more than that, and by exactly that if and only if the usage left behind is at most 2^63 |
| `Stamina.SmallLimits` | utils/resource_limit.go:50-89 | limits up to 2^63 never leave more |
| `Stamina.LimitMisread` | utils/resource_limit.go:75-89 | a larger limit that is used up reads as hardly used |
| `Stamina.Accounts.DeductOne` | app/trx_context.go:89-140 | charges the lesser of the use and the free plus staked allowance, for all inputs; the allowance shrinks by exactly that if and only if the usages left behind are at most 2^63 |
| `Stamina.Accounts.DeductStamina` | app/trx_context.go:89-140 | does so for every caller in any order, skips missing accounts, touches no other |
| `ByteKeys.BigEndianOrder` | consensus/checkpoint.go:220-223 | the byte order of big-endian keys is the order of the numbers, and keys are distinct |
| `ByteKeys.BelowLimit` | consensus/checkpoint.go:81-86 | below the iteration limit are exactly the checkpoint keys other than the largest; no index key is |
| `Checkpoint.BFTCheckPoint.constructor` | consensus/checkpoint.go:60-75 | opens any store that holds a linked run of flushed commits, with nothing waiting |
| `Checkpoint.Restart` | consensus/checkpoint.go:60-75 | what was flushed is still there and still linked, what was waiting is not |
| `Checkpoint.BFTCheckPoint.Add` | consensus/checkpoint.go:134-160 | accepts exactly well-formed commits in range whose place is free, and keeps the next checkpoint right |
| `Checkpoint.BFTCheckPoint.Remove` | consensus/checkpoint.go:162-168 | panics exactly off the chain, and keeps the next checkpoint right |
| `Checkpoint.BFTCheckPoint.RemoveNextUncommitted` | consensus/checkpoint.go:193-196 | the next checkpoint is empty again |
| `Checkpoint.BFTCheckPoint.FlushOne` | consensus/checkpoint.go:90-123 | one linked commit moves from the cache to the store under its big-endian key |
| `Checkpoint.BFTCheckPoint.Flush` | consensus/checkpoint.go:88-132 | terminates, moves a prev-linked run of cached commits to the store, and stops at the target or where the cache has no next |
| `Checkpoint.LinkedMeans` | consensus/checkpoint.go:88-132 | each flushed commit builds on the block the one before proposed, the last on the last committed |
| `Checkpoint.GetNext` | consensus/checkpoint.go:220-240 | gives the stored commit with the least number from the wrapped successor on |
| `Checkpoint.NextIsLeastAbove` | consensus/checkpoint.go:220-240 | which is the least block number above the one asked for, below the largest number |
| `Checkpoint.NextWraps` | consensus/checkpoint.go:220-240 | at the largest number the search starts over at zero |
| `Dynasties.Dynasties.PushBack` | consensus/sabft.go:188-191 | a dynasty not below the last one, as after a block that failed behind its shuffle, joins the list and the history |
| `Dynasties.Dynasties.PopBefore` | consensus/dynasty.go:94-106 | removes exactly the leading dynasties not above the number and gives the last of them |
| `Dynasties.Dynasties.Purge` | consensus/dynasty.go:108-112 | the list again starts with the latest dynasty up to the irreversible block |
| `Dynasties.Dynasties.PopAfter` | consensus/dynasty.go:114-126 | undoing reversible blocks removes exactly their dynasties and leaves the one in force |
| `Dynasties.FrontIsLatest` | consensus/dynasty.go:69-72 | the front is the last dynasty not above the last irreversible block: all behind it are above, none before it is newer |
| `Shuffle.UpdateProducers` | consensus/sabft.go:210-231 | for every seed the order that seed gives, the same for names and keys: a permutation that keeps each name with its key |
| `Shuffle.Placed` | consensus/sabft.go:210-222 | position after position gets the producer that its own draw picks from those not placed yet |
| `Shuffle.RandomNumbers` | consensus/sabft.go:213-217 | numbers the generator gives for some seeds and positions |
| `SwitchFork.PopRounds` | consensus/sabft.go:1369-1376 | popping leaves exactly the dynasties of the blocks that stay |
| `SwitchFork.Sabft.ApplyBlock` | consensus/sabft.go:1362-1367 | a block that fails leaves chain and database, but may leave a dynasty behind |
| `SwitchFork.Sabft.PopBlock` | consensus/sabft.go:1369-1376 | chain, database, producers and dynasties are those before the block, whatever a failed block left behind |
| `SwitchFork.Sabft.SwitchBack` | consensus/sabft.go:1323-1340 | pushing the old branch again succeeds and restores it |
| `SwitchFork.OneEnd` | consensus/sabft.go:1279-1360 | outcome and stopping place are determined by the branch; it is a switch if and only if every block is accepted by the producers then in force and applies |
| `SwitchFork.Sabft.constructor` | consensus/sabft.go:331-338 | a node at genesis is valid |
| `SwitchFork.Sabft.ApplyBranch` | consensus/sabft.go:1294-1322 | pushes the new branch exactly as far as its trial goes |
| `SwitchFork.Sabft.Switch` | consensus/sabft.go:1279-1360 | wherever the fork head is, the outcome is that of the branch’s trial on the ancestor: switched if and only if every block passes, half done if and only if the first to stop has a rejected producer, back if and only if it fails to apply, and then chain, database, producers and dynasties are as before but the fork head is the ancestor |
| `Merkle.HashLevel` | prototype/signed_block.go:83-94 | one level overwrites the array with the next level of the tree |
| `Merkle.CalculateMerkleRoot` | prototype/signed_block.go:69-100 | the overwriting loop computes the level-by-level root |
| `Merkle.RootIsTree` | prototype/signed_block.go:82-96 | which is the root of the recursive tree with a full left subtree, for every list |
| `Merkle.RootInjective` | prototype/signed_block.go:69-100 | for a fixed count and an injective pair hash the root determines the leaves |

## Left out

- Posts, replies, follows, reports and free votes: they move no value; the weights and beneficiaries that fall due in a block are parameters of the cashouts, and of a post only its application rewards are kept.
- Producer updates, account updates and the free tickets of an epoch: they move no value; fees and prices of a new round are parameters of a block.
- Checks over tables that are not modelled (parameter ranges, ticket records, contract code, signatures): boolean parameters of the operations.
- WASM execution: only the injected transfers are modelled.
- OpKeeps: a contract's call is modelled by its transfers one by one, because the virtual machine is not part of this model.
- The number of tickets: the books cover what tickets cost and earn, not how many the global counter says are left.
- Voter and block counters of a producer are unbounded numbers in the model.
- BlockIff: asks for block numbers below 2^63 - 1, the marker of orders not recalled, for a year number below 2^32 - 1, where MintKeepsBooks shows the books to end, and for registered producers.
- The order in which a sorted index lists rows is any order, and is given with the block.
- Revision numbers, block numbers of the iceberg and of the caches are unbounded; decimal tags of blocks are modelled by the numbers themselves.
- Direct writes to the store below all sessions and iteration over a session or a patch are not modelled.
- BlockApplied: blocks are consecutive, as the iceberg enforces; caches are stated at block boundaries.
- PopBlock: reversions aim above the last finalized block, as all callers in the consensus do.
- ByRule: the producers the consensus holds in memory are the scheduled ones, as restoreProducers reads them; which of the scheduled producers makes a block depends on wall-clock slots.
- Confluent: for a batch that is split it asks transactions to read and write only rows of their declared properties and to read otherwise only rows no transaction of the batch writes.
- FineConfluent: a transaction is any code whose next read follows from the answers before; what it reads of its own writes it knows without asking.
- The dynamic adjustment of the daily stamina and the per-user maximum from stakes: simple arithmetic; the limits are parameters.
- DecayNeverIncreases: stated for windows up to the precision; GrowsBeyondPrecision shows a larger one in which it fails.
- DecaysInProportion: for usages below 2^63, which the signed arithmetic represents (ReadsBack), and windows up to the precision (GrowsBeyondPrecision).
- ConvertPays: between two instalments anything may happen but a new announcement, as long as own vest above the fee covers what is left; without cover, PowerDownOneIff gives each instalment.
- Switch: branches come from the fork database as lists down to the common ancestor; commits handled after a successful switch are not part of it.
- Validation of commits, votes, slots and block signatures, the block log, the fork database itself, networking, storage engines and wall-clock behaviour.
- Waiting and fetched pools of the transaction manager: their cleanup at app/trx_mgr.go:582-587 drops entries that have not expired, so there is no exactly-once delivery to prove.
- Text forms of coins: prototype/coin.go:86-91 reads the integer part for the fraction too, so reading back what was written does not hold; no other part depends on it.
