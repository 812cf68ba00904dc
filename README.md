# ibet money core in Dafny

A model of the parts of the ibet betting app that handle money. Users stake
whole multiples of 10 on one option of a bet. The stakes form a pool. A
commission is taken from the pool, and the rest (the prize pool) is paid out
to the stakes on the winning option in proportion to their size.

The store is a `Store.Database` object with four tables:

- `users`: each row holds a nullable balance and an admin flag.
- `history`: the append-only payment_history ledger.
- `bets`: keyed by id.
- `participations`: the stakes.

The store also holds `nextBetId`, the id the bets table's sequence hands
out next. `Store.Database.Valid` keeps it above every stored bet id. The
constructor establishes it, and every method that changes the store
requires it and keeps it, so a new bet never overwrites an old one.

Each database transaction of the application is one method with
`modifies db`. Its writes are buffered and committed at the end, so a
transaction that fails leaves every table as it was. Each such method is
tied by its postcondition to a pure function of the old state. The
properties are proved as lemmas about those functions.

Modules follow the source files:

| module | source |
|---|---|
| `Types`, `Store`, `Stakes` | row shapes, the tables, and folds over stakes shared by every file |
| `PrizePool` | src/lib/prize-pool.ts: option parsing, pool calculator, proportional distribution, the settling transaction `distributePrizes` |
| `Balance` | src/lib/balance.ts: balance check, `updateBalance`, the stake rule, stake debit and prize credit |
| `BalanceValidation` | src/lib/balanceValidation.ts: guarded increment/decrement, stake predicate, ledger append, participation check chain |
| `AdminBetsRoute` | src/app/api/admin/bets/route.ts: POST (create), PUT (status, rate, completion) and the route's own `distributePrizes` |
| `BetsRoute` | src/app/api/bets/route.ts: the paged listing with pool figures and option totals, and POST |
| `ParticipationModal` | src/components/BetParticipationModal.tsx: the client-side guards before a participation is sent |
| `BetCard` | src/components/BetCard.tsx: option statistics, the user's participation, the prize shown, the action button |

Currency is `real`. That is exact for the code that uses `Prisma.Decimal`.
For the code that uses JavaScript `number` it is an idealisation.

The commission rate column is nullable, and each caller reads a NULL rate
differently:

- prize-pool.ts uses `rate || 1.0`. A Decimal object is truthy even when it
  is 0, so only NULL falls back to 1 percent. A stored rate of 0 stays 0.
  This follows the code, not the reading under which "0 becomes 1".
- The admin route's own distribution uses `Number(rate)`. NULL gives 0.
- The public listing uses `rate ?? 0`. NULL gives 0.
- The public POST uses `?? 1.0` when it stores a new bet.

Both routes store options as `{id, text}` objects. The option type guard in
prize-pool.ts asks for a string `name`, so for every bet the routes create,
`parseOptionsFromJson` yields the empty list. The pool breakdown is then
empty. `AdminBetsRoute.NumberedOptionsAreNotParsed` proves this as a fact
about the code as written.

## Model

| member | source | states |
|---|---|---|
| Types.ParseStatus | src/app/api/admin/bets/route.ts:216-220 | exactly the three strings active, locked and completed are statuses |
| Types.Shift | src/lib/prize-pool.ts:235-241 | an SQL increment moves a stored balance by exactly the delta and keeps a NULL balance NULL |
| Store.Database.ParticipationsOf | src/lib/prize-pool.ts:159-162 | a participation is loaded with a bet exactly when its bet id is that bet |
| Store.ForBetCounts | src/lib/prize-pool.ts:159-162 | each participation of the bet is loaded as often as the table holds it, any other never |
| Store.ForBetAppend | src/lib/prize-pool.ts:159-162 | the loaded rows keep table order |
| Stakes.OnOption | src/lib/prize-pool.ts:178 | the winners filter keeps a participation exactly when it is on the option, and never yields more rows than it was given |
| Stakes.OffOption | src/lib/prize-pool.ts:260 | the losers filter keeps a participation exactly when it is on any other option |
| Stakes.OptionSplitCounts | src/lib/prize-pool.ts:178 | a participation on the option is a winner as often as it occurs in the list, any other one a loser as often |
| Stakes.OptionSplitPartitions | src/lib/prize-pool.ts:178 | the winners and the losers together are the whole list as a multiset, so the two counts add up to the number of participations |
| Stakes.OnOptionAppend | src/lib/prize-pool.ts:178 | the winners filter keeps list order: filtering two stretches of a list gives the first stretch's winners, then the second's |
| Stakes.OffOptionAppend | src/lib/prize-pool.ts:260 | the losers filter keeps list order |
| Stakes.TotalSplitsByOption | src/lib/prize-pool.ts:173-179 | the stakes on the winning option plus the rest add up to the whole pool |
| Stakes.StakesOnOptionBounded | src/lib/prize-pool.ts:84-85 | with no negative stake, one option's total lies between 0 and the pool |
| PrizePool.ParseOptionsFromJson | src/lib/prize-pool.ts:35-58 | the result is the input array when every element has a numeric id and a string name, otherwise empty; every returned element passes the guard |
| PrizePool.RateOrDefault | src/lib/prize-pool.ts:76 | a NULL rate becomes 1 percent; any stored rate, 0 included, is kept |
| PrizePool.BreakdownOf | src/lib/prize-pool.ts:83-96 | an entry's amount and count are those of the stakes whose option id equals the JSON id; the ratio times the amount is the prize pool when the amount is positive, else the ratio is 0 |
| PrizePool.PoolInfo | src/lib/prize-pool.ts:75-96 | the total is the sum of stakes, commission plus prize pool is the total, the commission is total·rate/100, and there is one breakdown entry per parsed option, in order |
| PrizePool.PoolInfoBounds | src/lib/prize-pool.ts:75-96 | with a rate in [0,100] and no negative stake, the commission, the prize pool and every option total lie between 0 and the pool |
| PrizePool.CalculatePoolInfo | src/lib/prize-pool.ts:63-77 | fails with 'Bet not found' exactly for an unknown bet; otherwise the pool figures of that bet's stakes, its rate and its options, so PoolInfoBounds applies to what it returns |
| PrizePool.GetBetCommissionRate | src/lib/prize-pool.ts:334-341 | the stored rate, or 1 percent when the bet is unknown or its rate is NULL |
| PrizePool.ShareOf | src/lib/prize-pool.ts:136-145 | a winner's ratio times the winners' total is their stake, and their amount is the prize pool times the ratio |
| PrizePool.PrizeDistributionOf | src/lib/prize-pool.ts:129-146 | empty when the winning option holds no stake; otherwise one share per winning participation, in order |
| PrizePool.DistributionSharesPrizePool | src/lib/prize-pool.ts:136-146 | the win ratios add up to 1 and the amounts add up to exactly the prize pool |
| PrizePool.SharesAddUp | src/lib/prize-pool.ts:136-146 | among winners holding some stake, the shares' ratios add up to 1 and their amounts to the prize pool |
| PrizePool.CalculatePrizeDistribution | src/lib/prize-pool.ts:109-134 | fails exactly for an unknown bet; otherwise the shares of that bet's winners, none when the winners' total is 0 |
| PrizePool.CalculatorsAgree | src/lib/prize-pool.ts:63-146 | when the winning option holds stake, the distribution's ratios add up to 1 and its amounts to exactly the prize pool calculatePoolInfo reports for the bet |
| PrizePool.Floor2 | src/lib/prize-pool.ts:223 | rounding down to a cent never rounds up, loses less than a cent, and keeps a non-negative value non-negative |
| PrizePool.WinPrize | src/lib/prize-pool.ts:222-223 | a paid prize is at most the exact share and less than a cent below it |
| PrizePool.WinRow | src/lib/prize-pool.ts:244-254 | a bet_win row whose after-balance minus before-balance is its amount |
| PrizePool.LossRow | src/lib/prize-pool.ts:267-277 | a bet_loss row of minus the stake whose balance does not move |
| PrizePool.Closed | src/lib/prize-pool.ts:282-293 | the bet row ends completed, with the winning option and completion time, and keeps its title, options and rate |
| PrizePool.PayWinnersKeepsKeys | src/lib/prize-pool.ts:226-232 | the winners loop succeeds exactly when every winner has a user row, and never adds or removes a user |
| PrizePool.PayWinnersBalances | src/lib/prize-pool.ts:234-241 | every user's balance moves by exactly the prizes paid to them, and nobody else's moves |
| PrizePool.PayWinnersLedger | src/lib/prize-pool.ts:243-254 | the old rows are kept, and exactly one bet_win row is appended per winner, in order, with the prize and matching before/after snapshots |
| PrizePool.PrizeTotalBelowShares | src/lib/prize-pool.ts:221-257 | the prizes add up to at most the exact shares, and fall short by less than a cent per winner |
| PrizePool.PrizeTotalNonNegative | src/lib/prize-pool.ts:256 | with non-negative stakes and prize pool, the distributed amount is not negative |
| PrizePool.SettleIsExactlyOnce | src/lib/prize-pool.ts:168-170 | after a successful settlement the bet is completed with the winning option, and settling it again fails with 'Bet already completed' |
| PrizePool.SettleEmptyPool | src/lib/prize-pool.ts:182-198 | a bet without stake is completed with every total 0, no ledger change and the result {0,0,0} |
| PrizePool.SettleWithoutWinners | src/lib/prize-pool.ts:200-216 | stake but none on the winning option: the ledger is unchanged, the prize pool is recorded undistributed, and 0 is reported distributed |
| PrizePool.SettleAbortsOnMissingWinner | src/lib/prize-pool.ts:230-232 | a winner without a user row aborts the whole settlement |
| PrizePool.SettleConservesMoney | src/lib/prize-pool.ts:173-175 | with a rate in [0,100], commission plus prize pool is the pool, and the amount distributed lies between 0 and the prize pool |
| PrizePool.PrizesWithinPrizePool | src/lib/prize-pool.ts:218-257 | the floored prizes add up to at most the prize pool, and less than a cent per winner is left over |
| PrizePool.PayoutBalances | src/lib/prize-pool.ts:221-279 | winners' balances rise by exactly their prizes; the losers loop changes no balance |
| PrizePool.PayoutLedger | src/lib/prize-pool.ts:243-279 | the ledger gains the win rows and then one loss row, with an unchanged balance, per loser whose user row exists |
| PrizePool.SettleRecordsPayout | src/lib/prize-pool.ts:218-299 | a settlement with winners commits exactly the payout, closes the bet, and reports the pool, the number of winners and the sum of the prizes |
| PrizePool.LossRowsAreAudit | src/lib/prize-pool.ts:259-279 | at most one row per loser, each a bet_loss of minus the stake with before = after |
| PrizePool.SettledPrizeIsFlooredShare | src/lib/prize-pool.ts:136-145 | each settled prize is the floor to a cent of the share calculatePrizeDistribution computes for that winner |
| PrizePool.PayWinnersLoop | src/lib/prize-pool.ts:218-257 | the loop computes the winners fold, and its running total is the sum of the prizes |
| PrizePool.RecordLosses | src/lib/prize-pool.ts:259-279 | the loop appends exactly the loss rows |
| PrizePool.DistributePrizes | src/lib/prize-pool.ts:152-300 | fails without change for an unknown or completed bet or a missing winner; otherwise it commits exactly what Settle computes and leaves the bet completed |
| PrizePool.SettleTwice | src/lib/prize-pool.ts:168-170 | two calls in a row: the second always fails, with 'Bet already completed' when the first succeeded |
| Balance.ValidateBalance | src/lib/balance.ts:25-54 | an unknown user fails with balance 0; success exactly when the amount is covered, with the new balance current − amount; otherwise 'Insufficient balance' |
| Balance.Apply | src/lib/balance.ts:88-98 | debit and bet_loss fail exactly when the balance is below the amount; credit and bet_win add, every other type subtracts |
| Balance.HistoryRow | src/lib/balance.ts:110-121 | the ledger row copies the operation's fields and the before/after balances |
| Balance.UpdateBalance | src/lib/balance.ts:68-140 | on failure nothing is written and both returned balances are 0; on success the balance is written once and one matching ledger row is appended |
| Balance.CheckedDebitNeverOverdraws | src/lib/balance.ts:89-91 | a checked debit succeeds exactly when it is covered and never leaves a negative balance |
| Balance.AdminAdjustmentIsUnchecked | src/lib/balance.ts:89-96 | an admin_adjustment always succeeds and subtracts, even below 0 |
| Balance.UpdateKeepsBalancesNonNegative | src/lib/balance.ts:86-107 | any update other than an admin_adjustment, by a non-negative amount, keeps every balance non-negative |
| Balance.UpdateRowMatchesBalance | src/lib/balance.ts:98-121 | the row's after − before is ±amount and equals the balance written |
| Balance.ValidateBalanceAgreesWithUpdate | src/lib/balance.ts:25-54 | validateBalance accepts a debit exactly when updateBalance would, with the same new balance |
| Balance.GetUserBalance | src/lib/balance.ts:147-154 | the stored balance, 0 for NULL or an unknown user |
| Balance.MultipleOf10Witness | src/lib/balance.ts:169 | `amount % 10 === 0` holds exactly for whole multiples of ten |
| Balance.ValidateBetAmount | src/lib/balance.ts:164-174 | valid exactly for amounts of at least 10 that are multiples of 10; the minimum error is reported first |
| Balance.ProcessBetParticipation | src/lib/balance.ts:179-203 | an invalid amount is reported with nothing written; otherwise it performs exactly one debit of the amount referencing the bet; the bets and participations tables and the id sequence are untouched |
| Balance.StakeDebitIsSafe | src/lib/balance.ts:179-203 | a stake that is debited is at least 10 and leaves a non-negative balance |
| Balance.ProcessBetWinnings | src/lib/balance.ts:209-221 | one bet_win credit of the prize, which fails only for an unknown user; the bets and participations tables and the id sequence are untouched |
| BalanceValidation.ValidateAndUpdate | src/lib/balanceValidation.ts:11-48 | 'User not found' exactly for an unknown user; 'Insufficient balance' exactly for an uncovered debit; otherwise before is the balance (NULL as 0) and after − before is ±amount, as numbers (the corrected result; see Findings) |
| BalanceValidation.ValidateAndUpdateBalance | src/lib/balanceValidation.ts:11-48 | a failure writes nothing; success moves the stored balance by the signed amount and changes nothing else |
| BalanceValidation.StoredBalanceMatchesReturned | src/lib/balanceValidation.ts:33-48 | the stored balance equals the returned after-balance unless the balance was NULL, which stays NULL |
| BalanceValidation.AfterAsWritten | src/lib/balanceValidation.ts:27-48 | as written, a credit on a stored balance returns the concatenation of the Decimal's digits and the amount's; a debit or a NULL balance returns the number |
| BalanceValidation.CreditReturnsConcatenation | src/lib/balanceValidation.ts:27-48 | balance 100, credit 50: the helper returns "10050" while the stored balance becomes 150 |
| BalanceValidation.DebitNeverOverdraws | src/lib/balanceValidation.ts:29-31 | an accepted debit leaves a non-negative balance |
| BalanceValidation.StakeRulesAgree | src/lib/balanceValidation.ts:54-56 | this stake rule accepts exactly the amounts the rule in balance.ts accepts |
| BalanceValidation.CreatePaymentHistoryEntry | src/lib/balanceValidation.ts:61-87 | appends exactly one row, every field copied from the argument, and changes no other table |
| BalanceValidation.FindIn | src/lib/balanceValidation.ts:140-141 | a found option is an element with that id; nothing is found exactly when no element is null or has the id |
| BalanceValidation.FindInLocates | src/lib/balanceValidation.ts:140-141 | an element with the id and no null before it is found |
| BalanceValidation.FindOptionInNumbered | src/lib/balanceValidation.ts:140-141 | in options numbered 1..n, id k finds the k-th option for k in 1..n and nothing otherwise |
| BalanceValidation.ValidateBetParticipation | src/lib/balanceValidation.ts:93-191 | valid exactly when every check passes; each check in turn (amount, bet, active, option, user, funds), when the earlier ones pass and it fails, gives its own message and the bet and user rows read so far; an exception from `find` gives 'Validation failed' |
| BalanceValidation.AcceptedParticipationCanBeDebited | src/lib/balanceValidation.ts:93-180 | a participation these checks accept is accepted by processBetParticipation and debited without overdraft |
| AdminBetsRoute.AdminCheck | src/app/api/admin/bets/route.ts:80-94 | 401 without a session, 403 'Admin access required' unless the caller is an admin, and no error exactly for an admin |
| AdminBetsRoute.CreateError | src/app/api/admin/bets/route.ts:100-113 | no error exactly for a title, an array of at least two options and a numeric rate in [0,100]; errors are 400 |
| AdminBetsRoute.NumberOption | src/app/api/admin/bets/route.ts:116-119 | the option becomes {id: index+1, text}, where text is the truthy `.text` and otherwise the option itself |
| AdminBetsRoute.NumberOptions | src/app/api/admin/bets/route.ts:116-119 | numbering succeeds exactly when no option is null, and keeps the length and order |
| AdminBetsRoute.NumberedOptionsAreOneToN | src/app/api/admin/bets/route.ts:116-119 | the stored options are found by id exactly for ids 1..n |
| AdminBetsRoute.NumberedOptionsAreNotParsed | src/app/api/admin/bets/route.ts:116-126 | the stored options never pass the option type guard of prize-pool.ts |
| AdminBetsRoute.Round2 | src/app/api/admin/bets/route.ts:127 | the rounded rate is a whole number of cents within half a cent of the rate |
| AdminBetsRoute.RoundedRateInRange | src/app/api/admin/bets/route.ts:108-127 | rounding keeps a rate in [0,100] in [0,100] |
| AdminBetsRoute.NewBet | src/app/api/admin/bets/route.ts:122-130 | the new row is active, with the given title and creator, the numbered options, the rounded rate, an empty description stored as NULL, totals, commission and prize pool 0, and no winner or completion time |
| AdminBetsRoute.CreateBet | src/app/api/admin/bets/route.ts:78-166 | authorisation errors, then 400 validation errors, then 500 on a null option, each without writing; a request that passes the checks is answered 201 exactly when no option is null, with the new row stored under the next id, which no stored bet holds, and nothing else changed |
| AdminBetsRoute.LocalPrize | src/app/api/admin/bets/route.ts:339-340 | the route pays the unrounded share calculatePrizeDistribution computes |
| AdminBetsRoute.Present | src/app/api/admin/bets/route.ts:336-337 | the winners that are paid are exactly those with a user row |
| AdminBetsRoute.PresentCounts | src/app/api/admin/bets/route.ts:335-337 | a winner with a user row is paid as often as it occurs among the winners, any other never |
| AdminBetsRoute.PresentAppend | src/app/api/admin/bets/route.ts:335-337 | the paid winners keep the winners' order |
| AdminBetsRoute.LocalPayEffects | src/app/api/admin/bets/route.ts:335-360 | no user row is added or removed; each balance moves by exactly the unrounded prizes paid to that user; the ledger keeps its rows and gains one row per winner with a user row |
| AdminBetsRoute.LocalPayRows | src/app/api/admin/bets/route.ts:335-360 | the ledger gains, in order, one bet_win row per winner with a user row: for that user, of their unrounded prize, referencing the bet, with after = before + prize; the rows' amounts add up to what the loop pays |
| AdminBetsRoute.LocalPayKeepsUsers | src/app/api/admin/bets/route.ts:335-360 | the winners loop never adds or removes a user row |
| AdminBetsRoute.LocalPaidIsShares | src/app/api/admin/bets/route.ts:335-360 | with every winner present, the loop pays exactly the sum of the shares |
| AdminBetsRoute.LocalRate | src/app/api/admin/bets/route.ts:312 | a NULL rate counts as 0 |
| AdminBetsRoute.LocalCommission | src/app/api/admin/bets/route.ts:311-313 | the commission is the pool times the rate over 100, as in prize-pool.ts, with NULL read as 0 |
| AdminBetsRoute.Recorded | src/app/api/admin/bets/route.ts:320-328 | only the totals and the winning option change on the bet row; every other field is kept |
| AdminBetsRoute.LocalSettlePaysWholePrizePool | src/app/api/admin/bets/route.ts:332-371 | with every winner present, exactly the whole prize pool is paid out and recorded |
| AdminBetsRoute.LocalSettleWritesPrizePool | src/app/api/admin/bets/route.ts:332-371 | with every winner present, the bet_win rows written add up to the recorded prize pool, and with the commission to the whole pool |
| AdminBetsRoute.LocalPaysPrizePool | src/app/api/admin/bets/route.ts:335-360 | with every winner's user row present, the loop pays out exactly the prize pool |
| AdminBetsRoute.NoWinnerPrizePoolsDiffer | src/app/api/admin/bets/route.ts:318-329 | with no winner the route records a prize pool of 0 and changes no balance, where prize-pool.ts records the undistributed prize pool |
| AdminBetsRoute.MissingWinnerIsSkipped | src/app/api/admin/bets/route.ts:336-337 | a missing winner is skipped and the route still succeeds, where prize-pool.ts aborts |
| AdminBetsRoute.SettlingTwicePaysTwice | src/app/api/admin/bets/route.ts:300-373 | without a completed-guard, a second run on the new state succeeds again and pays every winner a second time |
| AdminBetsRoute.SettledTwice | src/app/api/admin/bets/route.ts:300-373 | the second settlement succeeds, records the same prize pool and runs the winners loop again on the ledger the first left |
| AdminBetsRoute.PaidTwice | src/app/api/admin/bets/route.ts:335-360 | running the winners loop twice moves each balance by twice its prizes |
| AdminBetsRoute.LocalPayLoop | src/app/api/admin/bets/route.ts:335-360 | the loop computes the winners fold |
| AdminBetsRoute.LocalDistributePrizes | src/app/api/admin/bets/route.ts:300-373 | reports success exactly when LocalSettle succeeds, commits exactly its ledger and bet row, and writes nothing when it fails |
| AdminBetsRoute.Updated | src/app/api/admin/bets/route.ts:210-243 | the given status, completion time, winning option and rate replace the old ones; every other field of the row is kept |
| AdminBetsRoute.UpdateBet | src/app/api/admin/bets/route.ts:169-297 | 401/403, 400 without a bet id, 404 for an unknown bet and 400 for a status outside the three, each without a write; a failing distribution gives 500 without a write; otherwise an invalid rate gives 400 and any other request 200 with the row the distribution left (or the old row) updated with the parsed status, completion time now when completing, the winning option when the distribution ran and the rounded rate; the distribution runs exactly when completing with a winning option and at least one participation, and its writes stay committed even when the rate is then refused; a 200 writes only the bet's own row, and a refused rate leaves the bets table as the distribution left it |
| BetsRoute.StatusFilter | src/app/api/bets/route.ts:31-38 | a filter exactly for one of the three status strings |
| BetsRoute.Matching | src/app/api/bets/route.ts:40-48 | an id is listed exactly when it is in the ordered ids and its bet passes the filter |
| BetsRoute.MatchingCounts | src/app/api/bets/route.ts:40-48 | a passing bet is listed as often as the ordered ids hold it, any other never |
| BetsRoute.MatchingAppend | src/app/api/bets/route.ts:40-48 | the listing keeps the `created_at` order of the ids |
| BetsRoute.CountIsMatchingBets | src/app/api/bets/route.ts:40-48 | when the ordered ids list every bet once, the number listed is the number of bets that pass the filter |
| BetsRoute.Window | src/app/api/bets/route.ts:47-48 | skip/take selects the rows after the skipped ones, from the far end when take is negative |
| BetsRoute.OptionIdsHaveStakes | src/app/api/bets/route.ts:78-82 | an option is a key exactly when some participation is on it |
| BetsRoute.OptionTotalsUnique | src/app/api/bets/route.ts:78-82 | there is exactly one option-totals map for a list of stakes |
| BetsRoute.AddStake | src/app/api/bets/route.ts:79-82 | one loop step keeps the option totals right for the longer list |
| BetsRoute.TotalsUpToAreOptionTotals | src/app/api/bets/route.ts:78-82 | adding the stakes one at a time, as the loop does, gives the option totals of those stakes |
| BetsRoute.OptionTotals | src/app/api/bets/route.ts:78-82 | the loop builds exactly the option totals: a key per staked option, mapped to the sum of its stakes |
| BetsRoute.SummaryOf | src/app/api/bets/route.ts:66-91 | total = sum of stakes, commission + prize = total, NULL rate gives commission 0, the option totals, and the participation count |
| BetsRoute.Summarise | src/app/api/bets/route.ts:66-91 | the figures computed for one bet are its summary: the total, the commission at the rate or 0, the rest as prize, the option totals from their loop |
| BetsRoute.SummariseAll | src/app/api/bets/route.ts:66-91 | one summary per shown bet, in the same order |
| BetsRoute.OptionTotalsSumToPool | src/app/api/bets/route.ts:67-82 | the option totals add up to the total pool |
| BetsRoute.StakeSumIsTotal | src/app/api/bets/route.ts:67-82 | the stakes on each staked option, each counted once, add up to all the stakes |
| BetsRoute.Ceil | src/app/api/bets/route.ts:94 | the least integer at or above the value |
| BetsRoute.PaginationOf | src/app/api/bets/route.ts:94-104 | hasPrev exactly when page > 1 and hasNext exactly when page < totalPages; a limit of 0 gives no page count |
| BetsRoute.PagesCoverRows | src/app/api/bets/route.ts:94-103 | for a positive limit the pages hold every row and no page is empty, and hasNext holds exactly when rows remain after this page |
| BetsRoute.ListBets | src/app/api/bets/route.ts:26-110 | 500 exactly when the skip is negative; otherwise totalCount is the number of bets passing the filter, the window of those rows in order with their summaries, and the pagination |
| BetsRoute.CreateError | src/app/api/bets/route.ts:137-139 | no error exactly for a title and an array of at least two options |
| BetsRoute.PublicOption | src/app/api/bets/route.ts:141-144 | the option becomes {id: index+1, text: opt.text}; the text key is absent when opt has none |
| BetsRoute.PublicOptions | src/app/api/bets/route.ts:141-144 | numbering succeeds exactly when no option is null, and keeps the length and order |
| BetsRoute.PublicOptionsAreOneToN | src/app/api/bets/route.ts:141-144 | the stored options are found by id exactly for ids 1..n |
| BetsRoute.RateOrDefault | src/app/api/bets/route.ts:151 | a missing or null rate becomes 1, a number is stored as given, and every other JSON value is refused |
| BetsRoute.CreatorCheck | src/app/api/bets/route.ts:122-133 | 401 without a session, 403 'Forbidden: Admin access required' unless the caller is an admin; it admits exactly the callers the admin route admits |
| BetsRoute.CreateBet | src/app/api/bets/route.ts:120-161 | the caller check, then validation errors, without a write; past them, 201 exactly when no option is null and the rate is a number or absent, with an active bet stored under the next id, which no stored bet holds |
| BetsRoute.RoutesDisagreeOnRate | src/app/api/bets/route.ts:137-151 | a rate outside [0,100] is stored by this route and refused by the admin route |
| ParticipationModal.ModalRuleMatchesServerRule | src/components/BetParticipationModal.tsx:70-73 | the modal accepts exactly the whole amounts the server's stake rule accepts |
| ParticipationModal.BalanceChange | src/components/BetParticipationModal.tsx:75-79 | 0 when not editing or nothing is typed; otherwise old − new; NaN only for text that does not parse |
| ParticipationModal.EffectiveBalance | src/components/BetParticipationModal.tsx:81-84 | the balance when creating, and balance + old − new when editing |
| ParticipationModal.HandleSubmit | src/components/BetParticipationModal.tsx:86-109 | a missing option or amount and an invalid amount are refused in that order; a request is sent only with a valid amount, using PUT when editing and POST otherwise |
| ParticipationModal.CreateSendsWhenAffordable | src/components/BetParticipationModal.tsx:86-103 | a new participation is sent exactly when the option is set, the amount is valid and the balance covers it |
| ParticipationModal.EditSendsAsWritten | src/components/BetParticipationModal.tsx:81-103 | an amendment is sent exactly when twice the new amount is at most balance + old stake |
| ParticipationModal.EditRefusesAffordableAmendment | src/components/BetParticipationModal.tsx:81-103 | balance 100, stake 50, new amount 80: affordable, yet refused with 'Insufficient balance' |
| ParticipationModal.IntendedEffectiveBalance | src/components/BetParticipationModal.tsx:81-84 | when editing, the balance plus the stake being replaced |
| ParticipationModal.HandleSubmitIntended | src/components/BetParticipationModal.tsx:86-109 | the same guard order with the corrected effective balance |
| ParticipationModal.IntendedEditMatchesServer | src/components/BetParticipationModal.tsx:81-103 | the corrected modal sends an amendment exactly when the participate route's own check accepts it, and handles new participations as before |
| ParticipationModal.SubmitEnabled | src/components/BetParticipationModal.tsx:136-251 | submit is enabled exactly for an active bet with no request in flight |
| BetCard.GetOptionStats | src/components/BetCard.tsx:75-84 | (0,0,0) without a list; otherwise the sum and number of stakes on the option, with percentage·totalPool = amount·100 when the pool is positive and 0 otherwise |
| BetCard.PercentageWithinHundred | src/components/BetCard.tsx:80 | when the pool is the sum of non-negative stakes, every percentage lies in [0,100] |
| BetCard.FirstBy | src/components/BetCard.tsx:87 | the first participation by the user, or none exactly when there is none |
| BetCard.UserParticipation | src/components/BetCard.tsx:87 | none without a list; a result is one of the bet's participations by the user |
| BetCard.GetUserPrize | src/components/BetCard.tsx:95-106 | 0 unless the bet is completed with a winning option that the user's stake is on, and 0 when the winners' total is 0 |
| BetCard.ShownPrizeIsShare | src/components/BetCard.tsx:99-105 | the prize shown is the user's proportional share, and what settlement pays is at most a cent below it |
| BetCard.ActionFor | src/components/BetCard.tsx:213-238 | Participate or Edit exactly for an active bet, Edit exactly when the user has participated; a locked bet shows a disabled 'Betting Locked' and a completed one a disabled 'Betting Closed' |

## Left out

- Authentication is an input. The session id (`auth()`) is a parameter. The Clerk middleware and webhook are not part of this model.
- Concurrency and isolation levels are not modelled. Each `$transaction` is one atomic method, and concurrent requests are not interleaved.
- Binary floating point is not modelled. Currency is `real`, so JS rounding error in the `number` code is absent.
- `toFixed` string formatting and `parseInt`/`parseFloat` string parsing are not modelled. Query and body fields arrive already parsed.
- `Round2` is specified by its bounds, not by the exact half-way rule of `toFixed`.
- `trim()` of the title and description, and the response transformations, are left out; they only reshape strings and objects.
- Timestamps are a `now` parameter. `created_at` ordering is the `ordered` parameter of `BetsRoute.ListBets`.
- `getPoolStats` is not modelled beyond `CalculatePoolInfo` and `GetBetCommissionRate`. It only formats their results with `toFixed`.
- The admin route's GET listing is left out. It is a read and reshape with no arithmetic.
- The `catch` branches that turn an unexpected database error into 'Database error' or a 500 are left out. Their causes are outside the model.
- AdminBetsRoute.LocalDistributePrizes: a zero winners' total with winners present divides by zero in the source (NaN prizes). The model treats that case as an abort with 'Failed to update bet' and does not write NaN balances.
- BetsRoute.ListBets: a NaN page or limit is not modelled; a limit of 0 is.
- Prisma column defaults (status active, totals 0, nextBetId as the id sequence) are written out in `NewBet` and `BetsRoute.CreateBet` rather than taken from a schema.
- The participate route in src/app/api/bets/[id]/participate/route.ts is not part of this model. Only its amendment check appears, as `ParticipationModal.ServerAcceptsAmendment`, to state the corrected modal rule.
- Store.Database.ParticipationsOf: the function's own contract gives which rows are loaded; that each keeps its multiplicity and table order is stated by `Store.ForBetCounts` and `Store.ForBetAppend`, not on the function.
- Stakes.OnOption: the function's own contract gives membership and length; multiplicity and order are stated by `Stakes.OptionSplitCounts` and `Stakes.OnOptionAppend`.
- Stakes.OffOption: the function's own contract gives membership and length; multiplicity and order are stated by `Stakes.OptionSplitCounts` and `Stakes.OffOptionAppend`.
- AdminBetsRoute.Present: the function's own contract gives membership and length; multiplicity and order are stated by `AdminBetsRoute.PresentCounts` and `AdminBetsRoute.PresentAppend`.
- BetsRoute.Matching: the function's own contract gives membership; multiplicity and order are stated by `BetsRoute.MatchingCounts` and `BetsRoute.MatchingAppend`.
- BetsRoute.RateOrDefault: a rate sent as a numeric string, which the Decimal column would accept and store, is modelled as refused with 500; decimal string parsing is not modelled.
- BalanceValidation.ValidateAndUpdate: returns the corrected numeric `balanceAfter`; for a credit on a stored balance the source returns a concatenated string instead (see Findings, `BalanceValidation.AfterAsWritten`).
- BalanceValidation.ValidateAndUpdateBalance: returns the corrected snapshot of `ValidateAndUpdate`; what the source returns for a credit on a stored balance is `BalanceValidation.AfterAsWritten`. The stored increment is the source's.
- BalanceValidation.StoredBalanceMatchesReturned: the agreement is proved for the corrected result; as written, a credit on a stored balance returns a string that differs from the stored balance (`BalanceValidation.CreditReturnsConcatenation`).
- React state, rendering and the `fetch` in `handleSubmit` are left out. `Submit` records the request that would be sent.

## Findings

| source | as written | input that shows it | evidently intended | confidence | as-written member | corrected member |
|---|---|---|---|---|---|---|
| src/components/BetParticipationModal.tsx:81-103 | when editing, the effective balance already subtracts the new amount, and the guard then compares the new amount against it again, so an amendment needs 2·new ≤ balance + old | balance 100, existing stake 50, new amount 80 (balance after the swap would be 70) is refused with 'Insufficient balance' | new ≤ balance + old, the check the participate route applies | high; not executed | ParticipationModal.EditRefusesAffordableAmendment | ParticipationModal.IntendedEditMatchesServer |
| src/lib/balanceValidation.ts:27-36 | `balance ?? 0` keeps a stored balance as a Decimal object, whose `valueOf` is a string, so the credit branch `balanceBefore + amount` concatenates; the returned `balanceAfter` is a string while the store holds the sum | a user with balance 100 credited 50: the helper returns "10050" and the stored balance becomes 150 | the returned `balanceAfter` is the number `balanceBefore + amount`, equal to the stored balance | medium; not executed | BalanceValidation.CreditReturnsConcatenation | BalanceValidation.StoredBalanceMatchesReturned |
