# A verified model of the betting engine's money protocol

The betting engine takes deposits and bets, debits stakes, accepts bets through a message queue, settles markets and
pays winners. Wallet, betting, market and settlement code share one Postgres database, a Redis cache and a RabbitMQ
queue, and nothing but idempotency keys and status columns holds them together when a process dies. This project models
that protocol in Dafny and proves what it guarantees in every state that any interleaving of requests, crashes, retries,
redeliveries and cache evictions can reach, and exactly where its promises stop. The session tokens, the edge rate
limiter and the money arithmetic and printing are modelled beside it.

`dafny verify dfyconfig.toml` checks everything.

## How the model is built

**One step machine for the money protocol** (`Types`, `Ledger`, `Protocol`). A `World` holds the durable tables
(`DB`: wallets, ledger, markets, bets, cache, queue, message in flight, acked and dead-lettered messages), the control
state of everything that is running (client calls by key, market mutations by market, the message handler) and a
history. Step granularity:

- `applyTransaction` is one step: it runs under the wallet's row lock and `userId` is unique. The duplicate checks of
  `deposit`, `debit` and `credit` are steps of their own, before it.
- Each further read or write of `placeBet`, of `settle`'s loop, of `transitionStatus` and of `handleMessage` is one step.
- Any database or broker call may throw, before or after it took effect; any activity may die after any step. An
  unsettled delivery then returns to the queue, and dead-lettered messages may be replayed.
- Cache keys may vanish at any moment.
- One client key is one fixed request of one user and has one call in flight; one market has one mutation in flight;
  one `bet_placement` delivery is in flight (`prefetch(1)`). Everything else interleaves freely.
- Integer columns are 32 bits wide: a balance or payout that does not fit makes its statement fail.

`Invariant` states what the tables say about each other and what each activity may rely on where it stands; `Effects`
and `Preservation` prove that every step keeps it; `Sums` and `Guarantees` draw the guarantees for every reachable
state; `Recovery` proves which bets can still be moved by some continuation.

**Whole operations** (`Settlement`, `CrashRetry`, `Placement`, `Delivery`) are specification functions: what a call of
`settle`, `placeBet`, `deposit` or `handleMessage` leaves when it runs alone, to its end or to a crash, with chosen
failures. `SettleIsRun`, `HistoryIsRun`, `CallIsRun` and `HandleIsRun` prove each of them to be runs of the machine.
`Traffic` returns to the machine: `settle`, its crashes and its retries with any other steps before and between its own.
`Overlap` races the calls that the machine excludes: two with one key, two settlements of one market, and a settlement
beside a status update. `Witnesses` constructs, for every loss claimed below of the money protocol, a reachable state in
which it has happened or from which it happens.

**The services as they run** (`Services`, `Identity`, and the classes in `RateLimit` and `AccessTokens`) are classes
whose methods update fields in place, with the source's branches and loops, each proved to leave exactly the state and
give exactly the answer of its specification function.

**Sessions** (`Tokens`, `AccessTokens`), **the rate limiter** (`RateLimit`), **binary64 arithmetic** (`Doubles`), **the
payout and display amounts** (`Money`) and **printing** (`Cents`) stand on their own.

## What the proofs found

Where the code and its comments or documentation disagree, the model follows the code. Each item names the theorem that
says exactly when it happens, and the lemma that shows it happening.

- `settle` says that errors in single bets are harmless because "a retry is safe". The market is marked SETTLED all the
  same, and a settled market refuses the retry: an ACCEPTED bet can still be settled if and only if its market is not
  SETTLED (`Recovery.SettleableIffMarketOpen`, `Witnesses.AcceptedBetIsStranded`). Interrupted and retried settlements
  end like an uninterrupted clean one if and only if no credit and no status write fails in the completing attempt, for
  any bet still open when it starts, and every payout owed fits its owner's balance
  (`CrashRetry.RetryMatchesUninterrupted`, `Witnesses.RetryDiverges`). A bet accepted after its market was settled is
  never settled or paid (`Recovery.ClosedMarketIsFinal`, `Witnesses.LateBetIsStranded`). Amid any other traffic the same
  holds of the market's bets: those open when the settlements began end settled, and a WIN's paid once, exactly when the
  completing attempt gives none of them up (`Traffic.TrafficDoesNotMatter`, `Witnesses.BetIsGivenUp`,
  `Witnesses.BetIsPaidAmidTraffic`).
- A crash between saving and publishing strands the bet: a PENDING bet can still be accepted if and only if it was
  published or its own call is still going to publish it (`Recovery.AcceptableIffAnnounced`,
  `Witnesses.PendingBetIsStranded`). The client's retry returns the saved bet and publishes nothing
  (`Placement.RetryAfterSave`).
- A payout wider than its column is refused only after the debit committed; no retry can then place the bet, and the
  stake stays debited (`Placement.RetryAfterDebit`, `Witnesses.StakeIsStranded`).
- Two calls with one key take the stake twice if and only if each checks before the other commits and the balance covers
  both; the second stake then buys no bet (`Overlap.DoubleDebitIffOverlap`, `Overlap.SecondStakeIsLost`,
  `Witnesses.StakeIsTakenTwice`).
- Two settlements of one market that overlap pay a bet twice if and only if each looks for the payout before the other
  commits it and both payouts fit (`Overlap.DoubleCreditIffOverlap`, `Witnesses.BetIsPaidTwice`).
- The market entity says that SETTLED is terminal. A status update that reads the market before a settlement finishes and
  writes after it reopens the market, and that is the only order that does (`Overlap.SettledUnlessReopened`,
  `Witnesses.MarketIsReopened`).
- `deposit` looks its key up without the row's type. An answered deposit has been counted if and only if the user has a
  DEPOSIT row under its key, or neither a DEBIT nor a CREDIT one: a deposit under the key of one of the user's bets, or
  under the id of one of the user's paid bets, is answered and not counted (`Placement.DepositCountsIff`,
  `Witnesses.DepositIsTakenForStake`, `Witnesses.DepositIsLost`).
- The comment in `handleMessage` says that a bet past PENDING is acked silently. A delivery is acked if and only if its
  bet was PENDING and the acceptance returned, or its bet is in a terminal state and the check for that returned; a
  redelivered message of a bet that is still ACCEPTED is dead-lettered (`Delivery.HandleSettlesOnce`,
  `Witnesses.RedeliveryIsDeadLettered`).
- The documentation says that no floats are anywhere in the financial path; the payout goes through a binary64 product
  and quotient. It is exact all the same for every stake and odds that can be stored (`Money.AcceptedBetsAreSafe`).
- A refresh that dies between marking its token used and issuing the successor ends the session: the client's retry
  is then taken for a replay (`Tokens.DeathEndsFamily`, `Tokens.RefreshCanDie`).
- Logging out with an older cookie of a session leaves the session refreshable as long as its newest token is neither
  used, revoked nor expired (`Tokens.LogoutIsFinalIffNewest`, `Tokens.OlderCookieMissesSession`). A logout whose cookie
  holds no uuid throws before the access token is blacklisted (`Identity.IdentityService.Logout`,
  `Tokens.BadCookieStopsLogout`).
- A request that verified its access token before `exp` and asks Redis after the key expired is accepted after logout;
  no other request is (`AccessTokens.LogoutIsPermanent`, `AccessTokens.LateLookupIsAccepted`).
- A rate-limit check that dies between INCR and EXPIRE, or whose INCR takes effect and times out, blocks its address for
  ever once the limit is reached (`RateLimit.AdmitsAgainIff`, `RateLimit.LostExpiryBlocks`).
- The entity comment says that a DEBIT row refers to a bet id; the code refers to the client's key. The documentation
  puts idempotency keys in the persistent Redis; the code uses the ephemeral one, which is why eviction is modelled.

## Model

| member | source | states |
|---|---|---|
| `Ledger.LedgerGrows` | apps/api/src/wallet/WalletService.ts:151-208 | one transaction, committed or rolled back, keeps every balance equal to the fold of its rows, every snapshot equal to the fold up to its row, and every prefix within 0 and the column's maximum |
| `Ledger.WalletOpens` | apps/api/src/wallet/WalletService.ts:214-222 | a new user gets a wallet with nothing in it and every other wallet and table stays, even on a stale replica's word; balances, snapshots and bounds are kept |
| `Ledger.TransactionIs` | apps/api/src/wallet/WalletService.ts:169-195 | a transaction of each kind commits if and only if a debit is covered, or a deposit or credit fits the column; it then changes exactly the user's wallet and appends exactly its row |
| `Preservation.StepKeepsInv` | apps/api/src/betting/BettingService.ts:43-124 | every step of every service keeps the invariant that ties tables, cache, broker, running activities and history together |
| `Preservation.RunKeepsInv` | apps/api/src/market/MarketService.ts:135-210 | so does every run |
| `Guarantees.LedgerRefinesBalance` | apps/api/src/wallet/WalletService.ts:151-222 | in every reachable state each balance is the signed sum of its user's rows, each `balanceAfterCents` is the sum up to its row, and no prefix is negative |
| `Guarantees.ExactlyOncePayout` | apps/api/src/market/MarketService.ts:152-194 | no bet has two CREDIT rows; every CREDIT pays one bet's owner its stored payout; every bet a WIN settled has exactly one; without a WIN run on its market a bet has none |
| `Guarantees.MoneyConserved` | apps/api/src/betting/BettingService.ts:81-103 | all balances together are deposits, minus stakes of saved bets, minus debits without a saved bet, plus the payouts of paid bets |
| `Guarantees.StakesAreDebits` | apps/api/src/betting/BettingService.ts:84-103 | the stakes of any set of saved bets are exactly the debits made under those bets' keys |
| `Guarantees.PlacementIsIdempotent` | apps/api/src/betting/BettingService.ts:55-106 | any number of attempts of one request leaves at most one debit and one bet; all answers name that bet; a bet always has its DEBIT row with its user, reference and stake |
| `Guarantees.TermsAreFrozen` | apps/api/src/betting/BettingService.ts:91-117 | a bet keeps its request's stake, its market's odds and the payout of these; every message anywhere repeats a saved bet's terms |
| `Guarantees.CacheIsCoherent` | apps/api/src/betting/BettingService.ts:58-71 | a cached key names the bet with exactly that user and reference |
| `Guarantees.EachMessageInOnePlace` | apps/api/src/rabbitmq/RabbitmqService.ts:110-148 | every published message is in exactly one of queue, in flight, acked, dead-lettered; an acked message's bet is past PENDING |
| `Guarantees.StatusHistoriesAreLegal` | apps/api/src/betting/types/BettingTypes.ts:15-28 | with all reads and writes split, every status write of every run follows the transition table, and no bet is written more than twice |
| `Guarantees.WritesLowerRank` | apps/api/src/betting/types/BettingTypes.ts:15-21 | each legal write lowers a rank that starts at two |
| `Recovery.TerminalIsFinal` | apps/api/src/betting/types/BettingTypes.ts:23-28 | no run changes a bet in a terminal state |
| `Recovery.AcceptableIffAnnounced` | apps/api/src/betting/BettingService.ts:91-117 | a PENDING bet can still be accepted by some run if and only if its message was published or its call is still going to publish it |
| `Recovery.ClosedMarketIsFinal` | apps/api/src/market/MarketService.ts:196-198 | a SETTLED market stays so; none of its unsettled bets is ever settled or paid by any later run |
| `Recovery.SettleFirst` | apps/api/src/market/MarketService.ts:141-169 | an ACCEPTED bet of an open market can be settled by some run, as LOSS, or as WIN when its payout fits the balance column |
| `Recovery.SettleableIffMarketOpen` | apps/api/src/market/MarketService.ts:135-151 | an ACCEPTED bet can still be settled by some run if and only if its market is not SETTLED |
| `Settlement.SettleExactEffect` | apps/api/src/market/MarketService.ts:141-198 | under any per-bet failures a snapshot bet ends SETTLED exactly when its credit did not throw and its write committed; each balance grows by exactly the payouts newly committed to its user; nothing else changes |
| `CrashRetry.RetryMatchesUninterrupted` | apps/api/src/market/MarketService.ts:135-210 | crashes anywhere and retries in any visiting orders end with the same balances, rows, bet statuses and market status as a clean history, such as one uninterrupted run, if and only if every payout owed fits and no credit or status write of the completing attempt fails for a bet open at its start |
| `CrashRetry.SettledIffClean` | apps/api/src/market/MarketService.ts:152-194 | a completed attempt settles every bet of the first snapshot if and only if every payout owed fits its owner's balance and no credit or status write fails for a bet still open |
| `CrashRetry.AllWroteIff` | apps/api/src/market/MarketService.ts:152-194 | an attempt writes every bet it meets if and only if each user's balance plus the unpaid payouts of the open bets fits and no failure strikes before a write |
| `CrashRetry.LoopPaysIff` | apps/api/src/market/MarketService.ts:152-164 | when all payouts fit, a WIN pays exactly the bets that were unpaid and whose credit did not fail before its commit, whatever else failed |
| `CrashRetry.FitsStays` | apps/api/src/market/MarketService.ts:155-163 | payouts made by crashed attempts only move from what is owed to the balances, so whether everything fits never changes |
| `CrashRetry.FoldIsSum` | apps/api/src/market/MarketService.ts:158-163 | distinct payouts add up the same in any order |
| `CacheTransparency.EvictionIsInvisible` | apps/api/src/betting/BettingService.ts:55-71 | evictions can be taken out of any run and put into any run, anywhere: it stays possible and ends in the same wallets, ledger, bets, markets, broker and answers |
| `CacheTransparency.StepsAlike` | apps/api/src/betting/BettingService.ts:58-71 | worlds equal but for the cache step alike, whatever the step |
| `Placement.CallIsRun` | apps/api/src/betting/BettingService.ts:43-124 | a deposit or placement run alone, to its answer or to a crash, is a run of the machine |
| `Placement.CallAnswers` | apps/api/src/betting/BettingService.ts:43-124 | a call that does not die answers within nine steps |
| `Placement.RetryAfterDebit` | apps/api/src/betting/BettingService.ts:73-103 | a retry after a crash between debit and save never debits again, and places the bet if and only if the market is open and the payout fits its column |
| `Placement.RetryAfterSave` | apps/api/src/betting/BettingService.ts:58-71 | a retry of a saved bet answers with that bet and changes nothing, cached or not |
| `Placement.PlacementExactEffect` | apps/api/src/betting/BettingService.ts:73-124 | a first placement needs an open market and the stake; it then takes exactly the stake, and saves, caches and publishes the bet if and only if the payout fits its column; otherwise nothing else changes |
| `Placement.DepositExactEffect` | apps/api/src/wallet/WalletService.ts:54-71 | on any tables, dying after any number of steps: a deposit is answered if and only if the user has a row under its key or the balance has room; it then adds exactly the amount and its row when there was no row, and in every other case changes nothing |
| `Placement.DepositCountsIff` | apps/api/src/wallet/WalletService.ts:54-71 | an answered deposit adds one DEPOSIT row and its amount if and only if the user has no row under its key; it has been counted, then or before, if and only if the user had a DEPOSIT row under the key, or neither a DEBIT nor a CREDIT one |
| `Placement.DepositIsCountedOnce` | apps/api/src/wallet/WalletService.ts:54-71 | in a reachable state an answered deposit under a key that is fresh or already counted as a deposit is counted exactly once |
| `Overlap.DoubleDebitIffOverlap` | apps/api/src/wallet/WalletService.ts:97-116 | in every order of the checks and commits of two calls with one key, the stake is taken twice exactly when each check precedes the other's commit and the balance covers both, and the balance falls by what was taken |
| `Overlap.SecondStakeIsLost` | apps/api/src/betting/BettingService.ts:91-103 | after two debits, whichever call saves first saves the one bet and the other is refused: the second stake buys nothing |
| `Overlap.DoubleCreditIffOverlap` | apps/api/src/wallet/WalletService.ts:118-137 | in every order of the checks and commits of two settlements that reach one bet, the bet is paid twice exactly when each check precedes the other's commit and both payouts fit, and the balance grows by what was paid |
| `Overlap.SettledUnlessReopened` | apps/api/src/market/MarketService.ts:101-107 | in every order of the reads and writes of a settlement and a status update of one market, the market ends SETTLED unless the settlement finishes between the update's read and write, and then has the update's status |
| `SettleRun.SettleIsRun` | apps/api/src/market/MarketService.ts:135-210 | any call of settle with any failures, to its end or to a crash, is a run of the machine |
| `SettleRun.HistoryIsRun` | apps/api/src/market/MarketService.ts:135-210 | a whole history of crashed calls of settle and a completed one is a run of the machine |
| `SettleRun.ReachableRetryMatches` | apps/api/src/market/MarketService.ts:135-210 | from every reachable state with an open market, a clean history and any other one are two runs, which end alike if and only if the other one is clean |
| `SettleRun.UpdateIsRun` | apps/api/src/market/MarketService.ts:101-107 | a status update of a market that is not SETTLED is a run of the machine that writes exactly that status of that market |
| `SettleRun.CreateIsRun` | apps/api/src/market/MarketService.ts:61-68 | a new market is a run of the machine that adds it OPEN with its odds and changes nothing else |
| `SettleRun.StatusWriteIs` | apps/api/src/market/MarketService.ts:196-198 | a market's status write changes that market's status and nothing else anywhere |
| `Traffic.RunStands` | apps/api/src/market/MarketService.ts:152-194 | with any steps of anything else between the loop's own, the bets behind the loop are SETTLED, and paid if they won, or were given up and are ACCEPTED; the bets ahead are untouched; at its end the market is SETTLED |
| `Traffic.SettledAmidTraffic` | apps/api/src/market/MarketService.ts:135-198 | whatever ran before and between, a bet that was ACCEPTED when the settlements began ends SETTLED if and only if the completing attempt did not give it up; a WIN has then paid it exactly once and a LOSS nothing |
| `Traffic.TrafficDoesNotMatter` | apps/api/src/market/MarketService.ts:135-210 | two ways to settle a market, each with its own crashes, orders and other traffic, leave the bets open at the start alike, and paid alike, if and only if the second gives up none of them either, given that the first does not |
| `Delivery.HandleSettlesOnce` | apps/api/src/settlement/SettlementWorker.ts:47-82 | handled alone, a delivery is acked if and only if its bet was PENDING and the acceptance returned, or its bet is in a terminal state and that check returned, and dead-lettered otherwise; a bet past PENDING is never changed, and a PENDING one is accepted unless the read or the write fails |
| `Delivery.TransitionIs` | apps/api/src/betting/BettingService.ts:162-175 | for every target status: a transition returns if and only if its calls do, the bet is stored and the move is one of the six allowed ones, and it writes exactly that status |
| `Delivery.TerminalIffNoTransition` | apps/api/src/betting/types/BettingTypes.ts:15-28 | the terminal states are exactly those that no transition leaves |
| `Delivery.HandleIsRun` | apps/api/src/settlement/SettlementWorker.ts:47-82 | a handled delivery, with any failing calls, is a run of the machine |
| `Delivery.EachDeliverySettledOnce` | apps/api/src/rabbitmq/RabbitmqService.ts:132-145 | over every run, the deliveries of a message are its acks, its nacks, the deliveries a crash cut short, and one more while it is in flight; it is acked at most once, and its nacks are its replays and its dead-lettered copy |
| `Witnesses.PendingBetIsStranded` | apps/api/src/betting/BettingService.ts:92-117 | a reachable saved PENDING bet that no message names and no call will announce |
| `Witnesses.AcceptedBetIsStranded` | apps/api/src/market/MarketService.ts:187-198 | a reachable ACCEPTED bet of a SETTLED market, after a failed credit |
| `Witnesses.LateBetIsStranded` | apps/api/src/market/MarketService.ts:141-198 | a reachable bet accepted after its market was settled |
| `Witnesses.StakeIsStranded` | apps/api/src/betting/BettingService.ts:79-103 | a reachable debited request without a bet whose every retry is refused |
| `Witnesses.DepositIsLost` | apps/api/src/wallet/WalletService.ts:55-62 | a reachable state in which a deposit is answered and not counted |
| `Witnesses.DepositIsTakenForStake` | apps/api/src/wallet/WalletService.ts:55-62 | a reachable state in which a deposit under the key of a placed bet is answered by its DEBIT row and not counted |
| `Witnesses.RetryDiverges` | apps/api/src/market/MarketService.ts:150-193 | from a reachable state, a retried history that ends differently from a clean one |
| `Witnesses.RedeliveryIsDeadLettered` | apps/api/src/settlement/SettlementWorker.ts:57-81 | a reachable ACCEPTED bet whose redelivered message is dead-lettered |
| `Witnesses.StakeIsTakenTwice` | apps/api/src/wallet/WalletService.ts:103-115 | from a reachable state, an order of turns that takes one stake twice |
| `Witnesses.BetIsPaidTwice` | apps/api/src/wallet/WalletService.ts:124-136 | from a reachable state, an order of two settlements' turns that pays one bet twice |
| `Witnesses.MarketIsReopened` | apps/api/src/market/entities/MarketEntity.ts:18-19 | from a reachable state, an order of turns that leaves a settled market OPEN |
| `Witnesses.BetIsGivenUp` | apps/api/src/market/MarketService.ts:187-198 | from a reachable state, a settlement amid traffic that gives a bet up and closes the market |
| `Witnesses.BetIsPaidAmidTraffic` | apps/api/src/market/MarketService.ts:152-198 | from a reachable state, a settlement amid traffic that gives nothing up |
| `Services.Database.FindAccepted` | apps/api/src/market/MarketService.ts:141-144 | the query returns each ACCEPTED bet of the market once, in some order, and no other |
| `Services.WalletService.ApplyTransaction` | apps/api/src/wallet/WalletService.ts:151-208 | leaves exactly the specified wallets and ledger; commits if and only if funds suffice and the balance fits |
| `Services.WalletService.GetOrCreateWallet` | apps/api/src/wallet/WalletService.ts:214-222 | answers the replica's balance, or opens an empty wallet, or fails when one exists; never changes an existing balance |
| `Services.WalletService.Deposit` | apps/api/src/wallet/WalletService.ts:54-71 | leaves the tables and answer of the specified call, dying after any step |
| `Services.WalletService.Debit` | apps/api/src/wallet/WalletService.ts:97-116 | returns at once on an existing DEBIT row, otherwise debits once or throws; exactly when it dies, throws, returns |
| `Services.WalletService.Credit` | apps/api/src/wallet/WalletService.ts:118-137 | credits once per reference; returns if and only if no call threw and the row exists or fits |
| `Services.BettingService.PlaceBet` | apps/api/src/betting/BettingService.ts:43-124 | leaves the tables and answer of the specified call, dying after any step, with the payout computed in binary64 |
| `Services.BettingService.TransitionStatus` | apps/api/src/betting/BettingService.ts:162-175 | writes only transitions the table allows, with each call failing or not |
| `Services.BettingService.IsTerminalState` | apps/api/src/betting/BettingService.ts:181-185 | true exactly for a stored bet that is SETTLED, VOID or CANCELLED |
| `Services.MarketService.CreateMarket` | apps/api/src/market/MarketService.ts:61-79 | inserts an OPEN market, or nothing when the odds do not fit their column |
| `Services.MarketService.UpdateStatus` | apps/api/src/market/MarketService.ts:101-119 | updates if and only if the market exists and is not SETTLED; then that market has the status, and every other market and table stays |
| `Services.MarketService.SettleBet` | apps/api/src/market/MarketService.ts:153-193 | the loop's body has the specified effect and outcome under any failure |
| `Services.MarketService.Settle` | apps/api/src/market/MarketService.ts:135-210 | refuses a missing or SETTLED market and changes nothing; otherwise leaves exactly a completed or crashed attempt over the snapshot |
| `Services.RabbitMQService.Ack` | apps/api/src/rabbitmq/RabbitmqService.ts:137-140 | the message in flight becomes the newest acked one; no message is lost or added anywhere |
| `Services.RabbitMQService.Nack` | apps/api/src/rabbitmq/RabbitmqService.ts:137-144 | the message in flight becomes the newest dead-lettered one; no message is lost or added anywhere |
| `Services.RabbitMQService.Take` | apps/api/src/rabbitmq/RabbitmqService.ts:129-136 | one queued message is in flight, the others keep their order; no message is lost or added anywhere |
| `Services.SettlementWorker.HandleMessage` | apps/api/src/settlement/SettlementWorker.ts:47-82 | settles the delivery once, with the specified tables, under any failing calls |
| `Tokens.CookieRoundTrip` | apps/api/src/identity/IdentityService.ts:125-129 | an issued cookie splits back into its id text and secret, whatever the secret contains |
| `Tokens.UnaryIsOk` | apps/api/src/identity/IdentityService.ts:260-263 | the assumptions on the uuid syntax, under which cookies are read, can be met |
| `Tokens.RefreshSucceedsIff` | apps/api/src/identity/IdentityService.ts:121-178 | a refresh that does not die succeeds if and only if its cookie presents, in a text read as its id, a stored token that is unused, unrevoked and unexpired, with its secret, and then uses up that token and adds one successor; it detects a reuse if and only if the presented token is used and unrevoked, and then revokes exactly its family; any other outcome but a death changes nothing |
| `Tokens.LogoutIs` | apps/api/src/identity/IdentityService.ts:187-194 | for every cookie: the id is the text before the first colon, or all but the last character without one; the stored token with that id is revoked, every other token stays, and the update throws if and only if there is a text and it is no id |
| `Tokens.DeathEndsFamily` | apps/api/src/identity/IdentityService.ts:169-175 | a refresh that dies between marking its token used and issuing the successor ends its family for good |
| `Tokens.FamiliesAreChains` | apps/api/src/identity/IdentityService.ts:121-178 | in every reachable state a family has at most one active token, each token was refreshed at most once, and the family is one chain from its login |
| `Tokens.ReplayIsFinal` | apps/api/src/identity/IdentityService.ts:140-160 | replaying a used, unrevoked token revokes its whole family, which never again has an unrevoked token or a successful refresh |
| `Tokens.RefreshableIffLive` | apps/api/src/identity/IdentityService.ts:140-178 | some requests from now on refresh a family if and only if it has a token that is unused, unrevoked and not yet expired |
| `Tokens.LogoutIsFinalIffNewest` | apps/api/src/identity/IdentityService.ts:182-194 | after logout no later refresh of the family succeeds if and only if the cookie was the newest token's, or that token was used, revoked or expired at the time of the logout |
| `Tokens.OlderCookieMissesSession` | apps/api/src/identity/IdentityService.ts:187-194 | after a login, a refresh at 5 and a logout with the first cookie, the session is never refreshed again if and only if the logout comes after its newest token expired |
| `Tokens.RefreshCanDie` | apps/api/src/identity/IdentityService.ts:169-175 | a login whose first refresh dies is never refreshed, whatever comes later |
| `Tokens.BadCookieStopsLogout` | apps/api/src/identity/IdentityService.ts:190-194 | a cookie whose id is no uuid makes the update of logout throw |
| `Identity.IdentityService.IssueRefreshToken` | apps/api/src/identity/IdentityService.ts:237-270 | the issued token can be refreshed with its secret exactly until its expiry, belongs to the given user and family, is presented by the returned cookie, and no other token changes |
| `Identity.IdentityService.Login` | apps/api/src/identity/IdentityService.ts:95-117 | starts a family of its own exactly when the user exists and the password matches |
| `Identity.IdentityService.Refresh` | apps/api/src/identity/IdentityService.ts:121-178 | leaves the specified token table and result, dying or not before the successor is issued |
| `Identity.IdentityService.Logout` | apps/api/src/identity/IdentityService.ts:182-208 | revokes exactly the token the cookie names, then blacklists the access token; throws before the blacklist write for a non-uuid id, and at it when Redis fails |
| `Identity.IdentityService.RevokeFamilyByFamilyId` | apps/api/src/identity/IdentityService.ts:272-274 | every token of the family is revoked and nothing else about it changes; every other token stays as it is |
| `AccessTokens.PersistentRedis.Set` | apps/api/src/identity/IdentityService.ts:202-207 | the key is there for exactly its seconds to live and no other key changes |
| `AccessTokens.JwtAuthGuard.CanActivate` | apps/api/src/auth/guards/JwtAuthGuard.ts:41-73 | accepts public routes and verified, unexpired, unlisted tokens, and attaches the payload exactly then |
| `AccessTokens.AcceptsIff` | apps/api/src/auth/guards/JwtAuthGuard.ts:52-69 | a token is accepted if and only if it was verified before `exp` and its jti has no key or one that is gone |
| `AccessTokens.BlacklistedIs` | apps/api/src/identity/IdentityService.ts:199-208 | a logout keeps its jti listed for exactly the token's remaining whole seconds, if any, and touches no other jti |
| `AccessTokens.OthersAreAccepted` | apps/api/src/auth/guards/JwtAuthGuard.ts:62-72 | whatever was logged out, a token that no logout names is accepted if and only if it is verified before `exp` |
| `AccessTokens.KeysOutliveTokens` | apps/api/src/identity/IdentityService.ts:199-208 | whatever logouts happen, every key outlives its token's `exp`, and a skipped write concerns an expired token |
| `AccessTokens.LogoutIsPermanent` | apps/api/src/auth/guards/JwtAuthGuard.ts:52-69 | a lookup after logout accepts the token if and only if it was verified before `exp`, even if before the logout, and its key is gone; then `exp` has passed, so no lookup before `exp` and no request that verifies and looks up at one instant is accepted |
| `AccessTokens.LateLookupIsAccepted` | apps/api/src/auth/guards/JwtAuthGuard.ts:52-69 | a concrete late lookup that is accepted |
| `RateLimit.RateLimiter.Check` | nginx/lua/rate_limit.lua:9-43 | the count rises by one or restarts at one, a new key expires 60 seconds after its EXPIRE, a check is admitted if and only if its count is within the limit; it fails open without a connection or a reply, in which case the INCR may still have counted |
| `RateLimit.CheckIsRun` | nginx/lua/rate_limit.lua:21-43 | a check that reaches Redis is a run of the timed machine |
| `RateLimit.LostReplyIsRun` | nginx/lua/rate_limit.lua:21-27 | a check whose INCR took effect and timed out is a run that owes the key no expiry |
| `RateLimit.RateIsBounded` | nginx/lua/rate_limit.lua:21-43 | for every timing, one key lifetime admits at most L checks with limits up to L, and any 60 seconds at most 2 L |
| `RateLimit.AdmittedIff` | nginx/lua/rate_limit.lua:21-43 | over every run, a check's count is the number of INCRs of its key lifetime so far, and it is admitted under a limit L if and only if fewer than L came before it; a lifetime begins with the first INCR that finds no key and ends when an EXPIRE sent in it is 60 seconds old |
| `RateLimit.AdmitsAgainIff` | nginx/lua/rate_limit.lua:29-32 | an address can be admitted again if and only if its key is absent, below the limit, has an expiry or is still owed one |
| `RateLimit.LostExpiryBlocks` | nginx/lua/rate_limit.lua:21-32 | either way of losing a new key's expiry blocks an address with limit one for ever |
| `Doubles.RoundIsNearest` | apps/api/src/betting/BettingService.ts:79-79 | no finite binary64 number is nearer to a value than its rounding |
| `Doubles.RoundIsDouble` | apps/api/src/betting/BettingService.ts:79-79 | the rounding is itself a finite binary64 number |
| `Doubles.TiesToEven` | apps/api/src/betting/BettingService.ts:79-79 | when another binary64 number is just as near, the rounding is the one with the even significand |
| `Money.FloatPayoutIsExact` | apps/api/src/betting/BettingService.ts:76-79 | the floor of the rounded hundredth of the rounded product is the exact integer quotient, for every product below 2^53 |
| `Money.AcceptedBetsAreSafe` | apps/api/src/betting/dto/PlaceBetDto.ts:13-22 | every stake the request bounds allow, at any odds the column holds, is in that range |
| `Money.WinPaysAtLeast` | apps/api/src/market/dto/CreateMarketDto.ts:14-20 | at the lowest odds or better the computed payout returns the stake and at least one per cent of it |
| `Money.PayoutIsMonotone` | apps/api/src/betting/BettingService.ts:76-79 | a larger stake or better odds never pay less |
| `Money.SplittingNeverPays` | apps/api/src/betting/BettingService.ts:76-79 | splitting a stake never pays more, and loses at most one cent a split |
| `Money.DisplayIsExact` | apps/api/src/wallet/WalletService.ts:243-245 | dividing by one hundred and printing two decimals shows every cent up to 100 * 2^46 cents |
| `Money.FirstMisprint` | apps/api/src/betting/BettingService.ts:207-210 | that bound is sharp, and far beyond what a column holds |
| `Cents.CommaPlaces` | apps/api/src/wallet/WalletService.ts:243-245 | the expression matches exactly before each trailing group of three whole digits, and never among the decimals |
| `Cents.GroupsThousands` | apps/api/src/wallet/WalletService.ts:243-245 | the printed amount is "$", the dollars' numeral grouped by thousands, a point and the two digits of the cents |
| `Cents.NoLeadingZero` | apps/api/src/wallet/WalletService.ts:243-245 | the numerals printed have no leading zero |
| `Cents.RoundTrip` | apps/api/src/betting/BettingService.ts:207-210 | reading a printed amount gives the amount back |
| `Cents.PrintingIsInjective` | apps/api/src/betting/BettingService.ts:207-210 | no two amounts print alike |
| `Cents.OddsPrint` | apps/api/src/betting/BettingService.ts:212-215 | printed odds are the numeral of their whole part, a point and two digits |
| `Cents.OddsRoundTrip` | apps/api/src/betting/BettingService.ts:212-215 | reading printed odds gives the odds back |

## Left out

- Overlapping calls with one client key, and overlapping mutations of one market: the machine excludes them, because the
  code then guarantees less. `Overlap` shows exactly when a stake is taken twice, a bet is paid twice and a settled market
  is reopened.
- Two requests of one refresh token that overlap between its lookup and its update: requests are atomic with respect to
  each other here.
- CrashRetry.RetryMatchesUninterrupted: compares whole tables, so nothing else may change them between the attempts.
  `Traffic.TrafficDoesNotMatter` allows any other steps and compares the market's bets and their payouts; it does not
  compare the users' balances, which the other traffic moves.
- Guarantees.EachMessageInOnePlace: assumes that the broker's ack and nack callbacks do not throw. If ack threw,
  `handleMessage` would nack the same delivery.
- RateLimit.RateIsBounded: bounds the checks whose INCR is answered, without eviction; a check without a connection or a
  reply is admitted by design.
- Money.DisplayIsExact: amounts above 100 * 2^46 cents, which no integer column can hold.
- Notifications: publishing one is only an effect that may fail. The sockets, the notification worker and its queue are
  not modelled; a status update or a new market whose notification fails is still stored.
- bcrypt, RS256, random ids (taken to be fresh) and device fingerprints; a secret is a string that is compared. The text
  syntax of uuids is a parameter: how one is printed, and which texts the database reads as one.
- Registration, soft deletes, timestamps, names and descriptions of rows.
- The bets' VOID and CANCELLED states are never written by this code; the invariant says so.
- Listings with pages, the replica's lag for them, the access rule of a single bet and the role guard: single-branch
  facts.
- Controllers, request validation beyond its bounds, configuration, module wiring, nginx.conf and auth.lua.
- The internals of TypeORM, ioredis and the broker: tables are maps with the declared unique indexes, one UPDATE is atomic.
- The web application, which only issues the requests.
