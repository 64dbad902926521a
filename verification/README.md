# The payment lifecycle of one rail account, modelled and proved

The repository drives one ordinary account: it pays with plain token transfers, keeps its
own gas reserve topped up through a swap venue, and reports only what the chain has
settled. There is no contract behind it. Its safety rests on a write-ahead protocol: bind
an identifier to one nonce, record it, record each signed attempt, broadcast, and derive
status from settled facts alone. This project models that protocol, everything it writes
and everything it reads, and proves what it promises over every run.

## How the model is built

* `Types`, `Records` - the vocabulary, and the durable store as an abstract value with its
  six writes (go/rail/store.go).
* `Chain` - what the account can see of the chain: transactions broadcast under its key by
  this rail and by anybody else, receipts with their logs, the time, nonce and balances of
  every block, and a settled head that only grows. Blocks above the settled head may be
  abandoned at any time with everything mined in them. The trust base of
  requirements.md:326-336 is one predicate, `Chain.Honest`: a reverted transaction leaves no
  logs, the token's events say what it moved, a transfer moves its amount or nothing, nobody
  else's transaction spends the account's money, and a refill reverts after its deadline. It
  does not assume how many transfers a refill makes; the code does not either
  (go/rail/status.go:151-156).
* `Protocol` - the store and the chain together as a transition system. Each durable write,
  each broadcast and each move of the chain is one step, so a crash may fall between any
  two. A run starts from an empty store beside a chain with any history.
* `Lifecycle`, `Progress`, `Books`, `SelfPayment` - what every run satisfies: exactly once,
  write-ahead, permanent outcomes, the nonce ledger, the scan, progress, the audit equation,
  and the one way it fails.
* `World` - the state as an object. Every operation first lets the chain move as it likes;
  every write and every broadcast may fail, having landed or not, which is also what a
  process killed at that point leaves. Its `Valid` says that its state is the last one of a
  run, so each theorem over runs holds after each method. What a node says that leaves no
  trace in the state is kept: fee markets and quotes heard, the chain served and the calls
  run, and how often the node or the store failed. Every operation answers that one was
  unavailable exactly when one failed during it, and then stops there (`World.Failing`).
* `Rail` (module `RailAccount`) - the methods of go/rail/rail.go and go/rail/status.go, one
  operation at a time. Every protocol step they take is proved to be enabled where they
  take it. A restart is a new `Rail` over the same `World`, with any venue and policy.
* `Audit` - the procedure of README.md:383-400 for a host, as one method over a `Rail`.
* `Sqlite` - the shipped store, row by row, proved to be the abstract store.
* `Gas`, `Reserve`, `Runway`, `Fees`, `Router`, `Refills` - the reserve policy, what it
  guarantees over runs of decided operations and over runs of the protocol, retry fees, a
  concrete venue that a refill runs against and that meets the trust base, and what every
  recorded attempt at a refill does there.
* `Units`, `Sqrt`, `Sums` - exact amounts as text, the integer square root, finite sums.

Hashing and signing are injective functions of the fields they cover: a transaction hash is
the transaction, a refill's identifier is the account and the eight bytes of its nonce.

## Where the code falls short of what one would expect

* The books balance exactly when no executed operation paid the account itself: `Prepare`
  accepts the account's own address (go/rail/rail.go:169) and the scan skips such transfers
  (go/rail/status.go:423). `Books.BooksBalance` carries the difference as a term,
  `Books.BooksBalanceExactly` says when it is zero, and `SelfPayment.BooksCanDisagree` reaches
  a state, for any account, where it is not.
* Printing an amount and reading it back works exactly for tokens with two decimals or more
  (go/rail/types.go:328, go/rail/types.go:354), though `Domain.Validate` admits one
  (go/rail/types.go:274). `Units.RoundTripExactly` is the condition.
* A refill is priced at a fee cap times its gas limit (go/rail/rail.go:504-505), so the
  dearest one ever made costs the greatest multiple of the limit within the fee bound. The
  reserve never strands exactly when no refill is that cheap, or the minimum covers a payment
  and the dearest refill (requirements.md:100-105) and the maximum and one gas limit cover the
  dearest refill and the most a stuck one may end up costing: a refill sized at a fee cap of
  one may be retried up to the fee bound (go/rail/rail.go:414-438). `GasPolicy.Validate` asks
  for neither (go/rail/types.go:222-242). `Reserve.NeverStrandsExactly` is the condition and
  `Reserve.RetriedRefillStrands` an input that fails it, at the default gas limit.
* Along runs of the protocol itself the reserve lasts under that condition
  (`Runway.ReserveLasts`) as long as nothing others sent is taken back: the policy reads the
  latest balance (go/rail/rail.go:496-508), and one that counts an unsettled block need not be
  there once that block is abandoned (`Runway.AbandonedIsNotHeld`). `WithdrawAll` does not
  consult the policy (go/rail/rail.go:234-280), so a run that uses it is not one of these.
* The fee bound holds of the attempt a refill makes itself (`RailAccount.Rail.Refill`), not of
  a retry, nor of a `Send` that resumes a refill recorded but not yet attempted
  (go/rail/rail.go:404-408): neither consults the policy. `Fees.RetryCostExactly` says when a
  retry stays within it.
* A pending refill may still execute only while the settled chain's time has not passed its
  deadline (go/rail/rail.go:360), though it stays pending after that and can be retried.
  `Progress.PendingMayExecute` is the condition.
* A settled nonce whose operation settled as something never recorded stops reconciliation
  for good (go/rail/status.go:354-356): `Lifecycle.RefusedForGood`. So does a settled nonce
  that nothing owns, unless the very transaction that spent it is later recorded as an attempt
  at a new operation there, which only an operation already being begun could do:
  `Lifecycle.UnownedForGood`. `RailAccount.Rail.Reconcile` refuses only at one of the two, and
  either shows that something else signed with the key.
* The square root reverts on the largest word, where `x + 1` overflows
  (contracts/script/SepoliaBootstrap.s.sol:107).
* A cursor advances as the store interface promises exactly when the compared values lie on
  the same side of 2^63, because SQLite compares signed integers
  (go/sqlite/sqlite.go:411-420). `Sqlite.AdvanceExactly` is the condition.
* requirements.md:224-225 says a settled nonce is matched to an intent by calldata. The code
  matches it by nonce, and the winner by the hash of a recorded attempt, which commits to
  the calldata (go/rail/status.go:240-265, go/rail/status.go:334-357). The model follows the
  code.

## Model

| member | source | states |
|---|---|---|
| Lifecycle.ExactlyOnce | go/rail/rail.go:384-438 | in every state of every run an identifier has at most one mined transaction, and a payment's amount reaches its destination zero times or once, once exactly when a mined attempt executed |
| Lifecycle.AttemptPays | go/rail/status.go:270-286 | a mined attempt at a payment moves exactly its amount to its destination when judged executed, and nothing when not |
| Lifecycle.OwnTransactionsAreRecorded | go/rail/rail.go:602-633 | every transaction of the key that the rail broadcast, or that was mined and is nobody else's, is a recorded attempt of exactly one recorded intent: field by field it is for this chain, with that intent's nonce, target and calldata, and exactly that attempt's tip, fee cap and gas |
| Lifecycle.ConfirmedExactly | go/rail/status.go:63-90 | a cached fact says executed if and only if a recorded attempt is mined at or below the settled head and carried the intent out |
| Lifecycle.SettledForever | go/rail/status.go:35-47 | a cached fact never changes, and after a failed one no continuation of the run has a mined attempt that executes the intent |
| Lifecycle.OutcomeStable | go/rail/status.go:233-265 | once a recorded attempt has won a settled nonce, recomputing at any later head, with any further attempts and any reorganisation above the settled head, gives the same fact; the cache equals recomputation |
| Lifecycle.NonceLedger | go/rail/status.go:316-359 | even with a foreign signer: one intent per nonce, at most one unresolved intent, and every nonce the floor has passed has an intent one of whose recorded attempts won it |
| Lifecycle.SoleSignerLedger | go/rail/rail.go:551-568 | when nothing else has signed since the first floor, whatever the key did before, the recorded nonces are a gap-free range from that floor, only the last may be unresolved, and every nonce spent since was won by a recorded attempt |
| Lifecycle.SoleSignerWon | go/rail/status.go:329-357 | under the same hypothesis each nonce spent at or above the first floor was spent by a recorded attempt at the intent that owns it |
| Lifecycle.RefusedForGood | go/rail/status.go:354-356 | an operation that settled as something never recorded keeps the floor at or below its nonce in every continuation |
| Lifecycle.UnownedForGood | go/rail/status.go:338-341 | a settled nonce that nothing owns was spent by something else, and the floor never passes it in any continuation, unless that transaction is later recorded as an attempt at a new operation on that nonce, and not even then once a later nonce is recorded |
| Lifecycle.OrphanIsForeign | go/rail/status.go:338-356 | an orphaned nonce was spent by a transaction something else signed |
| Lifecycle.RetriesCompound | go/rail/rail.go:411-438 | over every run attempts differ only in fees, the tip never exceeds the cap, both grow strictly and by (9/8)^k, gas stays, and no two attempts share a hash |
| Lifecycle.ScanIsFilter | go/rail/status.go:378-441 | in every reachable state, mid-scan crashes included, the recorded deposits up to the cursor are exactly the token's transfer events to the account, of a positive amount, from somebody else, from the first block to the cursor, with their sender, amount and block, by (hash, index), and none lies beyond the settled head |
| Progress.PendingMayExecute | go/rail/status.go:20-28 | while its nonce is unspent at the settled head, whoever else signs and whatever is mined above that head, a run can be continued to where a payment is confirmed, and to where a refill is, if and only if the settled chain's time has not passed its deadline |
| Progress.ConfirmedInTime | go/rail/rail.go:360 | a refill confirmed anywhere in a run was within its deadline at every earlier settled head at which its nonce was unspent |
| Progress.CarryOut | go/rail/status.go:20-28 | the continuation that confirms: one more settled block holding one transaction, and nothing else recorded or mined |
| Progress.AlwaysResolvable | go/rail/status.go:303-309 | when nothing else has signed since the first floor, every run, stopped anywhere, can be continued until every recorded operation is resolved |
| Books.BooksBalance | README.md:383-400 | at every auditable settled block the chain's balance is the opening balance plus recorded deposits minus executed payments and refill costs, plus what the account paid itself |
| Books.BooksBalanceExactly | README.md:383-400 | the plain audit equation holds if and only if no executed operation paid the account itself |
| Books.SoleSignerAuditable | README.md:390-396 | with one signer, and an earlier life of the key over before the first observed block, a scan past the block and an answer for every operation are all the audit needs |
| SelfPayment.SelfPaymentWidensGap | go/rail/rail.go:169 | from any audited state a payment to the account itself leads to an auditable block where the ledger is off by exactly that much more |
| SelfPayment.BooksCanDisagree | go/rail/status.go:423 | for any account, token, first block and valid policy there is a run that follows the policy to an auditable block at which the plain equation is off by one |
| Audit.Conduct | README.md:383-400 | the procedure as one method: what it states agrees with the chain, up to what the account paid itself, whenever one signer drives the key; it makes none only while the scan is behind the settled head, and refuses only for a failure or an operation that cannot be priced |
| Audit.AskAll | README.md:393-396 | the loop over the host's own list: the sum is what every listed operation books at the block, learned for good |
| Audit.AskAfter | README.md:393-396 | what one operation books at the block, learned for good; it is refused only for an identifier not recorded or an executed refill without one payment |
| Books.MoneyIn | go/rail/status.go:378-441 | the recorded deposits up to a scanned block sum to what the logs brought in |
| Books.MoneyOut | go/rail/status.go:92-158 | what the account's own transactions took out up to an auditable block is what the executed operations booked, one to one |
| Books.WindowBalance | README.md:388-396 | the chain's balance at a block splits into the balance before the first observed block, money in and money out |
| Books.AttemptSpends | go/rail/venue.go:313-334 | a mined attempt took out exactly what its operation books, less what came straight back |
| Books.RefillCostIsExact | go/rail/status.go:92-158 | an executed refill has a cost exactly when its transaction sent one transfer; the cost is then what left the account, and within the recorded bound at a venue that takes its price once |
| Protocol.RunKeepsInv | go/rail/store.go:5-16 | every state of every run satisfies all the invariants |
| Protocol.StepKeepsInv | go/rail/rail.go:602-633 | each durable write, broadcast or chain step that the protocol enables keeps them |
| Protocol.RunOnlyGrows | go/rail/store.go:5-7 | along every run nothing recorded is lost or changed, what is settled stays, and a resolved intent gets no further attempts |
| Protocol.RunKeepsNative | requirements.md:326-336 | the native accounting holds in every state of every run |
| Protocol.OneMinedAttempt | go/rail/types.go:78-81 | at most one attempt at an intent is ever mined, because they share a nonce |
| Protocol.OutcomeUnique | go/rail/status.go:233-239 | a spent nonce has one outcome, whichever attempt is looked at first |
| Protocol.OutcomeStands | go/rail/status.go:233-239 | an outcome at a settled nonce survives any growth of the chain and of the other records |
| Chain.EnvKeepsInv | requirements.md:326-336 | mining in nonce order, settling, abandoning unsettled blocks and foreign broadcasts keep the chain's invariants and its settled past |
| Chain.EnvKeepsBalance | requirements.md:326-336 | the balance at every block stays the opening balance plus the net of the transfer events up to it |
| Chain.EnvKeepsNative | requirements.md:326-336 | every move of the chain keeps the native accounting: what others sent only adds up, and between blocks where the account spent no nonce nothing else changes |
| Chain.SpentIsSettled | go/rail/status.go:69-81 | a nonce is spent at a block exactly when the transaction that spent it was mined at or below that block |
| Chain.SentTransferValues | go/rail/venue.go:319-334 | the loop collects the value of every transfer of the token the account sent, in order |
| World.World.SendTransaction | go/rail/rail.go:622-644 | only a recorded transaction is ever broadcast; a node that says the work is done holds it or has seen its nonce spent |
| World.World.PutIntent | go/rail/store.go:18-21 | recording lands or not, reports no more than what landed, and refuses only what the store does not admit |
| World.CollectLogs | go/rail/status.go:403-415 | a node's answer to the deposit query is every matching log in the range, once, and nothing else |
| RailAccount.Rail.StatusOf | go/rail/status.go:63-90 | confirmed, failed or pending exactly when the cached fact is executed, is not, or is missing; pending means the nonce was unspent at the settled head when the call began |
| RailAccount.Rail.CacheOutcome | go/rail/status.go:83-89 | what settled is found and cached, and nothing accounted for is lost |
| RailAccount.Rail.StatusById | go/rail/status.go:35-61 | unknown exactly when nothing is recorded, pending exactly when there is no fact, confirmed and failed exactly as the fact says; confirmed means a settled recorded attempt carried the intent out on the chain, failed that none did |
| RailAccount.Rail.FindOutcome | go/rail/status.go:240-265 | the backward walk returns the outcome; a node that cannot answer changes nothing durable |
| RailAccount.Rail.DidExecute | go/rail/status.go:270-286 | the loop over the logs decides whether the receipt succeeded and, for a payment, shows its transfer |
| RailAccount.Rail.Outcome | go/rail/status.go:195-223 | the settled fact, or none if the nonce was unspent when the call began |
| RailAccount.Rail.RefillCost | go/rail/status.go:103-158 | nothing for a failed refill, the one transfer of an executed one, and which error when it cannot say, including when there was not exactly one |
| RailAccount.Rail.SettledBalances | go/rail/status.go:174-186 | both balances at one settled block no older than the call, and the block |
| RailAccount.Rail.Reconcile | go/rail/status.go:316-359 | on success every nonce from the floor to what was spent when the call began is accounted for and the floor has passed it; a refusal shows an orphaned nonce among those spent, and with one signer since the first floor there is none |
| RailAccount.Rail.ReconcileUpTo | go/rail/status.go:337-357 | the loop accounts for every nonce from the floor on, or stops at an orphaned one |
| RailAccount.Rail.ReconcileNonce | go/rail/status.go:334-357 | one nonce ends accounted for by an intent with a recorded winner, or is refused as orphaned, which never happens with one signer since the first floor |
| RailAccount.Rail.SettledFact | go/rail/status.go:342-353 | the fact used for a nonce is the one that is cached afterwards, whether status or reconciliation looked first |
| RailAccount.Rail.ScanDeposits | go/rail/status.go:378-441 | on success everything settled when the call began is recorded, what is returned is exactly the deposits of the scanned range, once each, spans are contiguous, disjoint and at most 10,000 blocks; when interrupted, what was done stays |
| RailAccount.Rail.ScanSpan | go/rail/status.go:398-439 | one span is recorded in full before the cursor moves past it |
| RailAccount.Rail.RecordSpan | go/rail/status.go:416-434 | the loop records exactly the incoming transfers of a span |
| RailAccount.Rail.Settle | go/rail/status.go:290-301 | afterwards whatever is unresolved has a nonce that was unspent when the call began |
| RailAccount.Rail.BecomeReady | go/rail/rail.go:451-472 | success means everything is resolved, every recorded nonce is spent, and the floor has reached what was spent when the call began; in-flight means something really is unresolved; unreconciled shows an orphaned nonce and that something else signed; the endpoint is asked once, and must serve this chain |
| RailAccount.Rail.Unresolved | go/rail/rail.go:477-491 | the intent if it has no fact, nothing if it has, an error if it is not recorded |
| RailAccount.Rail.Fees | go/rail/rail.go:529-546 | the number and time of the head of the one market heard in the call; the tip is the suggestion and at least one, and the cap adds twice the base fee |
| RailAccount.Rail.PolicyInput | go/rail/rail.go:496-508 | the two balances, each as read at some moment of the call, with the given fee cap |
| RailAccount.Rail.NextNonce | go/rail/rail.go:551-568 | whatever of the account was mined at one moment of the call is below the nonce given and had settled by a later one; a refusal shows a transaction at a nonce unspent when the call began, and, when everything recorded had settled then, that something else signed it |
| RailAccount.Rail.FreshNonce | go/rail/rail.go:214-232 | when everything is resolved no recorded nonce collides with the one taken |
| RailAccount.Rail.Record | go/rail/rail.go:214-232 | at most one new intent, with the terms and head asked for, on the account's next nonce, its very call having just run under the gas bound its transaction carries, and no attempt; a conflict only if the identifier was recorded already |
| RailAccount.Rail.NonceFor | go/rail/rail.go:223-231 | a nonce is taken only for a call that has just run on its target under its gas; a refusal shows the call failing, or that something else signed |
| RailAccount.Rail.Sign | go/rail/rail.go:605-627 | the transaction signed is the attempt field by field: chain, nonce, target, call, tip, fee cap and gas; a new attempt is durable before anything is broadcast; reproducing a recorded one writes nothing |
| RailAccount.Rail.Submit | go/rail/rail.go:605-633 | only this intent's attempts can have been broadcast; on success the attempt is recorded and with the network or its nonce is spent |
| RailAccount.Rail.Send | go/rail/rail.go:389-409 | the first attempt is at the fees of the market heard in the call and the policy's gas; sending again reproduces the last attempt, whatever is configured by then, and records nothing; a settled intent is not sent |
| RailAccount.Rail.SendFirst | go/rail/rail.go:404-408 | the first attempt at an intent is at the tip and fee cap of the market heard, and the policy's gas |
| RailAccount.Rail.SubmitFirst | go/rail/rail.go:404-408 | whatever becomes of it, a first attempt is recorded at the fees given and the policy's gas |
| RailAccount.Rail.Retry | go/rail/rail.go:414-438 | exactly one attempt is added, under the same nonce and terms: the cheapest that pays the market heard in the call and replaces the last |
| RailAccount.Rail.RetryNow | go/rail/rail.go:426-438 | the attempt a retry records, for an operation whose attempts were just read |
| RailAccount.Rail.Prepare | go/rail/rail.go:155-208 | either the policy executed on the balances and the one market read in the call and exactly the asked intent is recorded, at the head read, its call run first, or no intent, attempt or broadcast is new and each shortage is what the policy decided on them; the same terms again do nothing; bad terms are refused at once, and every other refusal is explained by what the call read; the run keeps to the policy |
| RailAccount.Rail.PrepareNew | go/rail/rail.go:187-207 | an unrecorded payment is recorded if the policy executes, else refused for what it decided |
| RailAccount.Rail.PrepareNow | go/rail/rail.go:191-207 | the same once everything recorded has settled |
| RailAccount.Rail.Judge | go/rail/rail.go:191-207 | goes ahead, with the head of the market read, when the policy executes on the balances and that market, and otherwise says what it decided |
| RailAccount.Rail.Purse | go/rail/rail.go:254-261 | the market's fees and the two balances, all read in the call |
| RailAccount.Rail.WithdrawAll | go/rail/rail.go:234-280 | a withdrawal begins only with what was the whole balance and at a market whose fees for its gas the native balance covered, all read in the call, and its attempt carries those very fees; refuses for an empty balance or too little native currency only when it read that, and for no destination at once; run again on a recorded identifier it is always refused and neither records nor broadcasts |
| RailAccount.Rail.Leave | go/rail/rail.go:272-279 | the withdrawal is recorded at the head given, its call run first, and its first attempt carries the fees given and the policy's gas bound |
| RailAccount.Rail.Refill | go/rail/rail.go:327-382 | at most one new operation: a refill named by its nonce, restoring the maximum, spending at most the least integer that covers the venue's quote for that size and its slippage and leaving the reserved payment, good for an hour from the head read, its call run first, all on what was read in the call; its attempt carries the fees decided on, so it costs at most the fee bound; otherwise nothing, and the refusal is what the policy decided, or shows that something else signed; the run keeps to the policy |
| RailAccount.Rail.RefillNow | go/rail/rail.go:331-381 | the same once everything recorded has settled |
| RailAccount.Rail.Size | go/rail/rail.go:338-358 | a refill's size and bound come from a decision at the fee cap given, on balances and a quote for the size asked, both read in the call |
| RailAccount.Rail.RecordRefill | go/rail/rail.go:360-379 | the refill recorded carries the permit, swap and unwrap for its size, bound and account, a deadline an hour after the head's time, and that head, and its call was run first |
| RailAccount.Rail.BuyGas | go/rail/rail.go:360-381 | the refill is recorded and its first attempt carries the fees it was decided at and the policy's gas bound |
| RailAccount.Rail.Pay | go/rail/rail.go:302-319 | exactly one of payment or refill, touching one operation only; any refusal leaves intents, attempts and broadcasts as they were and is what the policy decided on what was read in the call; a refill begins only after the policy asked for one; a payment made now was decided and run first as Prepare does; repeating it never adds a second operation; the run keeps to the policy, and with one signer it is never unreconciled |
| RailAccount.NameRefill | go/rail/rail.go:667-673 | the byte loop writes the nonce most significant byte first |
| RailAccount.RefillsAreDistinct | go/rail/rail.go:664-673 | two refills of one account share an identifier only if they share the nonce |
| Refills.EveryAttemptDelivers | go/rail/venue.go:213-260 | in every reachable state every recorded attempt at a refill goes to the venue recorded with it; it runs there if and only if it is fillable, and then meets the trust base, costs one transfer within the bound, delivers the recorded size, and its events match the ledger |
| Records.CallsOnlyAdd | go/rail/store.go:17-53 | over every sequence of writes nothing is lost or changed, identifiers and nonces stay unique, and an intent is admitted exactly when it is well formed and either new on a free nonce or recorded with the same kind, destination, amount and nonce |
| Records.InOrder | go/sqlite/sqlite.go:203-214 | the listing holds every intent once, in the order of the key |
| Sqlite.Store.PutIntent | go/sqlite/sqlite.go:136-175 | insert-or-ignore, then compare: succeeds exactly when the abstract store admits the intent, otherwise changes nothing, and touches no other account |
| Sqlite.Store.InsertIntent | go/sqlite/sqlite.go:153-160 | a row is written only if both its identifier and its nonce are free for the account |
| Sqlite.Store.FindNonce | go/sqlite/sqlite.go:34 | finds the row that holds a nonce exactly when there is one |
| Sqlite.ViewIsKeyed | go/sqlite/sqlite.go:22-34 | the two uniqueness constraints make each account's view keyed by identifier and by nonce |
| Sqlite.Store.IntentByNonce | go/sqlite/sqlite.go:190-201 | the intent that owns the nonce, none exactly when it is free |
| Sqlite.Store.GetIntent | go/sqlite/sqlite.go:177-188 | the recorded intent, read back word for word |
| Sqlite.Store.Pending | go/sqlite/sqlite.go:203-228 | the intents without a fact ordered by the signed column, which below 2^63 is nonce order |
| Sqlite.Store.NextSeq | go/sqlite/sqlite.go:237-242 | the greatest sequence number plus one is the number of attempts recorded |
| Sqlite.Store.AppendSubmission | go/sqlite/sqlite.go:228-251 | one attempt is appended after the recorded ones and nothing else changes |
| Sqlite.Store.Submissions | go/sqlite/sqlite.go:253-286 | the attempts in the order they were appended |
| Sqlite.Store.PutFact | go/sqlite/sqlite.go:288-302 | the first fact stays, a repeat changes nothing |
| Sqlite.Store.GetFact | go/sqlite/sqlite.go:304-324 | the cached fact, if there is one |
| Sqlite.Store.PutDeposit | go/sqlite/sqlite.go:326-338 | the first record of a log stays, a repeat changes nothing |
| Sqlite.Store.ReadCursor | go/sqlite/sqlite.go:394-408 | unset stays distinct from zero, with or without a row |
| Sqlite.Store.AdvanceCursor | go/sqlite/sqlite.go:410-420 | only this cursor of this account moves, and below 2^63 it advances as the interface promises |
| Sqlite.AdvanceExactly | go/sqlite/sqlite.go:410-420 | the update is the abstract advance if and only if there is no row yet or both values lie on the same side of 2^63 |
| Sqlite.Store.Replay | go/rail/store.go:17-53 | for every sequence of writes by any accounts, each account sees the abstract store its own writes alone would have made |
| Sqlite.Store.BindDomain | go/sqlite/sqlite.go:117-132 | the first domain is kept, and any other is refused |
| Sqlite.ToInt64 | go/sqlite/sqlite.go:157 | a 64-bit word survives being stored as a signed integer |
| Gas.DecisionsAreSafe | go/rail/gas.go:83-117 | exactly when each of the six answers is given, and what a refill is: affordable in both currencies, sized to the maximum, leaving the payment, and spending at most the least integer that covers the quote and its slippage |
| Gas.OneRefillSuffices | go/rail/gas.go:83-117 | after a quote only a refill or a stablecoin shortage follows, and a refill delivered within its bounds lands at or above the maximum, exactly there at full cost, with the payment executable next |
| Gas.SlippageIsLeast | go/rail/gas.go:119-127 | the bound is the least integer at least the quote times one plus the slippage |
| Gas.SlippageCoversPriceRise | contracts/src/MockRouter.sol:93-115 | if the venue's price rises by no more than the slippage, the rounded-up input stays within the bound |
| Reserve.ReserveHolds | requirements.md:88-111 | when minimum and maximum suffice, along every run of payments and delivered refills, each costing at most its bound whatever it was sized at, the reserve can always pay for the dearest refill and the money is never overdrawn |
| Reserve.StrandedExactly | go/rail/gas.go:83-117 | some fee cap makes the policy answer that the reserve cannot pay for its own refill, if and only if the reserve is below the dearest refill it would make |
| Reserve.NeverStrandsExactly | go/rail/types.go:222-242 | over all runs, at every fee cap of one or more, the policy never answers that the reserve cannot pay for its own refill, if and only if no refill is within the fee bound, or the minimum covers a payment and the dearest refill and the maximum covers one sized at a fee cap of one and paid for at the most that can be held and is allowed |
| Reserve.RetriedRefillStrands | go/rail/rail.go:411-438 | at the default gas limit, a policy whose minimum covers a payment and a refill, and a refill decided on at a fee cap of 3 and retried up to a cap of 300, after which the reserve cannot pay for the next one |
| Reserve.RevertedRefillStrands | requirements.md:107-111 | without delivery the guarantee fails: a reverted refill can burn the whole reserve |
| Runway.ReserveLasts | requirements.md:88-111 | from the first floor bound with enough, in every later state of a run of the protocol that follows the policy, with one signer, capped attempts, delivered refills and nothing sent in taken back, every block leaves enough for the dearest refill, so the policy never answers that the reserve cannot pay for it |
| Runway.RunKeepsEnough | go/rail/rail.go:445-472 | along such a run what each operation was decided on is still held wherever an attempt at it may yet be mined |
| Runway.NothingAbove | go/rail/rail.go:445-472 | with one signer, nothing of the account is mined above a moment at which everything recorded had settled, until something more is recorded |
| Runway.AbandonedIsNotHeld | go/rail/rail.go:496-508 | a latest balance that counts what an unsettled block brought is not held once that block is abandoned |
| Runway.FollowedWith | go/rail/rail.go:155-208 | a stretch of a run that records one operation the policy chose, on a balance read after everything had settled, keeps to the policy |
| Fees.Bump | go/rail/rail.go:646-655 | a raised fee is more than nine eighths of the last |
| Fees.BumpIsLeast | go/rail/rail.go:646-655 | and it is the least integer that is |
| Fees.RetryAttempt | go/rail/rail.go:430-437 | the attempt a retry builds may follow the recorded ones |
| Fees.RetryIsCheapest | go/rail/rail.go:430-437 | no cheaper attempt both meets the node's price and replaces the last one |
| Fees.RetryCostExactly | go/rail/types.go:202-204 | a retry stays within a bound if and only if both the node's price and the bumped last attempt do |
| Fees.GeometricGrowth | go/rail/rail.go:430-437 | after k retries both fees have grown by at least (9/8)^k |
| Fees.AttemptsDiffer | go/rail/rail.go:620-622 | a later attempt is strictly dearer and a different transaction |
| Router.RefillExactly | contracts/src/MockRouter.sol:69-126 | a refill batch runs if and only if it is signed, in time, priced within its bound, held and stocked, and then takes the price once, leaves the rest of the permit, delivers what was bought and owed, and touches nobody else |
| Router.QuotedRefillNeverSlips | contracts/src/MockRouter.sol:106-118 | a refill sized from a quote never reverts on slippage while the price has risen by no more than the bound |
| Router.RefillRestoresReserve | go/rail/rail.go:321-382 | from the policy's decision through the venue: a refill sized by the policy that runs in time cannot fail, restores the reserve to the maximum or above, and the pending payment executes next |
| Router.RefillIsHonest | requirements.md:329-332 | a successful refill against this venue meets the trust base, takes its price once within the bound, and its events account for what its ledger moved |
| Router.OthersCannotSpend | requirements.md:329-332 | whatever batch anybody else sends this venue meets the trust base and moves none of the account's money |
| Router.MockRouter.Quote | contracts/src/MockRouter.sol:93-95 | the least input that covers the output at the price, or a revert exactly on overflow |
| Router.MockRouter.Swap | contracts/src/MockRouter.sol:106-118 | the checks in order, one pull of the quoted input, and the output owed to the caller |
| Router.MockRouter.Unwrap | contracts/src/MockRouter.sol:120-126 | everything owed is delivered once, at least the minimum |
| Router.MockRouter.Multicall | contracts/src/MockRouter.sol:69-80 | the loop runs the calls in order and returns each result, or reverts at the first that does |
| Router.MockRouter.Transact | contracts/src/MockRouter.sol:69-80 | a batch takes effect as a whole or not at all |
| Units.ParseUnits | go/rail/types.go:319-342 | a text is accepted exactly when it writes a decimal with no more places than the token has, and gives its worth in base units |
| Units.ReadDigits | go/rail/types.go:332-341 | the digit scan accepts exactly digits and computes the number they write |
| Units.TrimmedIsSpace | go/rail/types.go:320 | what is trimmed off a text is white space in front and behind, and what is left begins and ends with none |
| Units.AcceptedTextIsExact | go/rail/types.go:294-298 | what stands before and after the point of an accepted text are digits, either may be missing, and it is worth exactly the decimal they write times ten to the decimals |
| Units.FormatUnits | go/rail/types.go:344-358 | prints quotient and fraction, trailing zeros trimmed down to two places |
| Units.TwoPlaces | go/rail/types.go:354-356 | the loop pads to two places and no further |
| Units.RoundTripExactly | go/rail/types.go:319-358 | reading back a printed amount returns it if and only if the token has at least two decimals |
| Units.PrintedIsShortest | go/rail/types.go:344-345 | at least two places, no trailing zero beyond them, no leading zero |
| Sqrt.Sqrt | contracts/script/SepoliaBootstrap.s.sol:104-113 | the Newton loop ends and gives the floor of the root for every word but the largest, where it reverts |

## Left out

* Goroutines inside one `Rail`: each locked method runs whole, apart from failures and kills
  between its steps. The chain moves before each store or node operation; a move between a
  write and the next operation is the same as one just before that operation.
* Two rails driving one key at once: anything else signed with the key is foreign, and the
  theorems say which of them need nothing foreign to have been signed since the first floor.
* Liveness when the key had an unsettled transaction at the moment the first floor was bound
  (go/rail/status.go:329-333): it counts as foreign above the floor, and
  `Progress.AlwaysResolvable` does not apply.
* Reorganisations at or below the settled head, and a node that lies: trust base.
* Token internals, permit signatures and nonces, a token that treats the largest allowance
  as unlimited, and recipients that are contracts: a permit is signed or it is not, and
  sending native currency succeeds when the router holds it.
* The real venue's pricing, and calls a refill never makes inside a batch (a nested
  multicall, a price change): the batch is permit, swap and unwrap in any order and number.
* What a quote, a fee market or a simulation answers is any value the node could give; a
  pending-nonce query counts any number of the signed transactions still waiting. What a
  transaction does to the native balance is any value within its fee cap for its gas limit, and
  others can only add; that a refill delivers its size is a hypothesis of `Runway.ReserveLasts`,
  proved for one venue (`Router.RefillExactly`).
* That a transaction needs its whole fee cap held before it can be mined: `Progress` shows what
  may be mined once the account is funded for it.
* ABI and RLP encoding, Keccak and ECDSA: calldata is the structured call, a hash is what it
  covers. An empty calldata, an unknown kind byte and a missing (nil) amount cannot be
  written in the model.
* Wrap-around of 64-bit nonces, block numbers and log indices beyond what the store's signed
  columns do; heads are far from that limit.
* Amounts stored as decimal text, blobs and column types: rows hold the values. Integer
  columns are modelled as signed words.
* `Deposits`, `Balances`, `Pending`, `Intent` and `DepositsScannedTo` as public methods: each
  returns what the store or the node answers.
* `parseUnits` measures the fraction in bytes and the model in characters; both refuse any
  text with a character outside ASCII after trimming. `formatUnits` of a negative amount is
  not modelled; the rail never prints one.
* `Domain.Validate`, `CheckDomain`, `FundingChecklist`, `ParseAddress`, `ParseKey`,
  `ParseID`, `DomainKey`: single checks with no invariant behind them.
* `cmd/railctl`, the tests, the rest of the bootstrap script, deployment files, and the
  mechanics of RPC, SQL and JSON.
* Error texts: each error is its kind, and every failure of the node or the store, landed or
  not, is one kind.
