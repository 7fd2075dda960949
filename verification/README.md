# Gridix control plane: a verified model of its money and reliability core

Gridix buys compute from independent providers on behalf of developers. Its control plane
keeps a double-entry ledger, pays providers and debits developers on a chain, watches that
chain for deposits, bills inference requests, runs batch jobs through leases and quorum, and
holds slashed stake until a ruling. This project states those components as Dafny models and
proves what they keep over every run.

Most of the source works by changing stored rows step by step. Each such component appears
twice: as a step machine on values (`World`, `Step`, `Next`, `Run`), about which the
invariants and theorems are proved for every sequence of steps, and as a class whose methods
loop over and update their fields as the source does, each method's contract equating its
effect with steps of the machine. What the source computes without state is plain functions.

| files | component |
|---|---|
| `common`, `money`, `ledger` | options and sums; half-up rounding and unit conversion; the double-entry ledger |
| `chain_*`, `settlement*` | the settlement engine against a nonce-ordered chain, with crashes, failed sends, held and reverting transactions |
| `watcher*` | the chain watcher under growth and reorgs |
| `node_usage`, `streaming*`, `billing*` | token reports, the streamed response, holds and charges through database sessions, and how settling fails |
| `quorum`, `jobs*` | quorum; the job status machine, leases, reapers, finalization and escrow |
| `disputes` | stake, held slashes and rulings |
| `reconcile*` | the developer and provider checks |
| `artifact_cache` | the agent's LRU cache |

Ledger amounts are integers in ticks of 10^-8 USDC, chain amounts integers in units of
10^-6 USDC, raw costs reals. Identifiers, wallets, hashes and times are integers. A commit is
one step. A crash drops the open session and keeps what was broadcast; an exception in a
request handler leaves its session open until the handler is done.

## What turned out false

Where the source or its prose promises something the code does not do, the code is modelled
as it is, the exact condition is proved, and a concrete run or input shows the failure.

- A settlement row in flight can still be resolved if and only if its nonce was not consumed
  under another hash than the one it stored (`ResolvesIff`), and the engine can record again
  if and only if no row is so stuck (`ClearsIff`). A crash between broadcast and commit
  reaches a stuck row (`WedgeReachable`). It never pays twice.
- The debit phase records debits if and only if somebody owes and no owed debit's key is taken
  (`DebitPhaseIff`), and a developer's key is taken if and only if its last debit reverted
  (`BlocksIff`, reached by `RevertReachable`). Until that developer consumes a further whole
  unit nobody is debited (`RevertBlocksAll`); then the phase is free again (`WholeUnitFrees`).
- With autoflush off, a canonical log in the scanned range is stored if and only if no orphan
  row of the window under its key, with no reversal posted after it, shadows it (`Coverage`).
  A shadowed log is stored by the next tick, or by any later one, if and only if the head is
  no further past it than the window is wide (`RecoversIff`); else it is missed for good
  (`DroppedThenMissed`, reached by `LostDeposit`).
- Shallow reorgs never reverse an applied effect (`Finality`), but applied events stay on the
  chain if and only if the window covers the confirmation depth (`StaysCanonicalIff`).
- A request's hold is returned exactly once if and only if its developer's balance and the hold
  cover the charge (`ReturnedOnceIff`). Otherwise a handler returns it twice (`ReturnedTwice`)
  and a stream that tried twice leaves it in escrow for ever (`StrandedForever`). Other
  components cause it when they take more than balance and hold leave over the charge
  (`SettleFailsIff`): withdrawals, reorg reversals and data charges always post unchecked, a
  job's hold when no on-chain gate is active. Without such postings it cannot happen
  (`HoldSafety`).
- Reading a token report raises exactly for non-finite floats (`UsageReadable`), and only
  then do the streamed and the unary bill differ (`RefinesUnary`, `UnreadableDiffers`).
- The running token count of a stream does not only grow: it goes down if and only if a chunk
  states fewer tokens than were counted before (`CountTakesOver`, `CountShrinks`).
- A request that produced no token pays all the same if and only if it finished and its prompt
  has a price: a stream that just stopped, or an answer with a status below 400 whose report,
  if there is one, is readable (`TokenlessPaysIff`; `TokenlessUnaryIff` for the unary path).
  A stream of nothing and an empty answer are charged (`SilentCharged`, `EmptyAnswerCharged`).
- A billed job ends without a final cost if and only if a reaper takes it, by lapsed lease or
  by silent provider, with its rounds used up (`AbandonedIff`, `LetGo`); all its escrow is then
  held in every continuation (`AbandonedForever`).
- A redundant job in flight can end if and only if it was given as many attempts as votes
  (`RedundantEndsIff`, `ShortReachable`).
- The developer check is clean if and only if job consumption is a whole number of units and
  there are no inference or data charges (`DeveloperDelta`, `ReportsExactly`, `HalfUnitOff`);
  against the engine's own chain it is also off by debits made and not yet confirmed
  (`EngineDelta`).
- The order in which votes are read changes the winner if and only if the lead is tied
  (`OrderMattersIff`, `TieDepends`), which no reachable job allows (`QuorumSound`).
- A cache store on a listed digest whose file has vanished caches nothing (`StoreThenFetch`,
  `VanishedStays`).

## Model

| member | source | states |
|---|---|---|
| Money.HalfUpIs | api/app/usage_billing.py:52-58 | half-up rounding is the nearest integer with ties away from zero, and nothing else |
| Money.HalfUpMonotone | api/app/usage_billing.py:52-58 | rounding preserves order, the fact that makes a hold cover its charge |
| Money.FeeBounds | api/app/pricing.py:37-40 | a fee of at most 10,000 basis points lies between zero and the cost |
| Money.FeeIs | api/app/pricing.py:37-40 | a fee is the integer nearest to its basis points of the cost, a half counting up, and nothing else |
| Money.UnitsIs | api/app/chain/units.py:14-19 | token units drop the fraction of a ledger amount, and the way back is exact |
| Ledger.Book.PostTransaction | api/app/ledger.py:41-81 | a posting list is appended whole exactly when it is non-empty and its sides agree; otherwise nothing changes |
| Ledger.Book.VerifyIntegrity | api/app/ledger.py:107-127 | returns exactly the transactions whose debits and credits differ |
| Ledger.NothingCreated | api/app/ledger.py:1-16 | over every account together, balanced transactions create and destroy nothing |
| Ledger.TransferMoves | api/app/ledger.py:84-99 | a transfer balances, and moves its amount from one owner's account to the other's and nowhere else |
| SettlementEngine.FakeChain.Send | api/app/chain/fake.py:204-216 | a send queues one transaction under a new hash, or fails once and queues nothing |
| SettlementEngine.FakeChain.ExecuteOne | api/app/chain/fake.py:204-254 | each payload's effect or revert, its receipt and the nonce it consumes |
| SettlementEngine.FakeChain.CreditAll | api/app/chain/fake.py:224-228 | a batch credits every payee its amount, in order |
| SettlementEngine.FakeChain.Split | api/app/chain/fake.py:134-136 | outside actions in order, held transactions, and a dictionary of the others by nonce |
| SettlementEngine.FakeChain.TakeRun | api/app/chain/fake.py:138-141 | exactly the gap-free run from the next nonce is taken, the rest waits |
| SettlementEngine.FakeChain.MineOne | api/app/chain/fake.py:125-152 | one block: outside actions, then the gap-free run, receipts, balances and nonce |
| SettlementEngine.FakeChain.MineAll | api/app/chain/fake.py:125-152 | mining n blocks is n times one block |
| ChainModel.MineBlockOk | api/app/chain/fake.py:130-140 | mining keeps the chain consistent: consecutive nonces, balances explained by what was mined, history only extended |
| ChainEffects.MinedOkIff | api/app/chain/fake.py:218-254 | in every block a coordinator transaction succeeds if and only if no revert of its kind was asked for and pool or escrow still covers it at its turn |
| ChainEffects.OutsideMoves | api/app/chain/fake.py:84-103 | a deposit adds to its own wallet, a covered withdrawal takes from it, nothing else moves |
| SettlementEngine.Engine.Recover | api/app/chain/settlement.py:114-161 | the pass over rows equals the recovery steps: re-broadcast at the reserved nonce, confirm or fail what is deep enough, commit |
| SettlementEngine.Engine.Unsettled | api/app/chain/settlement.py:341-367 | one leg per provider with a wallet and earnings beyond its live reservations |
| SettlementEngine.Engine.MaybeBatch | api/app/chain/settlement.py:164-228 | equals the batch steps; records exactly when nothing is in flight and a batch is due, the interval counted from the last one, and then restarts the interval |
| SettlementEngine.Engine.Orders | api/app/chain/settlement.py:246-252 | what each developer with a wallet owes beyond its live debit rows |
| SettlementEngine.Engine.InsertDebits | api/app/chain/settlement.py:248-266 | inserts one row per order on consecutive nonces, and aborts exactly when some key is taken |
| SettlementEngine.Engine.MaybeDebit | api/app/chain/settlement.py:231-266 | equals the debit steps; records exactly when due, owed and unblocked, and aborts, leaving the rows alone, exactly when a planned key is taken |
| SettlementEngine.Engine.Tick | api/app/chain/settlement.py:86-111 | the four phases in order as one run of the machine, the last skipped after an abort |
| SettlementSafety.RunInv | api/app/chain/settlement.py:86-228 | the protocol invariant survives every engine phase, crash, failed send, re-broadcast, revert and block |
| SettlementTheorems.NoDoublePay | api/app/chain/settlement.py:341-405 | in every run the chain pays a provider at most its live reservations, and those at most the units of its earnings |
| SettlementTheorems.SettledBooksAgree | api/app/chain/settlement.py:114-161 | with nothing in flight, paid, reserved and recorded are the same number |
| SettlementTheorems.ReservationStands | api/app/chain/settlement.py:148-157 | a batch keeps every payee's reservation until a revert consumed that batch's own nonce |
| SettlementTheorems.NonceDiscipline | api/app/chain/settlement.py:401-405 | recorded nonces are gap-free and duplicate-free; all broadcasts at one nonce carry one payload; at most one is mined |
| SettlementTheorems.RecordedAfterMined | api/app/chain/settlement.py:164-190 | new rows are committed only once every earlier recorded nonce is mined |
| SettlementTheorems.RunGrows | api/app/chain/settlement.py:86-111 | mined history only grows and a recorded payload never changes |
| SettlementTheorems.PoolSufficiency | api/app/chain/settlement.py:187-209 | a batch whose deposit executed, or needed none, never finds the pool short |
| SettlementTheorems.PoolExact | api/app/chain/settlement.py:187-209 | without outside funding the pool ends at exactly max(0, old pool - total) |
| SettlementTheorems.DebitBound | api/app/chain/settlement.py:231-299 | on-chain debits stay within live debit rows, and those within the units consumed |
| SettlementDepth.ResolvedIsDeep | api/app/chain/settlement.py:134-157 | in every run a confirmed or failed row was mined under the hash it stored, with that outcome, at least the confirmation depth ago |
| SettlementDepth.PassResolvesIff | api/app/chain/settlement.py:114-161 | from every reachable idle state a recovery pass resolves a row in flight if and only if its stored hash was mined deep enough |
| SettlementPhases.BatchPhaseIff | api/app/chain/settlement.py:164-228 | the batch phase records if and only if nothing is in flight, something is owed and it is forced, late or over the threshold, and then reserves and pays every provider exactly what it is owed |
| SettlementPhases.DebitStepsIff | api/app/chain/settlement.py:231-266 | the debit phase records if and only if it is forced or late, nothing is in flight, somebody owes and no key is taken, and then debits everyone for all they consumed |
| SettlementPhases.InputsCounted | api/app/chain/settlement.py:341-367 | earnings, consumption and outside funding are exactly what the run's postings add up to |
| SettlementLiveness.StuckForever | api/app/chain/settlement.py:126-139 | a row whose nonce was mined under another hash stays in flight in every continuation |
| SettlementLiveness.RecoveryReachable | api/app/chain/settlement.py:126-157 | a row that stored the mined hash can be resolved: bury it and recover once |
| SettlementLiveness.ResolvableIff | api/app/chain/settlement.py:126-157 | a row with a consumed nonce can be resolved if and only if its stored hash is the mined one |
| SettlementLiveness.WedgeReachable | api/app/chain/settlement.py:126-139 | a lost commit after a broadcast reaches a paid row that stays pending for ever |
| SettlementQueue.StepQueued | api/app/chain/settlement.py:114-139 | every step keeps: a hash stored for a nonce not yet mined is the hash queued last at that nonce |
| SettlementQueue.MineQueues | api/app/chain/fake.py:134-141 | a block mines exactly what is queued from the next nonce to the first gap, and leaves every later nonce queued as it was |
| SettlementQueue.ResolvesIff | api/app/chain/settlement.py:114-161 | in every reachable idle state a row in flight, mined or not, can be resolved if and only if its nonce was not consumed under another hash |
| SettlementQueue.ClearsIff | api/app/chain/settlement.py:114-190 | in every reachable idle state a table with nothing in flight can be reached if and only if no row is stuck so |
| SettlementDebits.DebitPhaseIff | api/app/chain/settlement.py:240-266 | an idle engine records debits if and only if somebody owes and no debit key is taken |
| SettlementDebits.OneBlocksAll | api/app/chain/settlement.py:255-266 | while one developer's owed key is taken and it consumes no further whole unit, no run records a debit for anyone |
| SettlementKeys.RunKeys | api/app/chain/settlement.py:231-299 | in every run each debit row raised its developer's live debits to the total in its key, and a developer's rows have growing totals |
| SettlementKeys.BlocksIff | api/app/chain/settlement.py:148-161 | in every reachable state a developer's owed debit is blocked if and only if its last debit, for all it consumed to the unit, reverted |
| SettlementKeys.RevertBlocksAll | api/app/chain/settlement.py:240-266 | after one reverted debit no run records a debit for anyone until that developer consumes a further whole unit |
| SettlementKeys.WholeUnitFrees | api/app/chain/settlement.py:259-259 | a further whole unit frees the developer, and the phase records again if no other debit reverted |
| SettlementKeys.RevertReachable | api/app/chain/fake.py:239-246 | a debit of more than the escrow reverts when mined and then blocks the phase |
| Watcher.FirstDue | api/app/chain/watcher.py:171-180 | a due event that no other due event precedes by block and log index, or that none is due |
| WatcherMirror.EffectMoves | api/app/chain/watcher.py:196-227 | an applied log moves exactly its worth to its developer, balanced, and a log without an owner moves nothing |
| WatcherMirror.ReversalMoves | api/app/chain/watcher.py:229-257 | the compensating posting is the exact opposite of the effect |
| WatcherMirror.DropOrphansOk | api/app/chain/watcher.py:138-166 | the reorg check leaves exactly the rows still on the chain, with the books mirroring what is left |
| WatcherMirror.ApplyDueOk | api/app/chain/watcher.py:168-189 | the apply pass marks exactly the due rows and posts each effect once |
| WatcherTheorems.MirrorHolds | api/app/chain/watcher.py:91-257 | in every run a developer's chain-caused balance is its processed stored deposits less its processed stored withdrawals |
| WatcherTheorems.Soundness | api/app/chain/watcher.py:101-133 | with reorgs inside the window, after every tick each stored event is a log of the canonical chain |
| WatcherTheorems.ShadowedIs | api/app/chain/watcher.py:138-166 | the keys marked deleted but unflushed are exactly those of an orphan row of the window with no reversal posted after it |
| WatcherTheorems.TickCoverage | api/app/chain/watcher.py:106-133 | a canonical log of the scanned range is stored after a tick if and only if no such orphan row shadows its key |
| WatcherTheorems.Coverage | api/app/chain/watcher.py:101-133 | the same over every run; under an unshadowed key of the range exactly what is canonical is stored |
| WatcherStart.FirstTickIff | api/app/chain/watcher.py:91-106 | the first tick on any chain stores a log if and only if it is not below the window of the deploy block, or of the block before the head when none is configured |
| WatcherStart.NothingSkipped | api/app/chain/watcher.py:91-133 | with a deploy block, in every run with reorgs inside the window a tick leaves every canonical log from there on stored, unless a tick found its key shadowed |
| WatcherStart.AppliedIff | api/app/chain/watcher.py:168-189 | in every run, after a tick a stored event is applied if and only if it was before or is as deep as the confirmations ask for |
| WatcherFinality.Finality | api/app/chain/watcher.py:157-189 | if the head never goes down and reorgs are shallower than the confirmation depth, no applied effect is ever reversed, whatever the window |
| WatcherFinality.AppliedStays | api/app/chain/watcher.py:157-164 | under the same reorgs an event once applied is still stored and applied after any continuation |
| WatcherFinality.StaysCanonical | api/app/chain/watcher.py:73-75 | with a window that covers the confirmation depth, applied events also stay on the canonical chain |
| WatcherWindow.StaysCanonicalIff | api/app/chain/watcher.py:73-75 | they stay there in every such run if and only if the window covers the confirmation depth |
| WatcherWindow.NarrowWindow | api/app/chain/watcher.py:101-103 | any narrower window has a run of shallow reorgs that applies an orphaned deposit |
| WatcherFinality.MissedForever | api/app/chain/watcher.py:102-106 | a canonical log below the window that is not stored stays unstored while the chain grows |
| WatcherFinality.DroppedThenMissed | api/app/chain/watcher.py:108-117 | a log taken for a dropped row and left behind by the window is never stored |
| WatcherFinality.RecoversIff | api/app/chain/watcher.py:101-133 | in every reachable state a shadowed log is stored by the next tick on the same chain, or at any time while the head grows, if and only if it is within the window of the head |
| WatcherFinality.LostDeposit | api/app/chain/watcher.py:101-133 | with the default depths, a one-block reorg and five more blocks lose a canonical deposit: no continuation in which the head grows stores it |
| WatcherEngine.ChainWatcher.Drop | api/app/chain/watcher.py:157-164 | reverse an applied orphan, flushing the session, then mark its row deleted |
| WatcherEngine.ChainWatcher.HandleReorg | api/app/chain/watcher.py:138-166 | the loop with its cache of canonical hashes drops exactly the orphans of the window |
| WatcherEngine.ChainWatcher.Ingest | api/app/chain/watcher.py:106-131 | adds exactly the logs the session does not show |
| WatcherEngine.ChainWatcher.Apply | api/app/chain/watcher.py:178-189 | posts one event's effect if it has one and marks its row |
| WatcherEngine.ChainWatcher.ApplyConfirmed | api/app/chain/watcher.py:168-189 | the loop applies the due events in block and log order |
| WatcherEngine.ChainWatcher.Tick | api/app/chain/watcher.py:78-136 | one scan is one step of the machine when it commits and nothing when it does not |
| NodeUsage.UsageReadable | api/app/node_usage.py:22-59 | reading a report raises exactly for a non-finite count, and never yields more output than the ceiling |
| StreamingReports.UsageIs | api/app/node_usage.py:22-59 | value by value: which prompt and completion counts a report states, their defaults, floor, truncation and ceiling |
| StreamingReports.ReportBilled | api/app/streaming_chat.py:115-140 | a report of p and c tokens is billed input price times p plus output price times c under the ceiling, at most the gate's price, streamed or not |
| StreamingReports.UnreadableBills | api/app/streaming_chat.py:324-337 | a response that cannot be read bills the tokens counted before it, or nothing |
| StreamingReports.AgainBills | api/app/streaming_chat.py:142-152 | a second try charges the same as the first, or nothing when no token was produced |
| StreamingReports.BareTokens | api/app/streaming_chat.py:104-113 | chunks that state no count count one each, up to the ceiling |
| StreamingReports.CountTakesOver | api/app/streaming_chat.py:104-113 | a chunk's own count replaces the running one, which shrinks if and only if it is smaller |
| StreamingReports.CountShrinks | api/app/streaming_chat.py:99-100 | three tokens stated and then one: one is billed |
| NodeUsage.ChatCostMonotone | api/app/catalog.py:82-102 | a chat within the priced tokens never costs more than the price the gate reserved |
| NodeUsage.ImageCostMonotone | api/app/catalog.py:91-93 | nor do fewer images |
| Streaming.ReadWithin | api/app/streaming_chat.py:131-152 | from any point of any frame sequence the charge lies between nothing and the worst case |
| StreamingTheorems.ReadPast | api/app/streaming_chat.py:231-256 | frames that neither end nor break the stream only move the token count and use up yields |
| StreamingTheorems.TokensBound | api/app/streaming_chat.py:104-113 | the running count never passes the ceiling, whatever the node reports |
| StreamingTheorems.RefinesUnary | api/app/streaming_chat.py:263-286 | after any chunks, a successful response with a dictionary is billed as the unary path bills it, except exactly when its report is unreadable and tokens were counted |
| StreamingTheorems.UnreadableDiffers | api/app/node_usage.py:37-37 | a not-a-number report after three tokens: the stream bills three, the unary path nothing |
| StreamingTheorems.FailureReleases | api/app/streaming_chat.py:244-278 | a node error, an error status or a lost transport releases the whole hold |
| StreamingTheorems.LeavingBills | api/app/streaming_chat.py:324-337 | a client that leaves at a chunk is billed for exactly the tokens counted by then, nothing for none |
| StreamingTheorems.SilentEnd | api/app/streaming_chat.py:280-287 | a stream that just stops is settled, prompt included, even without a token |
| StreamingTheorems.SilentCharged | api/app/streaming_chat.py:280-287 | no frame at all and a prompt of five tokens at one unit: five units charged |
| StreamingTheorems.ReadEnds | api/app/streaming_chat.py:195-337 | what a stream does with its hold depends only on how it ended and how many tokens were counted by then |
| StreamingTheorems.TokenlessPaysIff | api/app/streaming_chat.py:142-152 | for every frames, failure and disconnect without a token: charged if and only if the stream stopped by itself or on a readable successful answer, and the prompt billed has a price |
| StreamingTheorems.TokenlessUnaryIff | api/app/routes/inference.py:259-275 | a unary reply without a token is charged if and only if its report is readable and its prompt has a price |
| StreamingTheorems.EmptyAnswerCharged | api/app/streaming_chat.py:263-287 | a successful answer with an empty report, or none, charges five units for a prompt of five, streamed or not |
| StreamingTheorems.StreamedWithin | api/app/streaming_chat.py:195-337 | for every frames, failure and disconnect the charge is within the hold's price, and a second try charges the same or nothing |
| StreamingTheorems.TriesAgain | api/app/streaming_chat.py:263-337 | after a response frame the clean-up tries again exactly when the stream had finished readably and without an error status |
| StreamingTheorems.UnaryWithin | api/app/routes/inference.py:259-275 | and so is the unary charge |
| StreamingBody.Accounting.SawChunk | api/app/streaming_chat.py:104-113 | the node's count or one more, clamped; a raise leaves the count as it was |
| StreamingBody.ReadFrames | api/app/streaming_chat.py:222-271 | the loop leaves by a finish, a lost transport or an interruption exactly as the frames, the tail and the client dictate |
| StreamingBody.SettleAlone | api/app/streaming_chat.py:155-172 | in a session of its own, hold returned and charge made together, or neither |
| StreamingBody.FinalisePartial | api/app/streaming_chat.py:340-366 | charges, releases, or gives up and leaves the hold in escrow |
| StreamingBody.ChatStreamBody | api/app/streaming_chat.py:195-337 | for every frames, failure, disconnect and postings of others: one try, a second only after a finished stream's settlement failed, and the resulting books and status |
| BillingTheorems.ClosingWithin | api/app/routes/inference.py:207-287 | however a chat, stream or image request ends, it bills between nothing and the ceiling its gate priced, and a second try no more |
| BillingTheorems.ChargeFits | api/app/usage_billing.py:89-98 | a charge under the ceiling fits the hold and tops the raw ceiling by half a unit at most |
| BillingTheorems.UsagePostings | api/app/usage_billing.py:101-113 | the charge balances: the developer loses the cost, the provider gains it less the fee |
| BillingTheorems.HandleResolves | api/app/usage_billing.py:185-225 | what a handler's settlement, release, or failed settlement followed by a release moves, for every owner |
| BillingTheorems.TryResolves | api/app/streaming_chat.py:155-178 | what a stream's try moves, nothing when its charge fails |
| BillingTheorems.HoldsExact | api/app/usage_billing.py:89-225 | over every interleaving with any other postings: escrow, balances and earnings are those postings plus exactly what the holds stand for, failures included |
| BillingPrices.GateHolds | api/app/usage_billing.py:117-167 | the gate refuses exactly when the balance is short of the most a request can cost, to the nearest unit, and else holds exactly that |
| BillingPrices.ChargeMoves | api/app/usage_billing.py:66-114 | a charge goes through exactly when the balance covers its nearest units; the developer pays them, the provider earns all but the nearest unit of the fee |
| BillingPrices.ImageBilled | api/app/routes/inference.py:352-372 | an image request is billed for the images kept, at most those asked for |
| BillingPrices.DepositCredits | api/app/usage_billing.py:228-252 | a deposit credits its developer its nearest units and nobody else |
| BillingSafety.ReturnedOnceIff | api/app/usage_billing.py:97-99 | in every reachable state a billing request returns its hold exactly once if and only if balance and hold cover the charge; else a handler returns it twice, a stream retries or strands it |
| BillingSafety.RetryIff | api/app/streaming_chat.py:324-366 | a stream's clean-up after a failed settlement releases, charges or strands, by the same test |
| BillingSafety.HoldSafety | api/app/usage_billing.py:117-225 | if nothing other components post overdraws a developer, no developer is ever overdrawn, every hold is open, charged or returned once, and no settlement fails |
| BillingSafety.RequestsOnly | api/app/usage_billing.py:143-225 | with only deposits and requests, in any interleaving, escrow is exactly the open holds and nobody is overdrawn |
| BillingFailures.SettleFailsIff | api/app/usage_billing.py:97-99 | whatever others post while a request is out, its settlement fails if and only if they took more than balance and hold leave over the charge |
| BillingFailures.JobDebits | api/app/payments.py:57-71 | a job's hold and data charge are such postings and take their amount |
| BillingFailures.ChainDebits | api/app/chain/watcher.py:217-257 | so are an applied withdrawal and a reversed deposit |
| BillingFailures.ReturnedTwice | api/app/routes/inference.py:370-381 | deposit ten, hold ten, lose five to a job: the image handler leaves escrow at minus five and the balance at fifteen |
| BillingFailures.StrandedForever | api/app/streaming_chat.py:280-366 | the same for a stream: both tries fail, fifteen units are in escrow, and in every continuation the ledger's escrow holds the ten of that request on top of all else |
| BillingTheorems.ResolvedOnce | api/app/routes/inference.py:213-287 | a closed hold never changes again, in any run |
| BillingEngine.ReserveBalance | api/app/usage_billing.py:117-167 | refuses exactly when the balance is short of the rounded amount, else holds and commits exactly that |
| BillingEngine.ReturnReservation | api/app/usage_billing.py:170-182 | posts the return of a positive hold |
| BillingEngine.ChargeUsage | api/app/usage_billing.py:66-114 | posts the rounded cost, or nothing when it is zero or not covered by what the session sees |
| BillingEngine.SettleReservation | api/app/usage_billing.py:185-211 | hold returned and charge made, committed together; a charge that fails leaves the return posted and uncommitted |
| BillingEngine.ReleaseReservation | api/app/usage_billing.py:214-225 | commits the return of the hold with whatever the session had posted before |
| BillingEngine.Conclude | api/app/routes/inference.py:213-287 | settle or release by the settled flag; a failed settlement is followed by a release in the same session, committing two returns |
| BillingEngine.ChatCompletions | api/app/routes/inference.py:207-287 | the unary handler is the gate, others' postings while it waits, then the finishing step |
| BillingEngine.ImageGenerations | api/app/routes/inference.py:327-381 | likewise, billing the images kept, at most those asked for |
| Quorum.Leader | api/app/quorum.py:44-45 | the first seen among the hashes no other hash outvotes |
| Quorum.WinnerIff | api/app/quorum.py:40-48 | a winner is declared exactly when some hash has a strict majority of the required votes, and the winner has one |
| Quorum.MajorityUnique | api/app/quorum.py:46-46 | with no more usable results than votes required, at most one hash has a majority |
| Quorum.Sides | api/app/quorum.py:50-56 | agreers are the winning hash's voters, disagreers everyone else with a say, and no provider is both |
| Quorum.OrderIndependent | api/app/quorum.py:34-56 | untied, the winner and both sides are the same in every reading order |
| Quorum.OrderMattersIff | api/app/quorum.py:44-45 | some reading order changes the winner if and only if the lead is tied |
| Quorum.TieDepends | api/app/quorum.py:44-48 | two different results for one vote: whichever is read first wins |
| Jobs.FindAttempt | api/app/routes/agent.py:76-89 | a provider's latest unfinished attempt, if it has one |
| JobsSafety.WinnerCarriesHash | api/app/results.py:154-164 | the attempt chosen to settle a decided job completed and carries the winning hash |
| JobsSafety.FinalizeOk | api/app/results.py:130-171 | finalizing is always a legal transition and completes a job exactly when there is a winner |
| JobsSafety.TimesOutIff | api/app/results.py:165-171 | a job decided without a winner timed out exactly when every attempt overran |
| JobsSafety.AssignOk | api/app/assignment.py:50-79 | assignment keeps the job invariant: one attempt, or up to K by different providers |
| JobsSafety.ResultOk | api/app/results.py:73-106 | so does recording any result |
| JobsSafety.ReclaimOk | api/app/assignment.py:90-117 | reclaiming requeues a job with rounds left and fails it otherwise, legally |
| JobsSafety.ReapAttemptsOk | api/app/assignment.py:147-186 | so does marking stale attempts lost and deciding the job |
| JobsSafety.ActOk | api/app/state_machine.py:19-85 | every action keeps the invariant and none asks for a forbidden transition |
| JobsTheorems.AttemptBudget | api/app/assignment.py:50-144 | rounds within budget, one unfinished attempt and a lease exactly when in flight, at most three status changes a round |
| JobsTheorems.AlwaysLegal | api/app/state_machine.py:55-85 | no reachable job ever raises an illegal transition |
| JobsTheorems.QuorumSound | api/app/results.py:135-171 | redundant jobs have one round of different providers, their decision is order-independent, a completed job's proof is of the winning hash |
| JobsLiveness.RankFalls | api/app/state_machine.py:19-30 | a measure falls whenever an action changes a job's status |
| JobsLiveness.TerminalFrozen | api/app/state_machine.py:27-34 | a terminal job, its cost included, never changes again |
| JobsLiveness.ShortForever | api/app/results.py:121-127 | a redundant job with fewer attempts than votes stays in flight in every run |
| JobsLiveness.RedundantEndsIff | api/app/assignment.py:53-57 | a redundant job in flight can end if and only if it was given all the attempts it needs |
| JobsLiveness.ShortReachable | api/app/assignment.py:53-57 | three votes wanted and two providers found: submitted, assigned, and never over |
| JobsStranded.AbandonedIff | api/app/assignment.py:106-111 | from every reachable state a step ends a billed job without a final cost if and only if a reaper, by lease or silent provider, takes it with its rounds used up |
| JobsStranded.AbandonedForever | api/app/results.py:195-231 | all the escrow of such a job is still held in every continuation |
| JobsStranded.LetGo | api/app/assignment.py:120-230 | a job submitted, assigned and let go by either reaper ends so |
| JobsTheorems.SubmitOnce | api/app/routes/jobs.py:63-70 | in every reachable state a developer has at most one job per idempotency key, and a repeat changes nothing |
| JobsLeases.HeartbeatKeeps | api/app/routes/agent.py:237-251 | in every reachable state a heartbeat keeps a job from the lease reaper exactly until the lease it sets, and a redundant job's attempt likewise, and changes nothing else |
| JobsLeases.AssignGrants | api/app/assignment.py:41-87 | an assignment takes the first candidates, as many as the job runs at once, under the lease given, safe from the reaper until then |
| JobsLeases.ReportBegins | api/app/routes/agent.py:255-283 | a report of a provider at work moves job and attempt to running and nothing else; anyone else's changes nothing |
| JobsLeases.ResultRecorded | api/app/results.py:73-127 | a result closes the provider's attempt with its outcome and hash, and the job runs on until enough attempts are finished |
| JobsLeases.ReapsIff | api/app/assignment.py:120-144 | the lease reaper takes exactly the single jobs in flight whose lease has passed |
| JobsLeases.DrainsIff | api/app/assignment.py:200-230 | the connection reaper takes exactly the single jobs in flight of silent providers |
| JobsLeases.SubmitsIff | api/app/routes/jobs.py:63-109 | a submission is refused exactly for a repeated key or an uncovered price; else the job is queued as asked for with that price in escrow |
| JobsLiveness.SingleEnds | api/app/results.py:85-171 | a singly run job ends on its provider's first result: completed, failed, or timed out only in its first round |
| JobsEscrow.CostWithinEstimate | api/app/pricing.py:17-34 | a run no longer than its timeout never costs more than the estimate held for it, and no time costs nothing |
| JobsEscrow.CostIs | api/app/pricing.py:17-34 | a run costs the tick nearest to price times cores, four times with a GPU, times minutes |
| JobsEscrow.PayPostings | api/app/payments.py:73-93 | settling balances: escrow loses the cost, the provider gains the net |
| JobsEscrow.SettleMoves | api/app/results.py:195-231 | a finalization splits the hold into net, fee and refund exactly, touches nobody else, and refunds all of it without a winner |
| JobsEscrowTheorems.EscrowExact | api/app/results.py:195-231 | in every reachable state job-tagged escrow is the holds of unsettled billed jobs, job by job, and a settled job took exactly its final cost |
| JobsEngine.JobStore.SubmitJob | api/app/routes/jobs.py:63-109 | holds the worst-case price and adds the job, unless the key repeats or on-chain settlement cannot cover it |
| JobsEngine.JobStore.AssignProviders | api/app/assignment.py:41-87 | the assignment step, returning the providers taken |
| JobsEngine.JobStore.Heartbeat | api/app/routes/agent.py:237-251 | renews both leases exactly for a provider with an unfinished attempt of a job in flight |
| JobsEngine.JobStore.ReportStatus | api/app/routes/agent.py:255-283 | the report step, accepted under the same guard |
| JobsEngine.JobStore.FinalizeIfDecided | api/app/results.py:109-180 | decides and settles a job exactly when every vote is in |
| JobsEngine.JobStore.SubmitResult | api/app/routes/agent.py:444-470 | the result step, returning the job's new status |
| JobsEngine.JobStore.ReclaimJob | api/app/assignment.py:90-117 | reclaims one job and tells whether it was requeued |
| JobsEngine.JobStore.ReapExpiredLeases | api/app/assignment.py:120-144 | the loop is one reap step per job, and returns exactly the jobs requeued |
| JobsEngine.JobStore.DrainUnreachableProviders | api/app/assignment.py:200-230 | likewise for silent providers |
| JobsEngine.MarkLost | api/app/assignment.py:163-179 | marks exactly the unfinished attempts whose lease lapsed |
| JobsEngine.JobStore.ReapExpiredAttempts | api/app/assignment.py:147-186 | the pass is one attempt-reaping step per job |
| Disputes.StakeConserved | api/app/disputes.py:45-127 | over every run stake is never negative, disputed is the unresolved disputes, stake, disputed and burned add up to deposits, rulings paid each dispute once |
| Disputes.RulingFinal | api/app/disputes.py:105-127 | a resolved dispute never changes again and no dispute changes its amount |
| Disputes.DepositStakes | api/app/ledger.py:130-141 | a deposit adds its amount to the provider's own stake and moves nothing else |
| Disputes.SlashTakes | api/app/ledger.py:144-166 | in every reachable state a slash burns the full amount when the stake covers it and all the stake otherwise |
| Disputes.OpenHolds | api/app/disputes.py:30-72 | a new dispute holds the full amount when the stake covers it and all the stake otherwise |
| Disputes.ContestIff | api/app/disputes.py:90-102 | a contest puts a dispute under review exactly if it is open and before its window closes |
| Disputes.RulingPays | api/app/disputes.py:105-127 | a ruling burns the held stake or gives it back, once |
| Disputes.Desk.Deposit | api/app/ledger.py:130-141 | the stake deposit step |
| Disputes.Desk.Slash | api/app/ledger.py:144-166 | takes at most the stake there is, and returns what it took |
| Disputes.Desk.OpenCase | api/app/disputes.py:30-72 | holds at most the stake there is and opens a dispute over it |
| Disputes.Desk.ContestCase | api/app/disputes.py:90-102 | accepted exactly for an open dispute whose window is still open |
| Disputes.Desk.ResolveCase | api/app/disputes.py:105-127 | burns or returns the held stake once; a ruled dispute is left alone |
| Reconcile.PayShift | api/app/chain/reconcile.py:155-168 | a job settlement moves its cost from the developer's claim to its consumption |
| Reconcile.UsageShift | api/app/usage_billing.py:101-113 | an inference charge lowers the claim without counting as consumption |
| ReconcileChecks.StepDev | api/app/chain/reconcile.py:8-12 | every step keeps claim plus consumption plus uncounted charges equal to what the chain took in |
| ReconcileChecks.DeveloperDelta | api/app/chain/reconcile.py:114-132 | in every reachable state the check is off by exactly the uncounted charges and the fraction of a unit: nothing or one unit when only jobs charge, clean if and only if neither exists |
| ReconcileChecks.DebitsByDeveloper | api/app/chain/reconcile.py:170-192 | sums the confirmed debits of every developer |
| ReconcileChecks.CheckDevelopers | api/app/chain/reconcile.py:114-132 | raises exactly when a listed developer's sum is negative, else reports exactly the listed developers whose escrow differs |
| ReconcileChecks.ReportsExactly | api/app/chain/reconcile.py:114-132 | in every reachable state: raises if and only if a listed developer is overdrawn, else names exactly those with uncounted charges or a fraction of a unit, short by those units |
| ReconcileChecks.HalfUnitOff | api/app/chain/units.py:14-19 | a job paid a unit and a half puts the check off by one |
| ReconcileChecks.CheckProviders | api/app/chain/reconcile.py:135-152 | reports exactly the mismatches and over-payments of the providers given |
| ReconcileChecks.NeverOverpaid | api/app/chain/reconcile.py:149-151 | the over-pay report is unreachable, and with nothing in flight the provider check is clean |
| ReconcileEngine.EscrowConserved | api/app/chain/fake.py:125-152 | over every run of engine and chain a wallet's escrow plus its successful debits is what was there and what outsiders moved |
| ReconcileEngine.DepositsArrive | api/app/chain/fake.py:84-92 | over any run in which a wallet withdraws nothing, its escrow, its debits and its waiting deposits are what it started with and deposited |
| ReconcileEngine.ConfirmedDebits | api/app/chain/settlement.py:148-161 | confirmed debit rows never exceed the debits the chain made, and equal them with nothing in flight |
| ReconcileEngine.ConfirmedByOwner | api/app/chain/reconcile.py:170-192 | the confirmed debits summed by developer are those of the developer's wallet |
| ReconcileEngine.EngineDelta | api/app/chain/reconcile.py:114-132 | against the engine's own table and chain the check is off by exactly the units it cannot see, less the debits made and not yet confirmed, none once nothing is in flight |
| ReconcileEngine.EngineDiffers | api/app/chain/reconcile.py:122-131 | so a developer the check can read is reported if and only if those two do not cancel out |
| ArtifactCache.LongestSuffix | agent/agent.py:175-180 | the survivors of an eviction are the longest most-recently-used suffix that fits the cap |
| ArtifactCache.RunOk | agent/agent.py:152-180 | over every run each digest is listed once with its file's size, and the total stays under the cap |
| ArtifactCache.RunAgrees | agent/agent.py:152-180 | over every run in which nothing else removes files, every listed digest has its file and is found |
| ArtifactCache.RunOrdered | agent/agent.py:155-170 | over every run the index stands in the order in which its digests were last fetched or stored |
| ArtifactCache.EvictsLeastRecent | agent/agent.py:163-180 | a store keeps exactly the entries that fit the cap together with everything used after them |
| ArtifactCache.HitIsGenuine | agent/agent.py:155-161 | a hit returns bytes that were stored under that digest |
| ArtifactCache.StoreThenFetch | agent/agent.py:163-170 | right after a store a new digest is found exactly when it fits the cap, a listed one as it was before |
| ArtifactCache.VanishedStays | agent/agent.py:165-167 | storing a listed digest whose file is gone leaves it unfound |
| ArtifactCache.VanishLoses | agent/agent.py:157-159 | a vanished file is not found and no other digest is affected |
| ArtifactCache.Cache.TotalBytes | agent/agent.py:172-173 | the sum of the recorded sizes |
| ArtifactCache.Cache.Get | agent/agent.py:155-161 | the fetch step of the recency list; a missing file drops the entry; if index and files named the same digests they still do, and a hit is exactly a listed digest |
| ArtifactCache.Cache.Put | agent/agent.py:163-170 | the store step of the recency list; if index and files named the same digests they still do |
| ArtifactCache.Cache.Evict | agent/agent.py:175-180 | the loop leaves exactly the fitting suffix, in index and files alike |

## Left out

- Coordinator account: one engine process and an account nobody else uses are assumed, and wallets are fixed and different.
- Chain reorgs in the settlement model: the simulated chain's reorg leaves balances and nonces alone, so reorgs appear only in the watcher model.
- Wallet registration: the map from wallets to developers is fixed, so a deposit from a wallet registered later is not modelled.
- Web3 client, signers, key management: foreign calls and cryptography.
- Matcher: any list of different candidate providers may be returned.
- Verification verdicts, reputation, graduated penalties, adjudication: a result's validity, a slash's amount and a ruling are inputs; the adjudicators' unconditional state writes are not modelled; data charges enter as an amount.
- JobsEngine.JobStore.ReapExpiredAttempts: attempts are marked and jobs decided job by job, where the source marks all stale attempts first; the jobs are independent.
- Disputes opened by a finalization: opening is a step of the dispute machine, not part of the job step.
- JobsEngine.JobStore.SubmitJob: request validation is not modelled, and what a developer has available on-chain is an input.
- StreamingBody.ChatStreamBody: disconnects happen at yields only; a body that never starts, a failing database commit and cancellation inside one are not modelled.
- Token reports: text is kept only as whether it is empty and which integer it spells.
- Relay and tunnel transport, moderation, rate limits, authentication, image storage, bandwidth, audit chain, metrics, migrations, frontend: input and output or policy that would add only easy members.
