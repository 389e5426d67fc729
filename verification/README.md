# fluxel-assets: the asset store, its attempt protocol and the file loader, verified

This project models the synchronized asset store of `crates/assets` and the file loader
built on it, and proves what the design document promises of them for every input, every
run and every interleaving. `dafny verify dfyconfig.toml` checks all of it.

## What is modelled

- **The store.** `StoreState` has the data and, for each operation under the store lock, a
  function from the state before to the state after. `StoreInvariant` has the invariant and
  its preservation, `Collection` and `CandidateOrder` the eviction policy, `StateMachine`
  what one operation leaves for the next, `CacheMap` the refinement to a map from live
  identity to content. `StoreInner` is the store as a class, one method per locked
  operation in the source's steps, each proved against its function. Slots and slot
  generations are bounded by u32; touches, attempts, contents and bytes by u64.
  `Retirement` and `CleanExits` follow every reference to a user value or error that leaves
  the store, on every way out of every operation: it is dropped after unlocking, and the
  exits that would drop it before are unreachable. `StoreInner` does the same in place.
- **The store and its callers.** `StoreWorld` is a step system: any number of threads that
  own handles, snapshots, permits, weak handles and waiters, in any order, with `complete`
  a step of its own and `collect` one step per strong count it reads. `WorldInvariant`
  proves every step; `WorldRuns`, `TokenLife`, `CollectRuns`, `Recency` (least recently used),
  `Ledger` (who owns what) and `Progress` state what holds over whole runs.
  Permits own no token, outcomes in cells do, as in the source.
- **Permits.** `ProducerPermit` has the consuming calls with the drop at their end.
- **The attempt cell.** `AttemptProtocol` is a step system over any number of threads,
  stores, cells and waiters, one step per lock acquisition and critical section. A store
  operation does under its lock what `StoreState` says, with any arguments, and then drops
  what `Retirement` says. Executor and user code (waker clone, drop and wake, destructors)
  is a step of its own that may call any operation again before it returns. `AttemptLocks`
  has the lock discipline, `AttemptWakeups` and `AttemptSteps` the preservation of the
  invariant, `AttemptRuns` the theorems about cells, `AttemptOutcomes` those about stores
  and cells together, `AttemptAnswers` what callers are told, registered and relieved of.
  `AttemptCell` is the same cell as objects, run alone.
- **Store ids.** `StoreIds` is the compare-and-exchange loop with spurious failures.
- **The file loader.** `FileDirectory` and `FileSingleFlight` put the key directory on top
  of `StoreWorld`; `FileKey`, `FileLoader`, `FileProducer`, `InFlightBudget` and `ReadExact`
  are the imperative parts, `FileConsumer` a caller of them; `ProducerLife` has the counters as independent atomics.

Token and cell allocations are told apart by an address taken from a counter (`arcs`), so
that pointer equality is part of the model. Committed values and errors are opaque. Strong
counts are arguments of the class methods and computed from the owners in the step system.

## Where the code and its documentation differ

- `documents/design-assets.md:122` says that dropping an unfinished permit marks its
  attempt cancelled. At `touch == u64::MAX` the cancel is rejected and its result ignored,
  so the attempt keeps running without a producer. `WorldRuns.DropEndsAttempt` and
  `ProducerPermit.CommitSettles` state exactly when the promise is kept: one touch for a
  fail, a cancel or a drop, two for a commit that is rejected for byte overflow.
  `Exhaustion.DropCanStrand` is a run in which it is not.
- `documents/design-assets.md:119-120` says that late and foreign permits have no side
  effects. Each such call advances the touch (`StateMachine.LatePermitIsRefused`).
- `documents/design-assets.md:140-141` says that collection scans ready entries. The code
  also evicts the value a failed entry kept, and so does the model.
- The loader counts a production as cancelled when the store refuses its commit, also in the
  case above where no cancellation is published (`FileProducer.EndingIsTheOutcome`).

## Model

| member | source | states |
|---|---|---|
| `StoreState.Lookup` | crates/assets/src/runtime.rs:318-334 | an identity resolves exactly when it is of this store, its slot is occupied and the generation is current; otherwise it is foreign or stale |
| `StoreState.Validate` | crates/assets/src/runtime.rs:336-346 | a handle is accepted exactly when its identity resolves and it owns that entry's own token |
| `StoreInvariant.CreateKeepsValid` | crates/assets/src/runtime.rs:412-442 | `create` keeps the invariant, returns an identity never issued before, in the lowest free slot or else appended, and fails exactly when touches or slots have run out |
| `StoreInvariant.AcquireKeepsValid` | crates/assets/src/runtime.rs:444-468 | `acquire` keeps the invariant and every retained value, and is rejected only without a touch or with a handle that does not validate: attempt exhaustion is unreachable |
| `StoreInvariant.RetryKeepsValid` | crates/assets/src/runtime.rs:470-504 | the same for `retry`; its early attempt-exhaustion exit is unreachable |
| `StoreInvariant.ReplacementKeepsValid` | crates/assets/src/runtime.rs:506-537 | the same for `request_replacement` |
| `StoreInvariant.ObserveKeepsValid` | crates/assets/src/runtime.rs:539-565 | the same for `observe` |
| `StoreInvariant.AttemptsLeft` | crates/assets/src/runtime.rs:373-397 | while a touch is left, so are an attempt and a content generation, for every entry |
| `StoreInvariant.CommitKeepsValid` | crates/assets/src/runtime.rs:589-656 | a commit for the active attempt fails exactly without a touch or when the byte total would leave u64; any other commit is refused and moves the touch only; on success the new generation is one above the old and the bytes replace those retained |
| `StoreInvariant.FailKeepsValid` | crates/assets/src/runtime.rs:658-705 | a fail for the active attempt fails exactly without a touch; retained values and bytes stay |
| `StoreInvariant.CancelKeepsValid` | crates/assets/src/runtime.rs:707-747 | a cancel for the active attempt fails exactly without a touch; retained values and bytes stay |
| `StoreInvariant.RemoveKeepsValid` | crates/assets/src/runtime.rs:749-804 | `remove` succeeds exactly for live, unused identities not in production, its byte check never fails after the slot was emptied, and the slot becomes free unless its generations are used up |
| `StoreInvariant.OneRunner` | crates/assets/src/runtime.rs:373-397 | no two entries run the attempt of one cell |
| `StoreInvariant.TotalBytesUpdate` | crates/assets/src/runtime.rs:628-651 | rewriting one slot moves the total of retained bytes by exactly the difference, and no slot retains more than the total |
| `StateMachine.WhoStarts` | documents/design-assets.md:100-104 | which call starts work in which phase, exactly: `acquire` on missing, `retry` on failed too, a replacement on anything not in production; everyone else joins, reads or sees the failure |
| `StateMachine.ObserveOnlyLooks` | crates/assets/src/runtime.rs:539-565 | observing starts no attempt, ends none and changes no phase |
| `StateMachine.JoinAfterStart` | crates/assets/src/runtime.rs:399-410 | after an attempt starts, every acquire, retry and replacement joins that attempt, and observers still see the previous value |
| `StateMachine.ReadAfterCommit` | crates/assets/src/runtime.rs:642-655 | acquire, retry and observe return the very snapshot the commit returned |
| `StateMachine.ReadAfterFail` | crates/assets/src/runtime.rs:689-704 | acquire and observe return the very failure; a retry then starts the next attempt and keeps the previous value observable |
| `StateMachine.ReadAfterCancel` | crates/assets/src/runtime.rs:733-746 | the previous value is ready again, or else the identity is missing and the next acquire starts the next attempt |
| `StateMachine.LatePermitIsRefused` | crates/assets/src/runtime.rs:607-626 | a permit whose attempt is over is refused as expired by commit, fail and cancel alike, naming the attempt that runs now; only the touch moves |
| `StateMachine.StaleAfterRemove` | crates/assets/src/runtime.rs:567-587 | a removed identity is stale and its weak handles do not upgrade, also after the slot got a new occupant |
| `StateMachine.ForeignIsRejected` | crates/assets/tests/lifecycle_edges.rs:108-149 | handles, weak handles, identities and permits of another store are foreign to every operation, and nothing but the touch moves |
| `StateMachine.RemoveSaysWhy` | crates/assets/src/runtime.rs:753-771 | a refused removal names the reason, in this order: no such identity, the number of users, the attempt that runs |
| `StateMachine.UpgradeAnswers` | crates/assets/src/runtime.rs:567-587 | a weak handle upgrades to itself exactly while its token has an owner and is that of the live entry; only a foreign one is an error |
| `StoreInner.StoreInner.constructor` | crates/assets/src/runtime.rs:278-303 | a new store is empty and satisfies the invariant |
| `StoreInner.StoreInner.NextTouch` | crates/assets/src/runtime.rs:263-269 | the next touch, or exhaustion with the state unchanged |
| `StoreInner.StoreInner.EntryMut` | crates/assets/src/runtime.rs:318-334 | resolves an identity as `StoreState.Lookup` does |
| `StoreInner.StoreInner.ValidateHandle` | crates/assets/src/runtime.rs:336-346 | resolves a handle as `StoreState.Validate` does |
| `StoreInner.StoreInner.MakeAttempt` | crates/assets/src/runtime.rs:373-397 | numbers the attempt, puts the entry into production in a new cell and hands out its only permit; its error exit would drop the previous value under the caller's guard, so callers must rule it out |
| `StoreInner.StoreInner.Create` | crates/assets/src/runtime.rs:412-442 | state and reply of `create`; the invariant holds afterwards |
| `StoreInner.StoreInner.PopFirst` | crates/assets/src/runtime.rs:415-416 | takes the lowest free slot |
| `StoreInner.StoreInner.Acquire` | crates/assets/src/runtime.rs:444-468 | state and reply of `acquire`; the invariant holds afterwards |
| `StoreInner.StoreInner.Retry` | crates/assets/src/runtime.rs:470-504 | state and reply of `retry`; the error of the failed attempt, and nothing else, is dropped, after unlocking |
| `StoreInner.StoreInner.RetryGuarded` | crates/assets/src/runtime.rs:474-500 | the part under the guard: the phase is taken out before the next attempt overwrites it |
| `StoreInner.StoreInner.RequestReplacement` | crates/assets/src/runtime.rs:506-537 | state and reply of `request_replacement`; an error in its way is dropped after unlocking |
| `StoreInner.StoreInner.Observe` | crates/assets/src/runtime.rs:539-565 | state and reply of `observe` |
| `StoreInner.StoreInner.Upgrade` | crates/assets/src/runtime.rs:567-587 | reply of `upgrade` |
| `StoreInner.StoreInner.Commit` | crates/assets/src/runtime.rs:589-656 | state and reply of `commit`, and the outcome published; after unlocking it drops the replaced value, or the value handed in when refused |
| `StoreInner.StoreInner.CommitGuarded` | crates/assets/src/runtime.rs:597-651 | the part under the guard: no phase that holds anything is overwritten, a taken phase is put back on every refusal, and the store's cell reference goes while the permit has another |
| `StoreInner.StoreInner.Fail` | crates/assets/src/runtime.rs:658-705 | state and reply of `fail`, and the outcome published; a refused error is dropped after unlocking |
| `StoreInner.StoreInner.Cancel` | crates/assets/src/runtime.rs:707-747 | state and reply of `cancel`; nothing is dropped |
| `StoreInner.StoreInner.Remove` | crates/assets/src/runtime.rs:749-804 | state and reply of `remove`; the value and error of the removed entry are dropped after unlocking |
| `StoreInner.StoreInner.RemoveGuarded` | crates/assets/src/runtime.rs:753-801 | the part under the guard: the exit of the byte check, which would drop the entry before the guard, is never taken |
| `StoreInner.StoreInner.Candidates` | crates/assets/src/runtime.rs:809-828 | the candidates are exactly the idle entries that retain a value out of production, each once |
| `StoreInner.StoreInner.EvictEntry` | crates/assets/src/runtime.rs:835-866 | one eviction moves the value of one entry to the retirement list, takes its bytes and leaves a failure in place; neither error exit, which would drop the list under the lock, is taken |
| `StoreInner.StoreInner.Collect` | crates/assets/src/runtime.rs:806-877 | `collect` ends in the closed-form collected state, reports bytes before and after, lists exactly the evictions, oldest first, and drops exactly the evicted values, after unlocking |
| `StoreInner.StoreInner.CacheStats` | crates/assets/src/runtime.rs:879-907 | counts exactly the entries that retain a value, in whatever phase, and reports their total bytes |
| `StoreInner.StoreInner.Close` | crates/assets/src/runtime.rs:910-930 | closing completes exactly the cells of running attempts, each once, after unlocking |
| `StoreInner.StoreInner.DropFields` | crates/assets/src/runtime.rs:910-930 | then every value and error goes, with no lock held |
| `StoreInner.StoreInner.Drop` | documents/design-assets.md:165-168 | references are dropped with the lock free only, and are on record |
| `StoreInner.StoreInner.SetPhase` | crates/assets/src/runtime.rs:615-621 | assigning a phase drops the one there, so under the lock that one must hold nothing |
| `StoreInner.StoreInner.TakePhase` | crates/assets/src/runtime.rs:607 | the phase moves out before anything overwrites it |
| `Retirement.ExitConserves` | documents/design-assets.md:165-168 | on every way out of every operation, the unreachable ones included: the references to values and errors the slots own before, and the one moved in, are reference by reference those the slots own after and those dropped, under the lock, after it or after the completions |
| `Retirement.CommitConserves` | crates/assets/src/runtime.rs:597-653 | for a commit: in goes the value, out goes the replaced one, or the value itself |
| `Retirement.RemoveConserves` | crates/assets/src/runtime.rs:769-802 | for a removal: the entry's value and error go, before the guard on the failing byte check and after it otherwise |
| `Retirement.CollectConserves` | crates/assets/src/runtime.rs:830-871 | for a collection: the retirement list is what left the slots, and both error exits drop it before the guard |
| `Retirement.HoldingsAreOwned` | crates/assets/src/runtime.rs:250-260 | what a closing store drops is every reference its slots own |
| `CleanExits.ExitIsClean` | documents/design-assets.md:165-168 | in a valid store no way out of any operation drops a value or error under the lock; a cell reference dropped there is one the caller's permit has too; an attempt runs afterwards if and only if it ran and was not ended, or was just started |
| `CleanExits.RemoveIsClean` | crates/assets/src/runtime.rs:789-802 | the failing byte check behind `take` is unreachable |
| `CleanExits.CollectIsClean` | crates/assets/src/runtime.rs:830-871 | both error exits of the eviction loop are unreachable, and the loop reaches the closed form |
| `CleanExits.RetiredByCollect` | crates/assets/src/runtime.rs:830-871 | what is missing from the slots after a collection is what the loop retired |
| `CleanExits.CloseEndsAll` | crates/assets/src/runtime.rs:910-930 | closing ends exactly the attempts that run, each once, as closed |
| `CleanExits.PublishesItsAnswer` | crates/assets/src/runtime.rs:652-746 | what an operation leaves to publish is what it answers its caller, in the cell of the permit: the committed snapshot, the failure, or the cancellation with the value retained before; nothing when refused |
| `CleanExits.ExitIsTheOperation` | crates/assets/src/runtime.rs:412-930 | whatever is dropped and published on the way out, the store is left as the operation says; a collection in its closed form |
| `CleanExits.ReportExists` | crates/assets/src/runtime.rs:826-866 | every collection of a valid store has its report |
| `Collection.CollectKeepsValid` | crates/assets/src/runtime.rs:806-877 | a collection keeps the invariant and every slot that is pinned, in production or without a value |
| `Collection.CollectedIsPrefix` | crates/assets/src/runtime.rs:826-834 | what is evicted is everything eligible older than some touch, and the evicted bytes are theirs |
| `Collection.CollectMeetsBudget` | crates/assets/src/runtime.rs:826-877 | before minus after equals the evicted bytes; without its last eviction the budget would be exceeded; if it is exceeded afterwards, no idle identity out of production has a value left, and the bytes left are exactly those of pinned and producing identities |
| `Collection.ReportIsExact` | crates/assets/src/runtime.rs:806-877 | the report lists each identity that lost its value and no other, with the generation and bytes it lost; it had no user, was not producing and stood in the way of the budget; a failure keeps its error, and nothing else changes |
| `Collection.OldestGoFirst` | crates/assets/src/runtime.rs:826-834 | if an identity lost its value, so did every idle one out of production that was touched no later |
| `Collection.ReportIsUnique` | crates/assets/src/runtime.rs:829 | last touches are distinct, so any correct sort gives the same report |
| `CandidateOrder.InsertKeepsSorted` | crates/assets/src/identity.rs:62-66 | inserting into an ascending list keeps it ascending and a permutation, in the order by touch and then by identity |
| `CandidateOrder.SortUnstable` | crates/assets/src/runtime.rs:829 | the result is ascending and a permutation of the candidates |
| `CandidateOrder.SortedIsStrict` | crates/assets/src/runtime.rs:829 | sorted candidates ascend strictly by last touch: the identity tie-break never decides |
| `CandidateOrder.StopsRight` | crates/assets/src/runtime.rs:832-834 | the loop stops at the first candidate that the closed form does not evict |
| `CacheMap.ContentKeys` | crates/assets/src/runtime.rs:318-334 | the keys of the abstract content map are exactly the live identities |
| `CacheMap.CreateContent` | crates/assets/src/runtime.rs:412-442 | `create` adds its identity without content; a rejected one changes nothing |
| `CacheMap.CommitContent` | crates/assets/src/runtime.rs:589-656 | a commit replaces the content of its identity alone, under a newer generation; a rejected one changes nothing |
| `CacheMap.CollectContent` | crates/assets/src/runtime.rs:806-877 | a collection clears the content of exactly the evicted identities |
| `CacheMap.RemoveContent` | crates/assets/src/runtime.rs:749-804 | `remove` deletes its identity alone and reports exactly the content it had |
| `CacheMap.CancelRestores` | crates/assets/src/runtime.rs:733-746 | a cancelled replacement leaves exactly the prior ready value, a cancelled first production leaves nothing |
| `CacheMap.QuietStep` | crates/assets/src/runtime.rs:444-747 | acquire, retry, replacement, observe, fail, cancel and every rejected call leave the map as it is |
| `CacheMap.QuietRunKeepsContent` | crates/assets/src/runtime.rs:444-747 | so does any mix of them, of any length |
| `ProducerPermit.ProducerPermit.Commit` | crates/assets/src/production.rs:80-94 | a consuming commit, the drop at its end included, is the store's commit followed by a cancel when it was rejected; on a closed store it changes nothing |
| `ProducerPermit.ProducerPermit.Fail` | crates/assets/src/production.rs:97-106 | the same for fail |
| `ProducerPermit.ProducerPermit.Cancel` | crates/assets/src/production.rs:109-117 | the same for cancel |
| `ProducerPermit.ProducerPermit.Drop` | crates/assets/src/production.rs:120-131 | a finished permit drops without effect, an unfinished one cancels once |
| `ProducerPermit.CommitSettles` | crates/assets/src/production.rs:80-131 | a consuming commit ends its attempt, committed or cancelled, if and only if the touches it needs are left |
| `ProducerPermit.FailSettles` | crates/assets/src/production.rs:97-131 | a consuming fail ends its attempt if and only if a touch is left |
| `ProducerPermit.CancelSettles` | crates/assets/src/production.rs:109-131 | a consuming cancel ends its attempt and publishes the cancellation with the value retained before if and only if a touch is left, and answers Ok exactly then; a drop does the same to store and waiters |
| `ProducerPermit.LatePublishesNothing` | crates/assets/src/production.rs:80-131 | a permit whose attempt is over publishes nothing, whatever its owner calls, and moves the touch only |
| `ProducerPermit.OverflowRecovers` | crates/assets/src/runtime.rs:628-641 | a commit rejected for overflow and its drop leave the store, recency apart, as a cancel would |
| `ProducerPermit.CancelledIsRetryable` | crates/assets/src/runtime.rs:707-746 | after such an overflow the identity can be produced again, under the next attempt |
| `Exhaustion.DropCanStrand` | crates/assets/src/production.rs:124-130 | the counterexample, a run from the empty store: create, acquire, observe until no touch is left, drop the permit; the attempt still runs with no permit and nothing decided |
| `WorldRuns.StepKeepsInv` | crates/assets/src/runtime.rs:412-930 | every step of every caller keeps the global invariant of store, owners, permits, outcomes and history |
| `WorldRuns.RunKeepsInv` | crates/assets/src/runtime.rs:412-930 | so every reachable state has it |
| `WorldRuns.RunGrows` | crates/assets/src/runtime.rs:170-184 | nothing on record is ever lost or rewritten: issued identities, committed values, decided and published outcomes |
| `WorldRuns.SingleFlight` | crates/assets/src/runtime.rs:607-626 | in an open store two live permits never share an identity, and each guards exactly the attempt its entry runs |
| `WorldRuns.PermitsAreHonoured` | crates/assets/src/runtime.rs:600-641 | a live permit is refused for lack of touches or for byte overflow only, never as stale, foreign or expired |
| `WorldRuns.OneState` | crates/assets/src/runtime.rs:170-184 | an attempt runs, is decided or is completed, and exactly one of these; it runs if and only if some entry is producing in its cell |
| `WorldRuns.NoPermitNoAttempt` | crates/assets/src/production.rs:120-131 | an attempt whose permit is gone is over, while touches are left or the store is closed |
| `WorldRuns.DropEndsAttempt` | crates/assets/src/production.rs:124-130 | dropping an unfinished permit of an open store decides its attempt as cancelled, with its previous value, if and only if a touch is left; in a closed store it was over before |
| `WorldRuns.RejectedCommitThenDrop` | crates/assets/src/production.rs:80-131 | a commit and the drop of its permit, with anyone in between: the commit was rejected and the drop decides the attempt as cancelled if and only if a touch is left then |
| `WorldRuns.QuiescentIsComplete` | crates/assets/src/runtime.rs:910-930 | with no permit and no completion under way every attempt ever started has its outcome |
| `WorldRuns.OutcomeIsFixed` | crates/assets/src/runtime.rs:170-184 | what was decided under the lock is what is published, about that very attempt, and it never changes |
| `WorldRuns.RendererKey` | crates/assets/src/runtime.rs:642-655 | two snapshots handed out anywhere in a run with equal identity and generation have the same value and bytes |
| `WorldRuns.HandedIsRecorded` | crates/assets/src/runtime.rs:348-357 | every snapshot handed out was committed before, with that generation |
| `WorldRuns.IdentitiesAreUnique` | crates/assets/src/runtime.rs:412-442 | no two creations of a run return the same identity |
| `WorldRuns.FreeIsEmptyAndUnissued` | crates/assets/src/runtime.rs:772-795 | a slot is free exactly when it is empty and its generation was never issued |
| `WorldRuns.RetiredIsNeverReused` | crates/assets/src/runtime.rs:772-795 | an empty slot that is not free is at the last generation and no later creation returns it |
| `WorldRuns.PinIsSound` | crates/assets/src/runtime.rs:763-766 | a held handle or snapshot is never stale or foreign, and `remove` is refused with the number of its users |
| `Ledger.HandedIsInReplies` | crates/assets/src/runtime.rs:348-371 | the snapshots a step hands out are exactly those in the reply of its operation, ready, failed or beside a producer |
| `Ledger.UsersMove` | crates/assets/src/identity.rs:96-112 | for every step: what callers hold of an identity grows by each handle and snapshot handed out, shrinks by each one dropped, and moves by nothing else |
| `Ledger.StrongUsersMove` | crates/assets/src/runtime.rs:763-766 | for every step: the strong count moves by one for each handle and snapshot handed out and each decided outcome that keeps a snapshot, and back only when one is dropped or a cell is freed |
| `Ledger.LedgerBalances` | crates/assets/src/identity.rs:96-112 | over a run, handles and snapshots handed out are those callers hold and those they have dropped |
| `Ledger.UndroppedBlocksRemove` | crates/assets/tests/lifecycle_edges.rs:80-106 | while more was handed out than dropped, the identity resolves and `remove` is refused with at least that many users |
| `Ledger.SnapshotPins` | crates/assets/tests/lifecycle_edges.rs:80-106 | from the step that hands a snapshot out until one of its identity is dropped, its identity cannot be removed |
| `Ledger.WaitersMove` | crates/assets/src/production.rs:168-177 | for every step: waiters of a cell grow by those handed out and cloned, shrink by those dropped |
| `Ledger.UndroppedWaiterSees` | crates/assets/src/production.rs:160-177 | while more waiters were handed out than dropped, their cell is there and shows its outcome once it has one |
| `WorldRuns.CollectSparesPinned` | crates/assets/src/runtime.rs:814-816 | a collection leaves the slot of everything that has a user when it unlocks exactly as it was |
| `CollectRuns.UnpinnedStays` | crates/assets/src/runtime.rs:814-816 | under the store lock a token without users gets none, whatever handles are cloned and dropped meanwhile |
| `CollectRuns.CollectIsOneStep` | crates/assets/src/runtime.rs:806-877 | a whole `collect` among its callers collects from the state it locked, considers every identity without users then and takes nothing from one with users when it unlocks |
| `CollectRuns.CollectFreesTheUnused` | crates/assets/src/runtime.rs:806-877 | a whole `collect` among its callers empties only identities that have no user when it unlocks and are not producing; if it misses its budget, every value left out of production had a user when it locked |
| `Recency.AccessIsMostRecent` | crates/assets/src/runtime.rs:444-747 | every successful create, acquire, retry, replacement, observe, commit, fail and cancel makes its identity the most recent one, strictly, and no step moves the recency of another |
| `Recency.HandleRenews` | crates/assets/src/runtime.rs:444-537 | acquire, retry and replacement mark the entry with the new touch in whatever phase it is, or else are refused and move the touch only |
| `Recency.CommitRenews` | crates/assets/src/runtime.rs:642-651 | a commit marks its entry; a refused one does not |
| `Recency.FailRenews` | crates/assets/src/runtime.rs:689-703 | the same for fail |
| `Recency.CancelRenews` | crates/assets/src/runtime.rs:733-740 | the same for cancel |
| `Recency.TouchOfLastAccess` | crates/assets/src/runtime.rs:242-248 | until its next access an identity keeps the touch of its last one |
| `Recency.LaterAccessIsMoreRecent` | documents/design-assets.md:142-143 | over a run, last touches are ordered as the last accesses are |
| `Recency.LeastRecentlyUsedGoesFirst` | crates/assets/tests/budget.rs:24-55 | over a run, a collection that takes the value of one identity leaves none to an idle one that was last accessed earlier |
| `Progress.EveryAttemptCanEnd` | documents/design-assets.md:122-128 | every run can be continued, by finishing the collection, dropping permits and completing cells, until every attempt ever started has its outcome, while a touch is left for each permit or the store is closed |
| `Progress.HandlesAreUsable` | crates/assets/src/identity.rs:96-112 | owning a handle is all it takes to use it: only the store lock makes its owner wait |
| `Progress.PermitsAreUsable` | crates/assets/src/production.rs:79-131 | the same for permits, on a closed store too |
| `WorldRuns.UpgradeIffLive` | crates/assets/src/runtime.rs:567-587 | a weak handle upgrades exactly while its own identity is live |
| `WorldRuns.BytesAreConserved` | crates/assets/src/runtime.rs:600-651 | accounted bytes are the bytes of all retained values and fit u64, in every reachable state |
| `WorldRuns.CountersDominate` | crates/assets/src/runtime.rs:242-248 | content generation <= attempt generation < last touch <= touch, strictly while producing; retained values carry the content generation; last touches are distinct |
| `TokenLife.LifeStartsAtIssue` | crates/assets/src/runtime.rs:412-442 | an identity comes to life only in the `create` that issues it |
| `TokenLife.OnlyCreateAndRemove` | crates/assets/src/runtime.rs:444-747 | no operation but `create` and `remove` changes which identities live |
| `TokenLife.DeadStaysDead` | documents/design-assets.md:75-77 | an issued identity that is not live stays so for the rest of the run |
| `AttemptLocks.LockOrder` | crates/assets/src/runtime.rs:151-184 | every lock is requested above all locks held: store, registry, slot; outcome alone |
| `AttemptLocks.FrameDiscipline` | documents/design-assets.md:165-168 | foreign code holds no lock and wants none; a drop before the store's guard is no exception because, the store being valid, there is nothing to drop |
| `AttemptLocks.ChainEnds` | crates/assets/src/runtime.rs:151-184 | from any running thread a chain of at most five, each waiting for a lock the next one holds, ends at one that can go on and, if it holds a lock, is not in foreign code |
| `AttemptSteps.AdvanceKeepsInv` | crates/assets/src/runtime.rs:30-208 | every step of every operation keeps the protocol invariant |
| `AttemptSteps.StartedKeepsInv` | crates/assets/src/production.rs:160-183 | so does every call, also out of foreign code |
| `AttemptRuns.RunKeepsInv` | crates/assets/src/runtime.rs:30-208 | every reachable state of every interleaving has it |
| `AttemptRuns.NoLostWakeup` | crates/assets/src/runtime.rs:170-208 | when a poll returned Pending as its waiter's last call and the call that completed the attempt has returned, exactly that poll's waker was woken, once |
| `AttemptRuns.PendingIsRegistered` | crates/assets/src/runtime.rs:186-208 | while the attempt is open a pending waiter is registered with that waker in its slot and has not been woken |
| `AttemptRuns.WokenAtMostOnce` | crates/assets/src/runtime.rs:128-135 | a waiter is woken at most once over the life of its attempt, and never before the outcome is there |
| `AttemptRuns.SeenIsTheOutcome` | crates/assets/src/runtime.rs:186-208 | a poll returns an outcome only if it is the one its cell holds |
| `AttemptRuns.OneOutcome` | crates/assets/src/production.rs:160-177 | all polls of all waiters and clones of one attempt return the same outcome |
| `AttemptRuns.RunGrows` | crates/assets/src/runtime.rs:170-184 | an outcome once written stays, a finished completion stays finished, wakes and results are never withdrawn |
| `AttemptRuns.ForeignRunsUnlocked` | documents/design-assets.md:165-168 | waker clone, drop and wake, and the destructors of values and errors wherever an operation drops some, run with no lock held by their thread, at any depth of re-entry |
| `AttemptRuns.NoDeadlock` | crates/assets/src/runtime.rs:151-184 | in every reachable state each thread with an operation in progress can go on or waits, along a chain of lock holders, for one that can and is not in foreign code |
| `AttemptSteps.ExitIsSound` | crates/assets/src/runtime.rs:589-747 | what an operation on a valid store leaves to complete are attempts that ran in it, each once |
| `AttemptSteps.BodyStep` | crates/assets/src/runtime.rs:412-877 | whatever an operation does under the store lock keeps the protocol invariant |
| `AttemptRuns.OwnStepsEnd` | crates/assets/src/runtime.rs:170-208 | every step of an operation brings it strictly nearer to its return, or below a completion it calls |
| `AttemptRuns.OthersDoNotDelay` | crates/assets/src/runtime.rs:170-208 | no step of another thread takes it further away |
| `AttemptRuns.DrainDropsNoSlot` | crates/assets/src/runtime.rs:128-135 | a slot drained under the registry lock is still owned by its waiter, so draining drops no waker under the lock |
| `AttemptSteps.DropperFindsNoDrain` | crates/assets/src/runtime.rs:166-168 | a waiter deregisters while its cell is not being drained |
| `AttemptWakeups.RecheckStep` | crates/assets/src/runtime.rs:198-207 | Pending is returned exactly while the cell has no outcome, and then the waiter is registered with this waker in its slot; else the outcome is returned |
| `AttemptAnswers.PollAnswers` | crates/assets/src/runtime.rs:186-208 | a poll that returns has told its caller the outcome if the cell has one, and Pending with its own waker otherwise |
| `AttemptAnswers.OnlyNewWakersAreCloned` | crates/assets/src/runtime.rs:38-51 | a poll whose waker is equivalent to the one in the slot clones none |
| `AttemptAnswers.WantedIsTaken` | crates/assets/src/runtime.rs:318-334 | an operation that waited for a lock holds it in the section that follows |
| `AttemptAnswers.InsertJoins` | crates/assets/src/runtime.rs:111-120 | a registered waiter is new, idle, with an empty slot, and in the registry of its cell |
| `AttemptAnswers.WaiterMeansJoin` | crates/assets/src/runtime.rs:399-410 | a store registers a waiter exactly when it answers with one, for that attempt |
| `AttemptAnswers.AnsweredWaiterJoins` | crates/assets/src/runtime.rs:399-410 | whoever is answered with a waiter is about to be registered with the cell of that running attempt, under the store lock |
| `AttemptAnswers.JoinerJoins` | crates/assets/src/runtime.rs:399-410 | and is registered before the store is unlocked |
| `AttemptAnswers.DropsAreConserved` | documents/design-assets.md:165-168 | every reference an operation took out of the store is dropped by one of its later steps, and one only |
| `AttemptAnswers.BodyTakesOn` | documents/design-assets.md:165-168 | what it takes on to drop is what left the slots or was handed in and refused |
| `AttemptAnswers.RestIsDroppedUnlocked` | crates/assets/src/runtime.rs:52-74 | displaced wakers, refused outcomes and the slots of dropped waiters go in a step of their own, with no lock held |
| `AttemptOutcomes.RunSettles` | crates/assets/src/runtime.rs:652-654 | in every reachable state an attempt runs with its cell open, or has exactly one completion on its way, or has its outcome |
| `AttemptOutcomes.DecidedIsPublished` | crates/assets/src/runtime.rs:642-654 | the outcome a commit, fail, cancel or close decides under the store lock is the one the attempt's cell gets, and the only one |
| `AttemptOutcomes.EndedIsDelivered` | documents/design-assets.md:122-128 | once an attempt no longer runs, its permit consumed or dropped or its store closed, and no call is completing it: it has its outcome, every waiter that was Pending was woken exactly once, and whoever saw an outcome saw this one |
| `AttemptWakeups.PublishStep` | crates/assets/src/runtime.rs:170-179 | publishing an outcome keeps every pending wakeup in its slot |
| `AttemptWakeups.TakeStep` | crates/assets/src/runtime.rs:128-135 | taking a slot moves its wakeup into the hands of the completion, without loss or doubling |
| `AttemptWakeups.WakeStep` | crates/assets/src/runtime.rs:180-183 | waking delivers it |
| `AttemptCell.WakerSlot.Install` | crates/assets/src/runtime.rs:56-69 | the slot holds the waker afterwards; the displaced one is handed out to be dropped outside the lock |
| `AttemptCell.WakerSlot.Record` | crates/assets/src/runtime.rs:38-75 | after recording, the slot holds the waker |
| `AttemptCell.WakerSlot.Take` | crates/assets/src/runtime.rs:78-86 | the slot is empty afterwards and its waker is handed out |
| `AttemptCell.WaiterRegistry.Register` | crates/assets/src/runtime.rs:111-120 | a key never used before with an empty slot, or the exhausted key space |
| `AttemptCell.WaiterRegistry.Deregister` | crates/assets/src/runtime.rs:122-124 | exactly this waiter's slot leaves |
| `AttemptCell.WaiterRegistry.TakeWakers` | crates/assets/src/runtime.rs:130-135 | the registry is drained and every registered slot emptied; the result lists their wakers, each slot visited once |
| `AttemptCell.FoundAll` | crates/assets/src/runtime.rs:130-135 | every waker of a visited slot is in that list |
| `AttemptCell.FoundOnly` | crates/assets/src/runtime.rs:130-135 | nothing else is |
| `AttemptCell.FoundOnce` | crates/assets/src/runtime.rs:130-135 | and each visited slot yields its waker once |
| `AttemptCell.AttemptCell.Publish` | crates/assets/src/runtime.rs:170-179 | written once |
| `AttemptCell.AttemptCell.Complete` | crates/assets/src/runtime.rs:170-184 | the first completion wakes every registered waker, a later one changes nothing |
| `AttemptCell.AttemptCell.Poll` | crates/assets/src/runtime.rs:186-208 | the outcome, or Pending with this waker recorded |
| `StoreIds.RunKeepsValid` | crates/assets/src/runtime.rs:278-293 | in every run the ids handed out are 1, 2, ... up to the atomic, and nobody has read past it |
| `StoreIds.IdsAreUnique` | crates/assets/src/runtime.rs:278-293 | all ids ever returned are distinct and nonzero, and every id below the atomic was returned |
| `StoreIds.PanicsWhenExhausted` | crates/assets/src/runtime.rs:281-283 | a caller panics exactly when it finds the space exhausted |
| `StoreIds.ExhaustedStaysExhausted` | crates/assets/src/runtime.rs:281-283 | from then on no id is handed out and none repeated |
| `StoreIds.OnlyProgressDefeats` | crates/assets/src/runtime.rs:284-292 | an exchange that does not succeed, without a spurious failure, lost to an allocation made since its read |
| `FileLoader.FileLoader.HandleFor` | crates/assets/examples/file_loader/mod.rs:264-277 | upgrades the mapped handle, or creates an identity and maps the key to it |
| `FileLoader.FileLoader.Forget` | crates/assets/examples/file_loader/mod.rs:245-256 | unmaps the key after the store accepted the removal, and only then |
| `FileLoader.FileLoader.Acquire` | crates/assets/examples/file_loader/mod.rs:279-317 | hands out what the store granted, a producer with the key requested, and moves exactly the counters of that case |
| `FileLoader.FileLoader.Request` | crates/assets/examples/file_loader/mod.rs:227-238 | a request or retry is both of these in a row, counted once |
| `FileLoader.CountersOfAnAnswer` | crates/assets/examples/file_loader/mod.rs:284-315 | each answer is counted under its own name, and a producer is in flight as well |
| `FileSingleFlight.RoutedIsMapped` | crates/assets/examples/file_loader/mod.rs:264-277 | a request gets a live identity its key is mapped to afterwards, a new one only if the mapped one cannot be upgraded, and then one never issued before |
| `FileSingleFlight.MappedKeyUpgrades` | crates/assets/examples/file_loader/mod.rs:264-277 | a mapped key always upgrades to its own identity and nothing is created for it |
| `FileSingleFlight.ForgetIffIdle` | crates/assets/examples/file_loader/mod.rs:245-256 | forgetting succeeds exactly when nobody uses and nobody produces the identity; otherwise nothing changes and the reason is reported |
| `FileSingleFlight.RunKeepsLoader` | crates/assets/examples/file_loader/mod.rs:227-317 | the invariant of directory, requests and producers holds in every reachable state |
| `FileSingleFlight.KeysNameLiveIdentities` | crates/assets/examples/file_loader/mod.rs:245-277 | every mapped key names a live identity, distinct keys distinct ones |
| `FileSingleFlight.KeyIsStable` | crates/assets/examples/file_loader/mod.rs:245-277 | between successful forgets a key stays mapped to one identity |
| `FileSingleFlight.RequestsAgree` | crates/assets/examples/file_loader/mod.rs:227-256 | a request that has its handle acquires the identity its key is still mapped to, however a forget races with it, and so does every other request on the key |
| `FileSingleFlight.OneProducerPerKey` | crates/assets/examples/file_loader/mod.rs:279-305 | at most one live producer per key, over any history of requests and forgets |
| `FileSingleFlight.RequestsJoinTheProducer` | crates/assets/examples/file_loader/mod.rs:279-317 | while a key has a producer every request and retry on it joins that attempt |
| `FileSingleFlight.RequestStartsWork` | crates/assets/examples/file_loader/mod.rs:279-317 | a request starts work on missing content only, an explicit retry on failed content too; everyone else gets the value, the failure or a waiter |
| `InFlightBudget.TotalWithout` | crates/assets/examples/file_loader/mod.rs:584-600 | a lease leaves the total with exactly its own bytes |
| `InFlightBudget.InFlightBudget.constructor` | crates/assets/examples/file_loader/mod.rs:510-519 | nothing is reserved at first |
| `InFlightBudget.InFlightBudget.ReserveSlot` | crates/assets/examples/file_loader/mod.rs:530-541 | a slot is granted exactly below the task limit |
| `InFlightBudget.InFlightBudget.Reserve` | crates/assets/examples/file_loader/mod.rs:521-528 | granted exactly within both limits; a refusal leaves no trace |
| `InFlightBudget.Reservation.Increase` | crates/assets/examples/file_loader/mod.rs:564-581 | granted exactly within the byte limit; neither addition can overflow |
| `InFlightBudget.Reservation.Drop` | crates/assets/examples/file_loader/mod.rs:584-600 | releases exactly what was reserved; neither subtraction can fail |
| `ReadExact.Source.Read` | crates/assets/examples/file_loader/mod.rs:469-470 | one read of the source: an error, or at least one byte while any is left |
| `ReadExact.ReadExactBounded` | crates/assets/examples/file_loader/mod.rs:457-487 | succeeds exactly without a read error and with the announced length, and then with the bytes of the source; otherwise it reports the first read error, or how much was there instead; never more than one byte beyond the capacity is read |
| `FileKey.Transformed` | crates/assets/examples/file_loader/mod.rs:84-89 | raw bytes stay; the uppercase variant changes lower-case ASCII letters only, each to its capital |
| `FileProducer.FileProducer.Settle` | crates/assets/examples/file_loader/mod.rs:436-443 | leaves flight once |
| `FileProducer.FileProducer.Fail` | crates/assets/examples/file_loader/mod.rs:413-434 | consumes the permit with the error; counted as failure, or as cancellation when the store refused it |
| `FileProducer.FileProducer.Load` | crates/assets/examples/file_loader/mod.rs:350-397 | the bytes of the source if and only if it was opened, sized, admitted, read without error and as long as announced; else the first obstacle in source order; a source that is not admitted is not read; a refused budget is counted |
| `FileProducer.FileProducer.ProduceWith` | crates/assets/examples/file_loader/mod.rs:350-411 | whatever becomes of it, the permit is consumed with the obstacle or with what the variant of the key makes of the whole source, the producer is counted once and the budget is as before; a source that is not admitted is not read |
| `FileProducer.FileProducer.Drop` | crates/assets/examples/file_loader/mod.rs:446-455 | an unfinished producer is counted as cancelled and its permit cancels the attempt; on a closed store nothing changes |
| `FileProducer.EndingIsTheOutcome` | crates/assets/examples/file_loader/mod.rs:390-434 | the ending counted is the outcome the waiters get: a success publishes exactly the bytes read, a failure the error met; an outcome is missing if and only if the touches for it are |
| `FileProducer.ObstaclesInOrder` | crates/assets/examples/file_loader/mod.rs:350-389 | the obstacle reported is the first one met: the task slot before the source is opened, its bytes before it is read |
| `FileProducer.CountersOfAProduction` | crates/assets/examples/file_loader/mod.rs:350-443 | a production moves refusals, producers in flight and the counter of its ending, and no other |
| `FileProducer.ClosedStoreEndsNothing` | crates/assets/src/production.rs:80-106 | on a closed store nothing is published and the producer is counted as a cancellation |
| `FileConsumer.RequestAndProduce` | crates/assets/tests/file_loading.rs:225-246 | a request and the production it nominates, whatever the loader did before: a snapshot that comes out of it holds, shared, what the variant of the requested key makes of the source |
| `FileConsumer.LoadOnce` | crates/assets/benches/file_consumer.rs:69-90 | with a loader of its own the first request is nominated and its load succeeds exactly when the source was opened, sized, admitted, read without error and as long as announced |
| `FileProducer.SettlingIsTwoSteps` | crates/assets/examples/file_loader/mod.rs:436-455 | settling and counting are the last two steps in a producer's life |
| `ProducerLife.StepKeepsTallies` | crates/assets/examples/file_loader/mod.rs:187-201 | each counter shows, modulo 2^64, the producers past its update, after every single atomic update |
| `ProducerLife.ProducersAreAccountedFor` | crates/assets/examples/file_loader/mod.rs:290-305 | at quiescence producers = successes + failures + cancellations + in flight, for every interleaving |

## Left out

- Mutex poisoning and the errors it yields, panics inside user or executor code, and `mem::forget` of permits: assumed away, so "permit gone" means consumed or dropped.
- Weak memory: each critical section and each atomic load, exchange or counter update is one atomic step.
- Reference counts: identity tokens have no destructor beyond their memory, so where they are dropped is not followed; strong owners are counted, weak counts and the moment an allocation is freed are not; dropping the last owner of a cell is the step `FreeCell`.
- AttemptProtocol: waiter keys are unbounded there; the exhausted key space is modelled in `AttemptCell.WaiterRegistry.Register` only, where it panics in the source. Wakers are identified up to `will_wake`.
- AttemptProtocol: operations take any arguments, permits used twice and strong counts that nobody owns included; who owns what is modelled in `StoreWorld`.
- StoreInner.StoreInner.Collect: takes the set of tokens found idle as an argument; that the set is read one token at a time while handles are cloned and dropped is modelled in `StoreWorld`.
- CandidateOrder.SortUnstable: an insertion sort stands for `sort_unstable`; `Collection.ReportIsUnique` shows that the choice of sort does not matter.
- AttemptCell.WakerSlot.Record: runs alone there, so no completion takes the waker between its two critical sections; the interleavings are in `AttemptProtocol`.
- AttemptCell.AttemptCell.Complete: runs alone there; polls and registrations in between are in `AttemptProtocol`.
- AttemptCell.AttemptCell.Poll: runs alone there; a completion between recording and the second read is in `AttemptProtocol`.
- ProducerPermit.ProducerPermit.Commit: the rejected commit and the drop that follows it run with nobody in between; `WorldRuns.PermitsAreHonoured` and `WorldRuns.RejectedCommitThenDrop` are about the two with anyone in between.
- ProducerPermit.CommitSettles: counts the touches as if nobody else takes one between the rejection and the drop; see the line above.
- FileProducer.EndingIsTheOutcome: rests on the same two calls with nobody in between.
- FileDirectory: upgrade and creation inside `handle_for`, and removal and unmapping inside `forget`, are one step each; the directory lock is held across both, and a mapped key never takes the creating branch.
- StoreIds: the loop of one caller is a sequence of steps among those of all callers, not a `while` of its own.
- FileProducer.FileProducer.ProduceWith: runs alone, so "the budget is as before" is about its own lease only; what others reserve meanwhile is theirs. Whether opening and sizing the file succeeded, and how the source answers reads, are arguments; the machine's `usize` bound is one too.
- File system access, `FileKey::new`, `wait_for` with its clock and channel: platform code; the path in a key is an opaque type with equality.
- `crates/assets/src/store.rs`, getters, `Display` and `Debug`, the remaining examples, benchmarks and performance documents: forwarding and formatting only.
- Hash maps and ordered sets are Dafny maps and sets; allocation failure is not modelled.
