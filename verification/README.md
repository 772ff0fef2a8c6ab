# Rocketcycle in Dafny

A model of the APECS transaction engine of Rocketcycle and of the structures around it, with
proofs of what they promise. A transaction is a message that carries its own step list through
Kafka partitions; each consumer runs one step, may rewrite the rest of the list and forwards
the message. `dafny verify dfyconfig.toml` checks everything.

Operations are written twice where the source works by changing things: as a function on
values, about which the theorems are proved, and as a class or a method with loops whose
contract ties it to that function.

| files | model |
|---|---|
| `Offsets`, `InstanceStore`, `RamDb`, `StorageConsumer` | offset-guarded stores and the consumer that crashes, bails out and restarts |
| `ApecsTxn`, `ApecsRunner`, `ApecsPlatform` | transactions, one visit of a message to a consumer, and the engine as it runs |
| `ApecsInvariants`, `ApecsErrors`, `ApecsProvenance`, `ApecsSystem`, `ApecsFanout` | what every visit keeps, what an error record says, runs, the whole stream, and what a completion spawns |
| `Rpg`, `RpgHandlers`, `RpgWorld` | the Character and Player concerns: logic and generated handlers, and the engine running on them |
| `RpgStorage` | what reaches the database, and comes back |
| `RpgTermination`, `RpgCache`, `RpgConservation`, `RpgApart`, `RpgLostUpdate`, `RpgCopies`, `RpgCopyRuns`, `RpgCreation` | termination, the cache as a fold of its partition, conservation of currency, when it is safe and how it is lost, cross-concern copies |
| `RpgCold`, `RpgColdRuns`, `RpgColdWarm`, `RpgColdExact` | cold against warm caches, and exactly when the difference shows |
| `Json`, `JsonProofs`, `JsonExact`, `JsonLayout`, `JsonLoops` | the ordered JSON printer and parser, exactly what they preserve, and the layout of the text |
| `Payload`, `Topics`, `LogSearch`, `Streams` | payload and topic-name codecs, the log search, per-key order |
| `PlatformDef`, `PlatformLaws`, `Substitution`, `Programs`, `ProgramSets`, `Launches` | normalising a platform definition, which are accepted, expanding its programs, what is launched, and the difference between two |
| `Wrappers`, `Seqs` | shared helpers |

Main results: `AdvanceLawful`, `HandsOn`, `RunResult`, `OffsetProvenance`, `SingleToken`, `RunFanout`
(engine); `RunIdempotent`, `ExactlyOnce`, `PartitionFold` (stores); `EveryTransactionEnds`,
`Accounting` with `Conservation`, `ApartConserves` and `TradeCompletes`, `CopiesAgree`,
`UpdateComesBack` with `SpawnedLetIn`, `ColdOrBare` with `ColdEqualsWarm` and `ColdWarmExact` (engine,
handlers and stores together); `RoundTrip`, `RoundTripExact`, `MarshalLayout` (JSON);
`UnpackPackExact`, `ParseBuild` (codecs); `FindMostRecentMatching`; `PerKeyFifo`,
`ReadIsSentSegment`; `AcceptedExactly`, `OwnValuesKept`, `NormalizedAgain`, `OrderIndependent`,
`OneKeyPerPartition`, `KeysDiffer`, `PlaceLaunch`, `Migrate`.

## Where the code falls short of its intent

- An UPDATE submitted by a client never runs: the validation put in front of it has no key, and
  no step before it ever names one (`SubmittedUpdateFails`, `UpdateNeverCompletes`).
- On a cold cache currency can be lost: two fundings of a stored character whose detours overlap
  both complete, and the second refresh undoes the first funding (`OverlappingDetoursLose`,
  `LostFunding`). `Accounting` says what each refresh brings in, `ConservedExactly` when it
  matters. It never does on warm caches (`Conservation`), nor on any caches when nobody submits
  a transaction while a message in the stream names one of its characters (`ApartConserves`).
- A create is validated in a random partition and stored at that message's offset, and offsets
  compare partitions first. When the instance's own partition is a lower one, no later write or
  delete of it ever reaches the database (`CreatedStays`), and a DELETE completes with the item
  still stored (`DeletionForgets` says exactly when).
- A STORAGE READ of an item that was created and never updated panics on its missing related
  value, and the engine sees a nil result (`StorageReadExact`). Every create leaves such an item
  (`CreatedIsBare`); once its cache record is lost, a READ fails that completes on a warm cache
  (`ReadExact`, `BareReadDiffers`). These items are the only reason why a transaction that is
  submitted without keys for its creates can end differently on a cold cache (`ColdOrBare`,
  `ColdWarmExact`).
- The update of an instance that a command changed is packed with the related bytes of the consumer
  that completes the transaction. When that is another partition's, which does not cache the
  instance, the link or list stored with it is lost (`UpdateComesBack`, `LostRelated`).
- A CREATE under a given key keeps the related bytes of an earlier record in a warm cache and
  loses them in a cold one; without such bytes it ends alike (`GivenCreateExact`).
- DebitFunds compares the second and third faction with the first faction's balance, so these
  two can be overdrawn (`DebitOverdraws`; `DebitBounds` says exactly when not).
- JSON keys are printed unescaped: a value comes back exactly when no key at any depth is empty
  or has a quote or a backslash (`RoundTripExact`, `KeyTokenExact`, `QuotedKeyExample`).
- An empty instance packs but does not unpack (`EmptyInstance`); lengths are cut to 32 bits
  (`UnpackPackExact`).
- StoreOffsets of the in-memory consumer succeeds exactly when every wanted partition is the
  first assigned one, and panics without an assignment (`Streams.OfflineConsumer.StoreOffsets`);
  ReadMessage divides by zero on an empty assignment (`Streams.OfflineConsumer.ReadMessage`).
- Substitution can depend on the order of a Go map: a collector endpoint "@concern" is passed on
  as it is given or as the concern's name (`OrderShows`).
- A future topic is accepted only one generation behind the current one, where the error text asks
  for one ahead (`AcceptedExactly`).
- A program whose runnable cannot be made stops the runner with a nil dereference
  (`UpdateRunning`, `Migrate`).
- A failed production of the next step puts the message on the error topic and returns the OK
  code of the step that was run (`ProduceNextFails`).
- REFRESH_INSTANCE never gets an instance from the engine, so its branch that refreshes related
  concerns never runs (`RefreshGetsNoInstance`).

## Model

| member | source | states |
|---|---|---|
| Offsets.OffsetOrder | pkg/rkcy/kafka.go:130-150 | OffsetGT is a strict total order, lexicographic in generation, partition, offset; OffsetGTE is its reflexive closure |
| RamDbs.RamDb.Read | pkg/storage/ramdb/ramdb.go:35-47 | reads the item of a concern and key, or reports not found |
| RamDbs.RamDb.Create | pkg/storage/ramdb/ramdb.go:49-51 | a guarded write with no related value |
| RamDbs.RamDb.Update | pkg/storage/ramdb/ramdb.go:53-74 | the item is replaced exactly when the offset is greater or there was none; nothing else changes |
| RamDbs.RamDb.Delete | pkg/storage/ramdb/ramdb.go:76-91 | the item is removed exactly when the offset is greater |
| RamDbs.LookupRun | pkg/storage/ramdb/ramdb.go:35-91 | what a whole sequence of operations does to one cell depends on that cell alone |
| RamDbs.CellRunIsThreshold | pkg/storage/ramdb/ramdb.go:53-91 | on one cell any sequence is: below a threshold a constant, from it on the identity |
| RamDbs.RunIdempotent | pkg/storage/ramdb/ramdb.go:49-91 | applying any sequence of creates, updates and deletes, offsets in any order, twice equals applying it once |
| RamDbs.LowerStays | pkg/storage/ramdb/ramdb.go:53-91 | an item outlasts every write and delete from a lower partition of its generation, whatever their offsets |
| StorageConsumers.HandledKeeps | pkg/apecs/apecs_runner.go:817-929 | handling a message again after a rewind keeps replay harmless and catching up exact |
| StorageConsumers.NextKeepsInv | pkg/apecs/apecs_runner.go:722-929 | every tick, delivery, bailout, shutdown and crash keeps the invariant |
| StorageConsumers.ExactlyOnce | pkg/apecs/apecs_runner.go:783-929 | with any crashes, bailouts and commits, a consumer that has caught up to its highest handled offset has the database of one in-order pass |
| StorageConsumers.Consumer.HandleCommand | pkg/apecs/apecs_runner.go:817-915 | one message handled, committed or bailed out of, as the state machine says |
| StorageConsumers.Consumer.Consume | pkg/apecs/apecs_runner.go:722-929 | the loop ends in the state of the state machine run over the schedule, whatever it is |
| InstanceStores.InstanceStore.Put | pkg/rkcy/instance_store.go:68-84 | instance and related bytes replaced unless the offset is out of order |
| InstanceStores.InstanceStore.PutInstance | pkg/rkcy/instance_store.go:86-101 | the instance replaced, related bytes kept, unless out of order |
| InstanceStores.InstanceStore.PutRelated | pkg/rkcy/instance_store.go:103-121 | related bytes replaced unless out of order; a missing key is an error |
| InstanceStores.InOrderFold | pkg/rkcy/instance_store.go:68-125 | in a partition read in order the guard never fires and the cache is the fold of all writes in log order |
| RpgCache.HandlerWrites | examples/rpg/pb/character.rkcy.go:292-753 | whatever the command, a handler's effect on the cache is the one write its success means, guarded by its message's offset |
| RpgCache.ServeWrites | pkg/apecs/apecs_runner.go:429-504 | so does a whole visit of a message, whatever becomes of it |
| RpgCache.PartitionFold | pkg/rkcy/instance_store.go:68-125 | a partition's messages, run in order through engine and handlers, leave the cache that is the unguarded fold of the writes these messages make, each a function of message and state |
| ApecsTxns.NewApecsTxnLoop | pkg/rkcy/apecs_txn.go:61-116 | creates go to storage behind a validation, updates behind one, other steps as they are; id, association, target and error policy are those given; a response target must be usable |
| ApecsTxns.ExpandedAt | pkg/rkcy/apecs_txn.go:87-113 | each submitted step comes behind those before it and their validations, its own validation right before it with its payload and without a key |
| ApecsTxns.RtApecsTxn.InsertSteps | pkg/rkcy/apecs_txn.go:162-192 | the steps are spliced in at the index, nothing else moves; an index out of range changes nothing |
| ApecsTxns.RtApecsTxn.ReplaceStep | pkg/rkcy/apecs_txn.go:194-203 | exactly the step at the index changes |
| ApecsTxns.RtApecsTxn.AdvanceStepIdx | pkg/rkcy/apecs_txn.go:225-236 | the index moves by one exactly when there is a next step |
| ApecsInvariants.AdvanceLawful | pkg/apecs/apecs_runner.go:341-664 | every visit leaves finished steps alone and forwards a message in flight, completes one with every step OK, or fails one that is not |
| ApecsInvariants.CancelLawful | pkg/apecs/apecs_runner.go:310-331 | a cancelled message keeps its finished steps and does not count as successful |
| ApecsInvariants.FinishShape | pkg/apecs/apecs_runner.go:543-664 | a successful handler's steps come right behind the settled step; the next step inherits payload and offset |
| ApecsInvariants.ProduceNextFails | pkg/apecs/apecs_runner.go:74-116 | a message fails with the OK code exactly when there is a next step and it cannot be produced or is not valid |
| ApecsErrors.CancelledSays | pkg/apecs/apecs_runner.go:310-331 | the record of a cancelled message has the code CANCELLED on its current step, if that had no result, and is otherwise the message |
| ApecsErrors.TurnedAway | pkg/apecs/apecs_runner.go:357-424 | a step that has run is STEP_ALREADY_COMPLETE, another concern MISMATCHED_CONCERN, another system MISMATCHED_SYSTEM, no key KEY_NOT_PRESENT: on its record and to the consumer; nothing else on the record changes |
| ApecsErrors.LetInOrNot | pkg/apecs/apecs_runner.go:429-531 | any other message has a key; a create of a cached instance and a STORAGE step without offset are INTERNAL, a missing instance takes the detour, and every other message reaches its handler, with the cached instance if the step runs on one |
| ApecsErrors.DetourFails | pkg/apecs/apecs_runner.go:476-503 | a detour that cannot be produced is INTERNAL, logged to the first step if that has not run |
| ApecsErrors.HandlerFails | pkg/apecs/apecs_runner.go:543-620 | no result is NIL_RESULT under BAILOUT and INTERNAL otherwise; a refusal is the handler's own result and code; behind a success only the production of the next step can fail, which is INTERNAL on that step and OK to the consumer |
| ApecsErrors.RetriedOrNot | pkg/apecs/apecs_runner.go:333-339 | under BAILOUT a message is read again unless it was turned away |
| ApecsErrors.HandsOn | pkg/apecs/apecs_runner.go:620-664 | the step that succeeded is recorded with its offset, result and original instance, a missing payload being its own; the handler's steps come next; the first step ahead takes over payload and offset it lacks, and nothing else changes |
| ApecsInvariants.NewTxnInFlight | pkg/rkcy/apecs_txn.go:61-116 | a new transaction has no results and valid systems |
| ApecsInvariants.RunKeepsPrefix | pkg/apecs/apecs_runner.go:341-664 | along any run what is finished stays, and the message stays in flight |
| ApecsInvariants.RunResult | pkg/rkcy/apecs_txn.go:135-156 | ApecsTxnResult, which looks at the last step only, reports success exactly when every forward step is OK |
| ApecsProvenance.NewTxnChained | pkg/rkcy/apecs_txn.go:87-113 | in a new transaction storage steps wait behind the validation of their concern |
| ApecsProvenance.AdvanceChained | pkg/apecs/apecs_runner.go:341-664 | every visit keeps storage steps behind their PROCESS step |
| ApecsProvenance.OffsetProvenance | pkg/apecs/apecs_runner.go:520-531 | in no run is the nil-offset error reached; every STORAGE step but an injected read runs right behind a PROCESS step of its concern and carries its offset |
| ApecsSystems.NextKeepsInv | pkg/apecs/apecs_runner.go:74-331 | submitting, delivering and cancelling keep each transaction in one place |
| ApecsSystems.SingleToken | pkg/apecs/apecs.go:274-385 | at every moment each started transaction is exactly one message, complete record or error record, and one that asked gets exactly one response |
| ApecsFanouts.SpawnSecondaries | pkg/apecs/apecs_runner.go:119-167 | one secondary transaction for each finished STORAGE create, update or delete, in order: its concern, command and offset, its result's key and payload |
| ApecsFanouts.CollectUpdates | pkg/apecs/apecs_runner.go:169-206 | the map of changed instances, whose entries `UpdatesAreLast` describes |
| ApecsFanouts.SpawnUpdates | pkg/apecs/apecs_runner.go:207-282 | a primary and a secondary UPDATE_ASYNC for each entry, in any map order; both record the primary's id |
| ApecsFanouts.UpdatesAreLast | pkg/apecs/apecs_runner.go:169-206 | an instance has an entry exactly when a finished PROCESS step left something to store for it: an UPDATE_ASYNC at the offset of the last such step, with its changed instance packed or the related payload it answered with |
| ApecsFanouts.StepKeyInjective | pkg/apecs/apecs_runner.go:169-206 | without underscores in concern names different instances have different entries |
| ApecsFanouts.CompletionFanout | pkg/apecs/apecs_runner.go:117-282 | a completed transaction spawns a copy of each STORAGE create, update and delete, in order, and then exactly one primary and one secondary update for each instance left to store, made of the last step that left it, and nothing else |
| ApecsFanouts.RunFanout | pkg/apecs/apecs_runner.go:117-282 | the same for every transaction that a run over topics of valid concern names completes; every finished step, and so everything spawned, has an offset |
| ApecsFanouts.SpawnedSpawnNothing | pkg/apecs/apecs_runner.go:117-282 | what is spawned and adds no step spawns nothing when it completes |
| ApecsFanouts.SpawnedAdmission | pkg/apecs/apecs_runner.go:404-531 | whatever is cached, a spawned step with a key reaches its handler as it is when it has an offset, and is an internal error when it has none |
| RpgStorages.SpawnedAddressed | pkg/apecs/apecs_runner.go:117-282 | with the example handlers everything a run's completion spawns has an offset, and a key unless it copies an update of an instance without one |
| RpgStorages.SpawnedLetIn | pkg/apecs/apecs_runner.go:117-282 | so every such transaction is let in by its consumer, whose handler sees the step as it was spawned |
| RpgWorlds.SpawnedEnds | examples/rpg/pb/character.rkcy.go:755-1068 | with these handlers a spawned transaction ends at its first visit, in any state, and spawns nothing |
| ApecsPlatforms.Platform.AdvanceApecsTxn | pkg/apecs/apecs_runner.go:341-664 | the engine as it runs produces exactly the messages, records and responses of the visit, and returns its code |
| ApecsPlatforms.Platform.ProduceNextStep | pkg/apecs/apecs_runner.go:74-300 | forwards the next step, or completes and spawns the storage transactions |
| ApecsPlatforms.Platform.ProduceError | pkg/apecs/apecs.go:297-346 | one error record, with a result with exactly this code on the step if it had none and nothing else changed, and one response if one was asked for |
| ApecsPlatforms.Platform.CancelApecsTxn | pkg/apecs/apecs_runner.go:310-331 | one error record for the cancelled message, CANCELLED on its current step |
| Rpg.UpsertRelatedCharacters | examples/rpg/pb/player.rkcy.go:272-286 | the first entry of that key is replaced, or the character appended |
| RpgCopies.UpsertOk | examples/rpg/pb/player.rkcy.go:272-286 | a list without repeated keys stays one, holds the character, and keeps every other entry in its place |
| RpgHandlers.HandleLogicCommand | examples/rpg/pb/character.rkcy.go:292-753 | every command's answer, added steps and cache writes, which `AnswersRecord`, `LeavesRecord`, `ValidatesExactly` and `RelatedExactly` describe |
| RpgHandlers.HandlePlatformCommand | examples/rpg/pb/character.rkcy.go:558-743 | Fund, DebitFunds and CreditFunds: a changed instance is cached and its player told |
| RpgHandlers.HandleRelatedCommand | examples/rpg/pb/player.rkcy.go:508-606 | REQUEST_RELATED and REFRESH_RELATED: the related value changes and the answer is the record as it is then cached (`LeavesRecord`) |
| RpgHandlers.HandleRefreshInstanceCommand | examples/rpg/pb/character.rkcy.go:354-384 | the instance enters the cache with the given or the cached related bytes |
| RpgHandlers.HandleCrudCommand | examples/rpg/pb/character.rkcy.go:755-1068 | every storage command's answer, added steps and database writes, which `UpdateStores`, `CreateStores` and `DeleteErases` describe |
| RpgStorages.AnswersRecord | examples/rpg/pb/character.rkcy.go:317-458 | a read, refresh or flush answers with the cached record, after a refresh and before a flush; a validation with what it was given, a command with the instance it leaves; an update or delete adds one storage step with the cached related bytes or record |
| RpgStorages.LeavesRecord | examples/rpg/pb/player.rkcy.go:508-606 | what a PROCESS command leaves to store is the record now in the cache: a related answer has all of it, a changed instance its instance |
| RpgStorages.ValidatesExactly | examples/rpg/logic/player.go:18-30 | a validation succeeds exactly for an instance of the concern with a long enough name; an update may change neither key nor a player's name |
| RpgStorages.RefusalCodes | examples/rpg/pb/character.rkcy.go:292-753 | what does not succeed adds nothing and answers with a bare code: INVALID_ARGUMENT where a validation or command has judged its arguments, INTERNAL elsewhere; only a command may panic |
| RpgStorages.RelatedExactly | examples/rpg/pb/player.rkcy.go:288-335 | a related request or refresh succeeds exactly when the cached related bytes decode and it carries the other side of the relation, for a cached instance |
| RpgStorages.UpdateStores | examples/rpg/pb/character.rkcy.go:914-960 | an UPDATE or UPDATE_ASYNC, primary or secondary, leaves the item with the related value it carries, an empty one if none, at its offset, unless the stored offset is as great; no other cell changes |
| RpgStorages.CreateStores | examples/rpg/pb/character.rkcy.go:809-879 | a create leaves an item without related value under its own or a fresh key, and answers with it |
| RpgStorages.DeleteErases | examples/rpg/pb/character.rkcy.go:961-991 | a delete leaves no item, unless the stored offset is as great, and has the cached record flushed |
| RpgStorages.ReadsItem | examples/rpg/pb/character.rkcy.go:880-913 | a read answers with the stored record, its key and its offset, and has it refreshed; it panics on an item without related value, and is refused without an item or in a secondary database |
| RpgStorages.OtherRefused | examples/rpg/pb/character.rkcy.go:914-960 | a create or update whose payload does not decode is refused as INTERNAL and stores nothing |
| RpgStorages.UpdateServed | pkg/apecs/apecs_runner.go:169-282 | an update with key and offset, delivered in any state, completes and stores what it carries |
| RpgStorages.UpdateStoresRecord | pkg/apecs/apecs_runner.go:169-206 | the update made of a PROCESS visit, served where the stored item is older, leaves the record that was cached after that visit, at its offset |
| RpgStorages.StoredComesBack | examples/rpg/pb/character.rkcy.go:880-913 | a storage read with its refresh puts the stored record into a cache that has lost it |
| RpgStorages.UpdateComesBack | pkg/apecs/apecs_runner.go:169-206 | so a cold cache reads back the instance cached after the visit, and its related value exactly when, if the visit was a command's, the consumer that completed the transaction had the same related bytes |
| RpgStorages.LostRelated | pkg/apecs/apecs_runner.go:173-178 | a linked character, funded in a transaction completed elsewhere, whose update has no player |
| RpgWorlds.HandlersKeepContract | examples/rpg/pb/character.rkcy.go:292-1068 | in every state the handlers add only what the engine's invariants allow |
| RpgWorlds.ServeLawful | pkg/apecs/apecs_runner.go:341-664 | engine and handlers together keep the completed prefix and the storage chain |
| RpgWorlds.RefusedChangesNothing | examples/rpg/pb/character.rkcy.go:292-1068 | a handler that does not succeed has changed neither cache nor database |
| RpgWorlds.RefreshGetsNoInstance | pkg/apecs/apecs_runner.go:429-437 | a REFRESH_INSTANCE is never handed an instance and adds no step, in any state |
| RpgWorlds.RefreshStepsTell | examples/rpg/pb/character.rkcy.go:221-257 | a changed instance tells each holder of a copy, in order, and is then read; nobody when there is none |
| RpgTermination.WeightDrops | pkg/apecs/apecs_runner.go:438-504 | every forwarded message weighs less than the one before: each keyed step pays for one cache miss, each command for the steps its handler adds |
| RpgTermination.RunAlone | pkg/apecs/apecs_runner.go:341-664 | a transaction alone ends on the complete or error topic within its weight in messages |
| RpgTermination.EveryTransactionEnds | pkg/apecs/apecs_runner.go:341-664 | whatever is submitted, from any state, ends within a bound known from the submitted steps |
| RpgTermination.ExampleBounds | examples/rpg/logic/txn/character.go:13-83 | a trade takes at most 48 messages, a funding 12, a create 11 |
| RpgConservation.CommandMoves | examples/rpg/logic/character.go:29-78 | each command moves exactly its amount, modulo 2^32, in each currency |
| RpgConservation.CommandRuns | examples/rpg/logic/character.go:29-78 | exactly which commands panic, are refused, and go through |
| RpgConservation.DebitBounds | examples/rpg/logic/character.go:46-65 | a debit let through never leaves gold or the first faction negative; another faction, whatever its balance, is left non-negative exactly when the amount does not exceed it or the difference wraps around |
| RpgConservation.DebitOverdraws | examples/rpg/logic/character.go:51-56 | a debit that leaves a faction at -3 |
| RpgConservation.VisitQuiet | examples/rpg/pb/character.rkcy.go:558-743 | one visit, on any caches, keeps the balances in view plus what the transaction has taken out of them, but for what a refresh brings in, and the transaction's plan |
| RpgConservation.Accounting | examples/rpg/logic/txn/character.go:13-57 | in every state of every interleaving of fundings, trades and reads on any caches, failures and cancellations included, the balances of any set of characters, plus amounts in transit or stranded less amounts funded, have changed by exactly what delivered refreshes brought in beyond the balance in view, modulo 2^32 |
| RpgConservation.ConservedExactly | examples/rpg/pb/character.rkcy.go:354-384 | so they are conserved exactly when that drift is 0 modulo 2^32 |
| RpgConservation.Conservation | examples/rpg/logic/txn/character.go:13-57 | in every state of every interleaving of fundings, trades and reads, failures and cancellations included, the balances of any set of characters, all or one, plus amounts in transit or stranded less amounts funded, are constant modulo 2^32 when every stored character is cached |
| RpgConservation.TradeStepsPlan | examples/rpg/logic/txn/character.go:27-57 | a trade is two debits and two credits crosswise, each of the right amount on the right character |
| RpgConservation.TradeNet | examples/rpg/logic/txn/character.go:27-57 | what a trade has taken out of any set of balances depends only on how many of its four moves are done |
| RpgConservation.TradeCompletes | examples/rpg/logic/txn/character.go:27-57 | a complete trade takes nothing out of all balances and moves what each side gives and takes between the two |
| RpgConservation.FundNet | examples/rpg/logic/txn/character.go:13-25 | a completed funding has added its amount, an unfinished one nothing |
| RpgApart.NextApart | pkg/apecs/apecs_runner.go:438-504 | while messages name different characters, every event keeps each detour's refresh at the balance in view |
| RpgApart.ApartConserves | examples/rpg/logic/txn/character.go:13-57 | so in every history in which a transaction is only submitted while no message names one of its characters, the sum is conserved on any caches |
| RpgLostUpdate.OverlappingDetoursLose | pkg/apecs/apecs_runner.go:438-504 | two fundings of a stored, uncached character without related value, with overlapping detours: there is a history in which both complete and the first amount is missing from the sum |
| RpgLostUpdate.LostFunding | examples/rpg/pb/character.rkcy.go:354-384 | such a history of one character funded five gold twice, at whose end the sum is not conserved |
| RpgCopies.VisitWork | examples/rpg/pb/character.rkcy.go:558-743 | a command changes its character alone and, if it is linked, sends its player the new instance |
| RpgCopies.VisitRefresh | examples/rpg/pb/player.rkcy.go:313-335 | a refresh puts its copy on the player's list, once, and answers with the player's record as it is then cached |
| RpgCopies.VisitAsk | examples/rpg/pb/player.rkcy.go:288-311 | a request puts the new character on the list, once, answers with the player and that list, and sends both back; or it finds no player |
| RpgCopies.VisitStore | examples/rpg/pb/character.rkcy.go:809-879 | a create stores the instance under a fresh key and sends it to the cache |
| RpgCopyRuns.NextKeeps | examples/rpg/pb/player.rkcy.go:272-335 | every event keeps the invariant of links, lists and refreshes on their way |
| RpgCopyRuns.CopiesAgree | examples/rpg/pb/character.rkcy.go:192-257 | in every state of every interleaving, a linked character's last refresh on its way, or else the single entry on its player's list, is its current instance |
| RpgCopyRuns.QuiescentCopiesAgree | examples/rpg/pb/player.rkcy.go:272-335 | whenever nothing is in flight every linked character is on its player's list exactly once with its current instance |
| RpgCreation.CreationLinks | examples/rpg/pb/character.rkcy.go:809-879 | CreateCharacter alone, for a cached player, completes with character and player linked and the character stored at its validation's offset |
| RpgCreation.CreatedStays | pkg/apecs/apecs.go:417-426 | whatever is then written or deleted at offsets of a partition below the validation's random one leaves the item as it was created |
| RpgCreation.DeletionForgets | examples/rpg/pb/character.rkcy.go:343-391 | a delete of a cached instance alone completes with the instance no longer cached; the stored item goes exactly when the delete's offset is greater |
| RpgCreation.WorkFits | examples/rpg/logic/txn/character.go:13-57 | trades and fundings of named characters are admitted by these runs |
| RpgCold.LogicAgrees | examples/rpg/pb/character.rkcy.go:292-753 | handlers depend on the cache only through the record of the step's key |
| RpgColdRuns.SyncProcess | pkg/apecs/apecs_runner.go:543-664 | a PROCESS step that succeeds cold and warm leaves both runs in step |
| RpgColdWarm.ColdDetour | pkg/apecs/apecs_runner.go:438-504 | a miss costs three visits and puts the stored record into the cache |
| RpgColdWarm.ReadSync | pkg/apecs/apecs_runner.go:452-468 | a storage read with its refresh stands for a read, with the same result payload |
| RpgColdWarm.BothTogether | pkg/apecs/apecs_runner.go:438-504 | a record that neither cache has is brought by a detour of both runs, which stay in step |
| RpgColdWarm.HashedFeed | pkg/stream/managed_producer.go:185-200 | however keys are spread over partitions, reading each partition in order meets what these theorems ask of offsets |
| RpgColdWarm.HalfRefresh | examples/rpg/pb/character.rkcy.go:809-879 | behind a create under a given key both refreshes find the same related bytes, and the runs are in step again |
| RpgColdWarm.ColdOrBare | pkg/apecs/apecs_runner.go:429-504 | a transaction ends alike over caches that lost any records and over full ones, same payloads, same failing code, same values, step lists differing by injected pairs only, whatever partitions its messages and the recorded offsets are in; or the cold run stops at the storage read of a lost record whose item was created and never updated |
| RpgColdWarm.ColdEqualsWarm | pkg/apecs/apecs_runner.go:429-504 | without such records it ends alike |
| RpgColdExact.StorageReadExact | examples/rpg/pb/character.rkcy.go:89-96 | a STORAGE READ goes on exactly when the item is there and was updated since its creation |
| RpgColdExact.CreatedIsBare | examples/rpg/pb/character.rkcy.go:98-108 | every create that goes through leaves an item without related value, and it goes through unless that key's item has a greater offset |
| RpgColdExact.ReadExact | pkg/apecs/apecs_runner.go:438-468 | a READ alone completes exactly when its record is cached, or stored and updated since its creation |
| RpgColdExact.BareReadDiffers | pkg/apecs/apecs_runner.go:438-468 | for a lost record whose item was created and never updated the warm READ completes and the cold one fails |
| RpgColdExact.ColdWarmExact | pkg/apecs/apecs_runner.go:429-504 | every transaction ends alike on the cold and the warm world exactly when no lost record's item was created and never updated |
| RpgColdExact.GivenCreateExact | examples/rpg/pb/character.rkcy.go:354-384 | a valid create under a given key, alone, ends alike exactly when the cold cache has not lost related bytes for that key |
| RpgColdWarm.KeyGivenKept | pkg/apecs/apecs_runner.go:405-424 | no step ever takes its key from the step before |
| RpgColdWarm.UpdateNeverCompletes | pkg/rkcy/apecs_txn.go:101-107 | a transaction with an update ahead never completes, in any state of the world |
| RpgColdWarm.UpdateFails | pkg/rkcy/apecs_txn.go:101-107 | alone, it fails |
| RpgColdWarm.SubmittedUpdateFails | pkg/rkcy/apecs_txn.go:61-116 | whatever a client submits with an UPDATE in it is refused or fails, from any state |
| JsonProofs.RoundTrip | pkg/jsonutils/jsonutils.go:129-199 | parsing what was printed, in any white-space layout, followed by any text that is not a number, gives the value back, key order included, and exactly that text |
| JsonProofs.ArrayRoundTrip | pkg/jsonutils/jsonutils.go:333-369 | the elements of a printed array are read back in order |
| JsonProofs.ObjectRoundTrip | pkg/jsonutils/jsonutils.go:268-331 | the fields of a printed object are read back in order |
| JsonProofs.MarshalRoundTrip | pkg/jsonutils/jsonutils.go:201-219 | UnmarshalOrdered inverts MarshalOrdered and MarshalOrderedIndent |
| JsonProofs.LexEscaped | pkg/jsonutils/jsonutils.go:100-127 | the lexer undoes the escaping of every string |
| JsonProofs.KeyTokenExact | pkg/jsonutils/jsonutils.go:173-178 | an unescaped key is read back as one token exactly when it has no quote and no backslash |
| JsonExact.ParseCosts | pkg/jsonutils/jsonutils.go:371-395 | reading a value consumes at least the quotes its strings need |
| JsonExact.ObjectCosts | pkg/jsonutils/jsonutils.go:268-331 | an object that overwrites one of its fields has consumed two quotes more |
| JsonExact.PrintQuotes | pkg/jsonutils/jsonutils.go:129-199 | a printed value has exactly the quotes its strings need |
| JsonExact.RoundTripExact | pkg/jsonutils/jsonutils.go:129-199 | a value whose numbers survive and whose objects repeat no key is read back from its text, in any white-space layout, exactly when no key at any depth is empty or has a quote or a backslash |
| JsonExact.MarshalExact | pkg/jsonutils/jsonutils.go:201-219 | the same for MarshalOrdered and MarshalOrderedIndent with UnmarshalOrdered |
| JsonExact.QuotedKeyExample | pkg/jsonutils/jsonutils.go:173-178 | a key that does not come back |
| JsonProofs.LexedChars | pkg/jsonutils/jsonutils.go:452-540 | white space and the characters of numbers, exactly |
| JsonProofs.LexedEscapes | pkg/jsonutils/jsonutils.go:452-540 | what each escape is read as |
| JsonLayouts.MarshalLayout | pkg/jsonutils/jsonutils.go:201-219 | MarshalOrdered prints one line without layout; MarshalOrderedIndent the lines of the value below each other, behind the prefix |
| JsonLayouts.PrintsLines | pkg/jsonutils/jsonutils.go:129-199 | each entry is on lines of its own, one indent deeper than its brackets, and a trivial value on one line |
| JsonLoops.OrderedMap.Set | pkg/jsonutils/jsonutils.go:23-29 | a known key keeps its place, a new one goes last |
| JsonLoops.OrderedMap.SetAfter | pkg/jsonutils/jsonutils.go:31-56 | a new key goes behind the given one |
| JsonLoops.EncodeString | pkg/jsonutils/jsonutils.go:100-127 | the builder gets the quoted, escaped string |
| JsonLoops.MarshalLoop | pkg/jsonutils/jsonutils.go:129-199 | the builder gets the printed value |
| JsonLoops.NextTokenLoop | pkg/jsonutils/jsonutils.go:452-540 | the next token and what follows it |
| JsonLoops.ParseLoop | pkg/jsonutils/jsonutils.go:371-395 | the parser as it runs computes the parse of the text |
| Payloads.PackIntoBuffer | pkg/rkcy/payload.go:34-45 | the buffer holds magic, offset, instance and related bytes; packed input panics |
| Payloads.UnpackPackExact | pkg/rkcy/payload.go:34-71 | unpacking gives back what was packed exactly when the instance is not empty and the lengths survive 32 bits |
| Payloads.ParsePack | pkg/rkcy/payload.go:17-32 | so it does for everything below 2^32 bytes, and parsing agrees |
| Payloads.ParsePlain | pkg/rkcy/payload.go:13-32 | anything without the four magic bytes and more is an instance without related bytes |
| Payloads.HeaderBytes | pkg/rkcy/payload.go:38-42 | a packed payload starts with "rkcy" and the offset of the related bytes, lowest byte first |
| Payloads.PackUnpack | pkg/rkcy/payload.go:34-71 | repacking gives the payload back, unless a part is itself packed |
| Payloads.EmptyInstance | pkg/rkcy/payload.go:47-71 | an empty instance packs and does not unpack |
| Topics.ParseBuild | pkg/rkcy/topics.go:56-169 | every valid name and generation from 1 to 2^31-1 is built, and parsing recovers every part and the system, that of the topics process, storage and storage-scnd |
| Topics.BuildParse | pkg/rkcy/topics.go:116-169 | whatever parses is a built name up to how the generation is written |
| Topics.PaddedAtoi | pkg/rkcy/topics.go:72-80 | the zero-padded generation is read back |
| Topics.NameLimits | pkg/rkcy/topics.go:36-38 | names have two to sixteen characters, no digit, no underscore, no hyphen in front |
| Topics.NameParts7 | pkg/rkcy/topics.go:56-114 | a full name is seven parts joined by dots, "rkcy" first |
| Topics.PaddedWidth | pkg/rkcy/topics.go:72-80 | a generation has four digits, more only where it needs them |
| Topics.AtoiSigns | pkg/rkcy/topics.go:158-161 | a sign in front of digits is read |
| Topics.AtoiDigits | pkg/rkcy/topics.go:158-161 | nothing but digits behind it |
| LogSearch.FindInWindow | pkg/mgmt/mgmt_consumer.go:42-130 | the greatest match of the last delta messages, or none; an empty log times out |
| LogSearch.MatchHasAll | pkg/mgmt/mgmt_consumer.go:108 | a directive that matches has all the bits asked for |
| LogSearch.HasAllMatches | pkg/mgmt/mgmt_consumer.go:108 | and one that has them matches |
| LogSearch.MatchOne | pkg/mgmt/mgmt_consumer.go:108 | one bit of two is not enough |
| LogSearch.FindMostRecentMatching | pkg/mgmt/mgmt_consumer.go:132-183 | found exactly when one of the last 10000 messages matches, and then the greatest matching offset of the whole log |
| Streams.Fnv64HashFunc.Hash | pkg/rkcy/hash_func.go:34-40 | FNV-1 of the key modulo the partition count |
| Streams.FnvKnown | pkg/rkcy/hash_func.go:34-40 | two published values of 64-bit FNV-1 |
| Streams.PartitionOf | pkg/rkcy/hash_func.go:34-40 | the partition is in range |
| Streams.ManagedProducer.TakeMessage | pkg/stream/managed_producer.go:185-283 | the next message goes to its key's partition, unless paused |
| Streams.NextKeepsOrder | pkg/stream/managed_producer.go:205-283 | sends, pauses and takes keep each key's order |
| Streams.PerKeyFifo | pkg/stream/managed_producer.go:169-283 | in every run a key's messages are in one partition in send order, none lost or repeated, the rest still waiting |
| Streams.OfflineConsumer.ReadMessage | pkg/stream/offline/offline_consumer.go:96-124 | each assignment is read gap-free and in order; a timeout after a full cycle means nothing was there; without an assignment it is an error, with an empty one a division by zero |
| Streams.OfflineConsumer.StoreOffsets | pkg/stream/offline/offline_consumer.go:126-146 | succeeds exactly when every wanted partition is the first assigned; with wanted partitions and none assigned it panics |
| Streams.ReadIsSentSegment | pkg/stream/offline/offline_consumer.go:96-124 | what a consumer has read of a key's partition is, for that key, a segment of what was sent |
| Streams.ReadElsewhereIsNone | pkg/stream/managed_producer.go:205-283 | of another partition it has read nothing for that key |
| Streams.GapFreeGrows | pkg/stream/offline/stream.go:38-47 | appending keeps what was read gap-free |
| Streams.Cycle | pkg/stream/offline/offline_consumer.go:108-113 | among n turns each of n assignments gets one |
| PlatformDefs.CheckClusters | pkg/rkcy/platform_def.go:199-223 | accepted exactly when named, unique and with one admin cluster |
| PlatformDefs.CheckTargets | pkg/rkcy/platform_def.go:225-249 | accepted exactly when named, typed, unique and with one primary target |
| PlatformDefs.CheckConcern | pkg/rkcy/platform_def.go:257-300 | a concern is filled in and accepted exactly as `OwnValuesKept` and `AcceptedExactly` say |
| PlatformDefs.NewRtPlatformDef | pkg/rkcy/platform_def.go:176-312 | accepts exactly the definitions that `AcceptedExactly` describes, and leaves them normalised, given values kept (`OwnValuesKept`) |
| PlatformDefs.SixTopics | pkg/rkcy/platform_def.go:268-282 | six topics with all required ones among them are exactly those, once each |
| PlatformDefs.AcceptedShape | pkg/rkcy/platform_def.go:333-390 | an accepted platform has one admin cluster, one primary target, known clusters, partition counts from 1 to 1024 |
| PlatformDefs.NormalizedAgain | pkg/rkcy/platform_def.go:103-312 | normalising an accepted definition again changes nothing |
| PlatformLaws.OwnValuesKept | pkg/rkcy/platform_def.go:103-153 | an accepted definition keeps its topics in place and every positive generation, named cluster and partition count up to 1024; a missing one is 1, the admin cluster, 1, a greater count 1024; the required topics it does not name follow |
| PlatformLaws.AcceptedExactly | pkg/rkcy/platform_def.go:176-312 | accepted exactly when, as given, names are valid and not repeated, clusters known, future topics one generation behind, single-partition topics single, APECS concerns without other topics, and clusters and targets in order |
| Substitution.SubstStr | pkg/rkcy/platform_def.go:456-464 | the loop over the map, in any order, replaces each key by its value |
| Substitution.OrderIndependent | pkg/rkcy/platform_def.go:456-464 | every order gives the same text when each '@' starts a key and no value has one |
| Programs.OrderShows | pkg/rkcy/platform_def.go:475-526 | with the ten keys of the program and an endpoint "@concern", the argument becomes the concern's name exactly when the endpoint comes before the concern in the map's order |
| Programs.KeyDetermines | pkg/rkcy/platform_def.go:447-454 | equal program keys mean the same command, topic and partition |
| Programs.SlotKeyDetermines | pkg/rkcy/platform_def.go:475-526 | generated programs with equal keys have the same concern, topic, partition and command |
| Programs.OneTemplate | pkg/rkcy/platform_def.go:138-172 | one program per process topic and one, the primary target's, per storage topic |
| ProgramSets.OneKeyPerPartition | pkg/rkcy/platform_def.go:397-421 | on an accepted platform with plain values every partition of every APECS process and storage topic has exactly one program, and its key is among all programs |
| ProgramSets.KeysDiffer | pkg/rkcy/platform_def.go:475-526 | different such partitions have different keys |
| ProgramSets.AcceptedSteady | pkg/rkcy/platform_def.go:456-526 | on such a platform, when also in its own programs for other concerns every '@' starts a key, the order of the substitutions never matters |
| ProgramSets.FiledKeys | pkg/rkcy/platform_def.go:413-415 | every program is filed under its key and no other key is used |
| Launches.PlaceLaunch | pkg/rkcy/platform_def.go:475-526 | each partition of each APECS process and storage topic is consumed by the platform's program, told the full topic name, the partition, the brokers of the topic's cluster and, for storage, the primary target |
| Launches.SecondaryLaunch | pkg/rkcy/platform_def.go:155-170 | a secondary target has a storage program with a command and mark of its own |
| ProgramSets.ExpandProgs | pkg/rkcy/platform_def.go:475-526 | one program for each template and partition, in order, each key replaced by its value |
| ProgramSets.GetAllProgs | pkg/rkcy/platform_def.go:397-421 | the loops over concerns, topics, templates and partitions compute all programs, and none without a definition |
| ProgramSets.Diff | pkg/rkcy/platform_def.go:423-445 | starts are the keys only the new definition has, stops those only the old one has, in any order |
| ProgramSets.Runner.UpdateRunning | pkg/runner/manager.go:22-69 | a start adds a program that is not running and comes up, a stop removes it; a program without runnable panics |
| ProgramSets.Runner.Migrate | pkg/runner/manager.go:22-69 | going from one definition to another leaves running what both have, untouched, and the new programs that come up; all of the new definition's if all do; it survives exactly when every new program has a runnable |

## Left out

- Kafka, gRPC, HTTP, tracing, PostgreSQL, configuration, portal and command-line code: input and output over libraries.
- Protobuf encoding: decoding an encoded message is taken to give it back, and decoding bytes of another message to be an error.
- Reverse direction, topic generation migration and EffectiveTime: declared but not acted on, or only carried along.
- Failures to produce a message are modelled for the forwarded step only; complete and error records and responses are always produced.
- ApecsSystems.SingleToken: spawned storage transactions are any new ones, and the associations added to a complete record are left to ApecsPlatforms.
- StorageConsumers.ExactlyOnce: the initial committed offset is the start of the topic.
- InstanceStores: access times; a nil and an empty related value are the same.
- JsonProofs.RoundTrip: text is a sequence of characters, numbers an arbitrary format and parse pair that round-trips; floating-point formatting and invalid UTF-8 are not modelled.
- JsonLoops.NextTokenLoop: how far the text's slice reaches beyond its end is a parameter, which decides whether the ten bytes for the error text are there.
- Rpg: the items of a character, reference configuration, and storage targets that are not configured.
- RpgWorlds: one process cache per concern, the union of the caches of its partitions, and one primary database; a step that needs a key and has none, which goes to the partition of the empty key, finds that same cache.
- RpgTermination.RunAlone: the asynchronous storage transactions a completion spawns are separate transactions.
- RpgConservation.Accounting: caches lose nothing on the way, and on cold caches asynchronous updates write only items of cached characters, as the transactions that cause them do.
- RpgCopyRuns.CopiesAgree: keys are fresh, nobody names a character or player before its creation has ended, caches lose nothing, and only messages of commands and reads are cancelled.
- RpgColdWarm.ColdOrBare: each key keeps its partition and generation while the transaction runs, cached records come from their key's own partition, and both databases recorded the same values in the same partitions; a create under a given key whose related bytes the cold cache has lost is left out, since it does end differently (`GivenCreateExact`), and so is one under a key that will be made up later.
- RpgStorages.UpdateComesBack: cached records are of their concern and under their own keys, and related bytes of an empty value are none, as every writer leaves them.
- RpgStorages.SpawnedLetIn: the copy of an UPDATE of an instance without a key; no UPDATE completes (`SubmittedUpdateFails`).
- LogSearch: one partition, since the watermarks asked for are always those of partition 0; the log is stable during the search.
- Streams: the platform update that changes the partition count; the hasher shared without a lock is one atomic step; Assign's error for an unknown partition.
- Streams.OfflineConsumer.ReadMessage: the time limit is a number of turns.
- PlatformDefs: update time, hash and the default response topic; nil entries of repeated fields.
- ProgramSets: program tags, and getAllProgs on definitions that NewRtPlatformDef has not accepted, where a missing topic or cluster is a nil dereference.
- ExecuteTxnSync and ExecuteTxnAsync, response channels and producer culling: clocks and channels.
