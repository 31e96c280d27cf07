# stoatcord: a verified model

stoatcord mirrors a Discord server onto Stoat. This project models the five connected parts that carry its
hard guarantees, over one mapping store, and proves what they keep over every interleaving, input and start.
`dafny verify dfyconfig.toml` checks everything.

| part | modules |
|---|---|
| the store, the canonical form and the appliers | `Store`, `Permissions`, `Canonical`, `Gateway`, `Pushes` |
| the op engine, as a step machine over every interleaving | `Flow`, `Engine`, `EngineRuns` |
| what its runs drain to, mirror and keep in order | `EngineDrain`, `EngineQuiescence`, `EngineCache`, `EngineMirror`, `EngineStart`, `EngineOrder`, `EngineFifo` |
| where its promises end | `EngineFine`, `EngineEmptyKey`, `EngineHollow`, `EngineStories` |
| the engine's code, proved to be a run of that machine | `EngineCode` |
| start-up: Discord's list, binding, live reconcile, restart | `DiscordState`, `Bind`, `BindTheorems`, `Live`, `LiveTheorems`, `LiveRoundTrip`, `LiveJudgements`, `Restart` |
| pacing | `RateLimiter`, `RemoteCalls` |

Code that changes state is code here too: the store is the class `Store.Database`, the limiters are classes with
their locked sections as methods, the start-up passes are methods with the original loops over that store, and the
worker's code is the class `EngineCode.OpEngine`. Each method is proved against a function or a relation on values,
and the promises are proved about those. Maps that Go visits in random order are visited in an arbitrary order.

## Main results

- **Drain.** Any engine run with n ops submitted, at whatever points of it, has at most n (31 n + 42) steps, whatever
  fails (`EngineDrain.EveryRunTerminates`). Whatever failed or was deleted, a run that cannot go on has finished every op but
  those parked on a dependency of theirs whose row is not active, and Wait returns exactly when nothing waits on such a
  row (`EngineQuiescence.EveryMaximalRunWaits`). From a healthy start, without failures and deletes, nothing does, and
  every row is active (`EveryMaximalRunDrains`): roles before channels before categories and messages makes it so.
- **The diff cache is invisible.** Skipping ops whose Diff is equal leaves the same roles and channels under the same
  ids as a mirror that applies every op, however that mirror visits its maps (`EngineMirror.CacheInvisible`), because
  writing a wire shape twice is writing it once in every visiting order of both writes (`Gateway.PushTwice`). The starts
  this covers are known exactly, those after the bind and live passes included (`EngineStart.ReconciledStartFitsIff`).
- **Order.** A worker is first in, first out, over every run, except for the ops its dependency check turned away
  (`EngineFifo.UndelayedKeepOrder`, `FirstInFirstOut`); nothing passes any other op (`NothingPasses`), and one that was
  overtaken was turned away and is still due (`OvertakenWasDelayed`).
- **Identity.** Under any interleaving and any remote failure a row's id never changes until it is removed, at most one
  create succeeds in between, ids stay injective, and the row holds the op's state before Stoat is asked
  (`EngineRuns.IdentityStable`, `AtMostOneCreate`, `IdsInjective`, `IntentPrecedesWrite`).
- **Binding.** The greedy loop that deletes from its own work list equals a closed form over sets
  (`Bind.LoneLeft`, `Bind.BindEntities`), so Stoat's random role order cannot matter; the pass partitions Stoat's
  entities, never reaps what an active row names, and a second dry-run start changes nothing, however the first ended.
- **What a call writes.** In the entities' own fields: roles and overwrites grant what Discord allows and deny what it
  denies (`Pushes.RolePushed`, `RoleOverwritePushed`), and over any run all new messages of a channel land in the one
  Stoat channel its row names (`MessagesStayTogether`). `EngineCode.OpEngine.Process` says the same of queue and rows.
- **Push and read back.** The live pass undoes both id translations of the appliers: overwrites
  (`LiveRoundTrip.ChannelReadsBackIff`), roles (`RoleReadsBackIff`) and the whole sidebar (`DiscordState.SidebarRoundTrip`).
- **Pacing.** nextAllowed admits a caller exactly when every earlier grant and every backoff allows it
  (`RateLimiter.FreeIffRespectful`), hence the configured budgets per ten seconds (`ConfiguredBudgets`).

## Where the code does less than it says

Each item is proved, with the exact condition where there is one.

- A role edit never sends the name and clamps the rank. A renamed role, and `@everyone` (rank 0), read as drift at every
  start and no push repairs them (`LiveRoundTrip.RoleReadsBackIff`; internal/stoat/role.go:31-45).
- Overwrites are only ever added. A channel reads as drift forever exactly if a readable key on it, left over or put
  there by an admin self-grant, is not among the wanted overwrites (`ChannelReadsBackIff`; internal/stoat/channel.go:81-96).
- Resolving overwrites asks for a row, not for an id: a role whose row has no id is pushed under the empty key, which
  Stoat's endpoint reads as everyone (`Gateway.EmptyKeyIffRoleWithoutID`; internal/discord/gateway.go:170-176). The
  dependency check had seen an id, so in any run the row was removed and written again between the check and the call
  (`EngineEmptyKey.EmptyKeyNeedsErasure`); a role deleted and re-created at that moment does it (`EmptyKeyReached`).
- Binding never guesses, but both candidates of an ambiguous name are foreign and reaped
  (`BindTheorems.AmbiguousIsForeign`). The elevation role is exempt from reaping but not from matching: the condition for
  its adoption, after which every start is refused, is `ElevationAdoptedIff`; `SecondPass` gives the case where the
  reaping of its rivals is what exposes it. A pending row does not protect its entity (`DanglingIff`). A dead channel
  row with message rows cannot be removed and ends the start (`Bind.BindEntities`, the `ok` clause).
- Stoat is left with an entity no row knows exactly after a create that landed but was reported as an error, or after a
  delete op that met a pending row; entities of rows bound before the run count as well as those it creates
  (`EngineRuns.OrphanSources`, `OrphanFreeFromStartIff`; internal/stoat/channel.go:27-29, internal/discord/gateway.go:143).
- A row with an id names an entity that is gone from Stoat exactly between a delete's call and the removal of the row, or
  after the store refused that removal, which happens to channels with message rows, until a later removal succeeds
  (`EngineHollow.HollowIff`; internal/engine/engine.go:174-182, internal/store/migrations/0001_init.sql:53).
- An op that repeats the shape of a failed one is dropped: Diff compares against the state that never arrived
  (`EngineStories.ResubmissionDroppedIff`; internal/engine/engine.go:194-205). A restart does not help: the row stays
  pending and the converge op is dropped exactly if the bind pass finds no partner and the desired shape is the one that
  failed (`Restart.NotRepairedByRestartIff`). A failed message edit even reads as active (`Store.IntentKeepsIdentity`).
- One worker per channel does not mean send order (against internal/engine/engine.go:60-68): it does for the ops that are
  never turned away. Being turned away is an everyday event: from a channel update's intent on, and over any run until a
  step confirms the channel, each of its messages is (`EngineFifo.UpdateTurnsMessagesAway`). The runs `SecondMessageFirst` and
  `SecondMessageFirstRequeued` invert two messages; `DeleteOvertakesCreate` a create and its delete. While the channel
  has no active row at all the order does hold (`EngineOrder.ParkedInOrder`).
- The dependency check and the parking are two steps. Taken as two, a wake-up is lost exactly by parking an op on a row
  that has become active since, with nobody between its confirm and its notify (`EngineFine.WakeupLostIff`,
  `FineRunsWakeIff`); `WakeupLost` is such a run, after which Wait never returns (internal/engine/engine.go:112-113 and
  130-133 against 147-150).
- The live pass can judge a channel a match that a push would still change: a self-grant, or the everyone entry, is
  missing (`EngineStart.MatchedChannelCoherentIff`; internal/reconcile/live.go:183-220).
- `RateLimitedError` is produced by no applier of the repository outside its tests, so the 429 path of the retry loop,
  modelled here, is dormant.

## Reading the model

A step of the machine touches one shared thing: a queue, the waiters index, one row, one remote call. Two steps are
coarser than the code: the dependency reads with the parking, which `EngineFine` takes apart, and a remote call with the
row read inside Apply. `EngineCode.OpEngine` has the engine's fields, and each update of them is proved to be one move of
the machine; its `hands` and `submitting` hold how far the goroutines have come.
Stoat may fail any call, write an edit in part, or perform a create and report an error. An op is named by its ticket,
its position in submission order. `place`, `issued`, `creator` and `log` are history that no guard reads.
A 64-bit word is the set of its one bits. A serialized record stands for its JSON text: encoding/json writes struct
fields in order and map keys sorted, so texts are equal exactly when records are. The text `{}` is `EmptyObject`.
Ids are unique within each Discord and Stoat listing; Discord's permission table is a parameter, assumed injective onto
the permissions with a Stoat bit, as its literal is. Clock readings are monotone integers in milliseconds.
Lemmas carry `{:induction false}`: every induction is written out.

## Model

| member | source | states |
|---|---|---|
| Permissions.StoatBits | internal/canonical/permission.go:87-98 | the OR loop yields exactly the bits of the listed permissions that have one |
| Permissions.PermissionsFromBits | internal/discord/permission.go:63-81 | decodes all 64 positions in ascending order, skipping those outside the table |
| Permissions.DecodedInOrder | internal/discord/permission.go:63-81 | each set bit in the table contributes exactly one entry, in ascending bit position |
| Permissions.DecodedMembers | internal/discord/permission.go:63-81 | a permission is decoded iff a set bit of the mask maps to it |
| Permissions.RemapMember | internal/canonical/permission.go:87-98 | a Stoat bit is set in the translated mask iff some set Discord bit carries it |
| Permissions.RemapIsBitwise | internal/canonical/permission.go:56-98 | every Stoat bit in use has exactly one Discord bit and is set iff that one is, for all masks |
| Permissions.RemapDistributesOverOr | internal/canonical/permission.go:87-98 | translating an OR is the OR of the translations |
| Permissions.RemapKeepsDisjoint | internal/canonical/permission.go:116-121 | disjoint allow and deny masks stay disjoint on the way to Stoat |
| Canonical.TranslateOverwrites | internal/canonical/emit.go:48-58 | every overwrite is translated under its own key, in any order: allow has the bits of its allowed permissions, deny those of its denied ones |
| Canonical.SortCorrect | internal/canonical/state.go:22-28 | sorting permutes and orders the permission list |
| Canonical.SortedEqualIffPermutation | internal/canonical/state.go:16-28 | sorted lists are equal iff the lists are permutations of each other |
| Canonical.RoleRecordIsCanonical | internal/canonical/state.go:98-111 | two roles serialize equally iff they agree up to permutation of their permission lists |
| Canonical.ChannelRecordIsCanonical | internal/canonical/state.go:42-60 | two channels serialize equally iff they agree up to permutation of every overwrite's lists |
| Canonical.RoleShapeSurvives | internal/canonical/state.go:98-131 | serializing and parsing a role keeps its Stoat shape |
| Canonical.ChannelShapeSurvives | internal/canonical/state.go:42-82 | serializing and parsing a channel keeps its Stoat shape |
| Store.Database.Get | internal/store/mapping.go:49-76 | reads one row; a message row's status follows from its id |
| Store.Database.WritePending | internal/store/mapping.go:84-109 | inserts or marks pending, keeping the id; a message without its channel's row is refused |
| Store.Database.Confirm | internal/store/mapping.go:111-129 | records the id and activates the row if it exists |
| Store.Database.Remove | internal/store/mapping.go:132-147 | deletes the row, unless message rows reference it |
| Store.Database.Enqueue | internal/store/mapping.go:151-160 | appends to the durable queue |
| Store.ForeignKeysKept | internal/store/migrations/0001_init.sql:50-55 | every statement keeps every message row's channel row in place |
| Store.IntentKeepsIdentity | internal/store/mapping.go:78-109 | a pending window keeps the id and touches no other row; a message row with an id never reads pending |
| Gateway.ResolveOverwriteRoleIDs | internal/discord/gateway.go:162-179 | every resolvable overwrite is pushed under its target and nothing else is, in any visiting order |
| Gateway.ResolutionUnique | internal/discord/gateway.go:162-179 | with separate targets the result does not depend on the visiting order |
| Gateway.EmptyKeyIffRoleWithoutID | internal/discord/gateway.go:170-176 | the empty key is pushed iff some overwritten role has a row without an id |
| Gateway.ApplyChannelOverwrites | internal/stoat/channel.go:81-96 | admin grants first, then every overwrite; keys that are neither keep their value |
| Gateway.PushUnique | internal/stoat/channel.go:92-96 | the outcome of the keyed writes does not depend on their order unless both spellings of everyone occur |
| Gateway.PushTwice | internal/stoat/channel.go:81-96 | writing one wire shape twice, in any two orders, is writing it once |
| Pushes.RolePushed | internal/stoat/role.go:14-45 | a pushed role grants and denies its own permissions by bit, with its colour and hoist, a rank of at least 1 and the name of its create |
| Pushes.RoleOverwritePushed | internal/discord/gateway.go:162-179 | each overwrite is on the channel under the id its role's row names, allow as allow and deny as deny |
| Pushes.EveryonePushed | internal/discord/gateway.go:13-18 | the guild's own overwrite is on the channel under `default` |
| Pushes.OtherKeysPushed | internal/stoat/channel.go:81-96 | a key nobody overwrites has exactly the grant if it is an admin role's, and is as before otherwise |
| Pushes.CallLeaves | internal/discord/gateway.go:106-133 | a successful write edits the entity its row names, or creates one under a new id, and touches no other |
| Pushes.MessageLands | internal/discord/message.go:145-192 | a new message is posted with its content to the Stoat channel its channel's row names at the call; an edit changes the content in place |
| Pushes.MessagesStayTogether | internal/discord/message.go:145-192 | over any run, while a channel's row is not removed, all its new messages go to the one Stoat channel the row names |
| Gateway.ResolveChannelIDs | internal/discord/category_gateway.go:103-123 | keeps order and drops exactly the channels without an active row |
| Gateway.ResendCategories | internal/discord/category_gateway.go:85-95 | pushes one slot per category, in order, with its resolved channels |
| Pushes.ChannelsShown | internal/discord/category_gateway.go:103-123 | a slot lists the Stoat ids of exactly the member channels with an active row, in order |
| Pushes.SidebarShows | internal/discord/category_gateway.go:85-95 | a successful category op makes the sidebar show its snapshot, ids, names and channels; no other step changes the sidebar |
| Gateway.SentinelForcesPush | internal/reconcile/reconcile.go:26-31 | no desired role, channel or category diffs equal to the sentinel, and the push that follows edits the adopted id |
| Gateway.DiffAgainstRecord | internal/discord/gateway.go:65-71 | Diff against an earlier op's record is equal iff the two ops have one Stoat shape |
| Flow.WaitReturnsIffDrained | internal/engine/engine.go:85-87 | the counter is zero iff no queue, hand, waiters list or resend list holds anything |
| Engine.AnswerIsOwn | internal/discord/gateway.go:121-133 | the id a successful call answers is fresh or the row's own, and nobody else's |
| Engine.StepKeepsInv | internal/engine/engine.go:111-228 | every step of every worker keeps the invariant: places, counter, stage against row, distinct ids |
| EngineRuns.OpsConserved | internal/engine/engine.go:69-155 | at any point of any run each op is in one place, and the counter is the number unfinished |
| EngineRuns.FinishIsFinal | internal/engine/engine.go:111-118 | an op finishes at most once and a step takes at most one off the counter |
| EngineRuns.IdentityStable | internal/store/mapping.go:78-129 | a mirrored row's id changes only by removing the row |
| EngineRuns.AtMostOneCreate | internal/discord/gateway.go:106-133 | between removals at most one create succeeds for a row, none if it had an id, over all runs |
| EngineRuns.IdsInjective | internal/engine/engine.go:157-228 | in every reachable state no two mirrored rows share a Stoat id |
| EngineRuns.IntentPrecedesWrite | internal/engine/engine.go:208-216 | when Stoat is asked to create or edit, the row already holds the op's state, pending |
| EngineRuns.NoWakeupLostInAnyRun | internal/engine/engine.go:130-155 | the same over whole runs |
| EngineRuns.OrphanSources | internal/discord/gateway.go:138-150 | an entity is orphaned exactly by a lost create or by a delete op that meets a pending row |
| EngineRuns.OrphanFreeFromStartIff | internal/engine/engine.go:174-182 | from any start, counting what bound rows name and what the run creates: a run orphans something iff it contains such a step |
| EngineHollow.StaleSources | internal/engine/engine.go:174-182 | a step leaves a row naming a dead entity, with nobody about to remove it, iff it was so and is not removed, or its removal is refused now |
| EngineHollow.HollowIff | internal/engine/engine.go:174-182 | over any run: a row's entity is gone iff its removal is under way, or was refused after the delete and has not happened since, or it was gone at the start |
| EngineDrain.EveryRunTerminates | internal/engine/engine.go:69-228 | a run that ends with n ops submitted, at whatever points, has at most n (31 n + 41) steps and one per op it submits, whatever fails and whoever wakes whom |
| EngineQuiescence.EveryMaximalRunDrains | internal/engine/engine.go:107-228 | from a healthy start every maximal run without failures and deletes finishes everything |
| EngineQuiescence.EveryMaximalRunWaits | internal/engine/engine.go:85-155 | at the end of any maximal run each op is finished or parked on its own inactive dependency; the counter is zero iff no inactive row has waiters |
| EngineCache.WriteTwice | internal/discord/gateway.go:65-88 | an entity written with one shape satisfies being written with an equal shape again |
| EngineCache.CacheKept | internal/engine/engine.go:184-227 | every step keeps: what an active row records is what Stoat has |
| EngineMirror.StepMirrored | internal/engine/engine.go:184-227 | an engine step is no step or one always-apply step, and every such step of the mirror keeps it in agreement |
| EngineMirror.CacheInvisible | internal/engine/engine.go:184-227 | over any smooth run the mirror can apply every op, and every way it does so ends with the engine's ids and entities |
| EngineStart.StartFitsIff | internal/engine/engine.go:184-205 | a healthy start is covered iff every role and channel row records `{}` or a state Stoat would absorb |
| EngineStart.BoundStartFits | internal/reconcile/reconcile.go:269-285 | rows recorded as `{}`, as the bind pass leaves them, are covered |
| EngineStart.MatchedRoleCoherentIff | internal/stoat/role.go:31-45 | a role that reads back as desired is absorbed iff its rank is one Stoat keeps |
| EngineStart.MatchedChannelCoherentIff | internal/stoat/channel.go:81-96 | a channel judged a match is absorbed iff the self-grants no overwrite replaces and a wanted everyone entry are on it |
| EngineStart.ReconciledStartFitsIff | internal/reconcile/live.go:27-80 | after a live pass that fetched everything, a start is covered iff every matched role and channel is so absorbed |
| EngineCache.LogComplete | internal/engine/engine.go:111-118 | every role or channel op is applied or skipped exactly once by the time it is dealt with |
| EngineOrder.ParkedInOrder | internal/engine/engine.go:75-80 | while a channel has no active row, parked, held and queued messages are the submission sequence |
| EngineFifo.UndelayedKeepOrder | internal/engine/engine.go:60-80 | over any run, let by then in front equals in front then arrived, leaving out the delayed ops |
| EngineFifo.FirstInFirstOut | internal/engine/engine.go:60-80 | if no op of the worker is parked, re-sent or turned away, it lets them by in the order they were sent |
| EngineFifo.NothingPasses | internal/engine/engine.go:111-155 | ahead of an op that is not delayed comes only what was ahead, arrived before it or stood aside at the start |
| EngineFifo.NobodyIsLost | internal/engine/engine.go:111-155 | who is due or arrives is let by, or still in front, parked or being re-sent |
| EngineFifo.OvertakenWasDelayed | internal/engine/engine.go:111-155 | an op let by before an earlier one implies that the earlier was turned away or stood aside, and is still due |
| EngineFifo.UpdateTurnsMessagesAway | internal/engine/engine.go:208-227 | over any run from a channel's intent on in which no step confirms it, each op depending on it that reaches its check is parked, its messages on the channel |
| EngineStories.SecondMessageFirst | internal/engine/engine.go:60-68 | for any channel and two messages there is a run where the second passes the parked first |
| EngineStories.SecondMessageFirstRequeued | internal/engine/engine.go:144-155 | the same with the first message woken and queued again behind the second |
| EngineStories.DeleteOvertakesCreate | internal/engine/engine.go:60-68 | for any channel with an overwrite there is a run where its delete finishes while its create is parked |
| EngineFine.WakeupLostIff | internal/engine/engine.go:111-155 | a step of the finer machine loses a wake-up iff it parks on a row active by now with no notify of it to come |
| EngineFine.FineRunsWakeIff | internal/engine/engine.go:111-155 | no state of a finer run has a waiter without a reason iff no step of it is such a parking |
| EngineFine.RunRefined | internal/engine/engine.go:111-155 | every run of the machine is a run of the finer one, around workers standing between check and parking |
| EngineFine.WakeupLost | internal/engine/engine.go:111-155 | for any channel and message there is a finer run that ends with the message parked for good |
| EngineEmptyKey.EmptyKeyNeedsErasure | internal/discord/gateway.go:162-179 | over any run: an empty key at a channel's call means an overwritten role had an id at its check and lost its row since |
| EngineEmptyKey.EmptyKeyReached | internal/discord/gateway.go:170-176 | for any channel with one overwrite there is a run to a call whose every success gives the role's permissions to everyone |
| EngineStories.FailedUpdateNotRepaired | internal/engine/engine.go:194-205 | against an earlier op's record an op finishes without a call iff the shapes are equal, else it goes on to write; rows, entities and waiters stay |
| EngineStories.ResubmissionDroppedIff | internal/engine/engine.go:194-220 | over a run: after a create or edit that failed, was lost or met a sixth 429, the next op decided on its key is dropped, the row still pending, iff it has that op's shape |
| Restart.PendingRowAfterRestart | internal/reconcile/live.go:138-161 | after bind and live pass a pending row is adopted and active if it found a partner, else unchanged |
| Restart.NotRepairedByRestartIff | internal/engine/engine.go:194-205 | after a restart the converge op leaves the row pending without a call iff no partner was found and the shape is the failed one |
| EngineCode.OpEngine.Submit | internal/engine/engine.go:69-72 | counts the op and appends it to its own worker's queue, as two steps of the machine |
| EngineCode.OpEngine.TryRun | internal/engine/engine.go:111-118 | parks iff some dependency is not active, on the first such and behind those already waiting for it, and writes nothing; otherwise does what process does; a run of the machine |
| EngineCode.OpEngine.Process | internal/engine/engine.go:157-228 | unhealthy: the op is queued, kind, operation and state, and nothing else changes; healthy: the queue is left alone; a dry run changes nothing; a delete that succeeds removes the row unless messages hold it; an equal record changes nothing; otherwise the row holds the op's state, active iff the call succeeded, or the intent was refused; a run of the machine that frees the worker |
| EngineCode.OpEngine.RunRemote | internal/engine/remote.go:22-47 | only a 429 is retried and the sixth ends it; success leaves the op applied or gone, anything else frees the worker; a run of the machine |
| EngineCode.OpEngine.NotifyWaiters | internal/engine/engine.go:144-155 | takes the whole waiters list of the key, sends each op to its own worker in the order parked, leaves all other lists alone and is done |
| EngineCode.CodeKeepsInv | internal/engine/engine.go:111-228 | running the code keeps the machine's invariant |
| Bind.ClaimMapped | internal/reconcile/reconcile.go:226-245 | claims what active rows name, clears dead rows, lists the rest; stops at the first dead row the store keeps |
| Bind.FindMatch | internal/reconcile/reconcile.go:255-267 | tells no match, exactly one and its index, or at least two apart; a match has the same name and the same kind |
| Bind.BindingsAreThePartners | internal/reconcile/reconcile.go:247-285 | the pairs are exactly: the first open Discord entity of a name with the only free Stoat entity of that name |
| Bind.LoneLeft | internal/reconcile/reconcile.go:254-285 | what earlier rounds left holds one match iff the entity has a partner among all that was free |
| Bind.MatchByName | internal/reconcile/reconcile.go:254-285 | the loop that deletes from its own list writes the closed form's rows and leaves the unpaired |
| Bind.Reap | internal/reconcile/reconcile.go:287-310 | deletes are sent for exactly the leftovers but the protected id, none in a dry run or for categories |
| Bind.BindEntities | internal/reconcile/reconcile.go:225-312 | one pass: succeeds iff no dead row is held, then ends in the closed form and sends deletes for the foreign |
| Bind.VerifyElevationRoleUnmapped | internal/reconcile/reconcile.go:184-195 | passes iff no active role row names the elevation role |
| Bind.Bind | internal/reconcile/reconcile.go:97-176 | the three passes in order: the rows each way of ending leaves and the deletes sent, also where a failure stops them; none in a dry run, never the elevation role's |
| BindTheorems.RowAfter | internal/reconcile/reconcile.go:229-285 | the row of each Discord entity after the pass: kept, adopted, cleared or left pending |
| BindTheorems.AdoptsIff | internal/reconcile/reconcile.go:247-285 | d adopts s iff s is free and the only free one with d's name and kind, and no earlier open entity has both |
| BindTheorems.PairsAgree | internal/reconcile/reconcile.go:254-285 | every pair has one name and one kind, and its Discord entity had no living row |
| BindTheorems.StartKeepsLiving | internal/reconcile/reconcile.go:97-176 | however a start ends it keeps the row of every channel the server lists, readable or not, and of every listed role and category |
| BindTheorems.MappedElevationRefused | internal/reconcile/reconcile.go:184-195 | a start that finds the elevation role mapped does not complete and changes no role's row |
| BindTheorems.Partition | internal/reconcile/reconcile.go:225-310 | every listed Stoat entity is exactly one of claimed, matched, protected, foreign |
| BindTheorems.BindIsSafe | internal/reconcile/reconcile.go:204-310 | active ids stay injective, all exist, and neither they nor the protected id are deleted |
| BindTheorems.SecondPass | internal/reconcile/reconcile.go:88-96 | a second dry-run pass is idle; after a full reap it is idle unless the protected entity is left under an open name |
| BindTheorems.AmbiguousIsForeign | internal/reconcile/reconcile.go:269-272 | two candidates are matched by nobody and both are foreign |
| BindTheorems.DanglingIff | internal/reconcile/reconcile.go:229-245 | a row points to a deleted entity iff it was pending with it, found no partner and nobody took it |
| BindTheorems.ElevationAdoptedIff | internal/reconcile/reconcile.go:157-195 | the elevation role is adopted iff it is the only free role under the name of an open Discord role |
| BindTheorems.BindIsIdempotent | internal/reconcile/reconcile.go:88-176 | however the first dry-run start ended, a second changes no row; it completes iff the first did and did not adopt the elevation role |
| Live.ReverseInverts | internal/reconcile/live.go:100-115 | it names only active rows, and all of them if ids are unique |
| Live.RekeyOverwrites | internal/reconcile/live.go:198-213 | every readable role permission and the default come back under Discord ids, nothing else does |
| Live.ReadingUnique | internal/reconcile/live.go:198-213 | the re-keyed map does not depend on the visiting order |
| Live.ReconcileRoleLive | internal/reconcile/live.go:138-161 | re-stamps by the verdict on the live role of the row's id, or leaves the row alone |
| Live.ReconcileChannelLive | internal/reconcile/live.go:183-220 | the same for a channel, comparing re-keyed overwrites |
| Live.ReconcileCategoryLive | internal/reconcile/live.go:222-260 | the same for a category, comparing members in order and the index |
| LiveTheorems.ReconcileLive | internal/reconcile/live.go:49-80 | the three loops end in the closed form computed from the tables at the start |
| LiveTheorems.LiveKeepsIdentities | internal/reconcile/live.go:37-42 | no row appears or vanishes; every status and Stoat id is kept |
| LiveTheorems.LiveIsIdempotent | internal/reconcile/live.go:49-80 | a second pass over the same live state changes nothing |
| LiveTheorems.RolesAreJudged | internal/reconcile/live.go:65-69 | each role's row ends as its own verdict says |
| LiveTheorems.ChannelsAreJudged | internal/reconcile/live.go:70-74 | each channel's row ends as its own verdict says |
| LiveTheorems.CategoriesAreJudged | internal/reconcile/live.go:75-79 | each category's row ends as its own verdict says |
| LiveJudgements.RoleJudgedByItsOwn | internal/reconcile/live.go:138-170 | a role is judged by the live role of its row's id: matching iff name, colour, hoist, rank and permission bits are as desired; untouched if there is none |
| LiveJudgements.ChannelJudgedByItsOwn | internal/reconcile/live.go:183-220 | a channel is judged by the live channel of its row's id: matching iff name, type and re-keyed overwrites are as desired |
| LiveJudgements.CategoryJudgedByItsOwn | internal/reconcile/live.go:222-269 | a category is judged by the first slot of its row's id: matching iff title, members in order and place are as desired |
| LiveJudgements.RoleReadsBackThroughPass | internal/reconcile/live.go:138-170 | a role pushed, read back and judged by the pass is stamped as matching iff its rank is at least 1 and its name needed no edit |
| LiveTheorems.ConvergeSkipsIffMatched | internal/reconcile/live.go:27-36 | the converge op is skipped iff the live state matched, else it edits the bound entity |
| LiveRoundTrip.OverwritesReadBack | internal/reconcile/live.go:198-213 | re-keying undoes resolving iff no stray readable key is on the channel |
| LiveRoundTrip.ChannelReadsBackIff | internal/stoat/channel.go:14-42 | a pushed channel reads back as a match iff its type was right and no key on it or granted is stray |
| LiveRoundTrip.FreshChannelReadsBack | internal/reconcile/live.go:183-220 | a fresh channel without admin grants reads back exactly |
| LiveRoundTrip.RoleReadsBackIff | internal/stoat/role.go:14-45 | a pushed role reads back as a match iff its rank is above the reserved one and its name needed no edit |
| LiveRoundTrip.MembersReadBack | internal/discord/category_gateway.go:103-123 | resolving and reversing a member list keeps exactly its active channels, in order |
| LiveRoundTrip.CategoryReadsBackIff | internal/reconcile/live.go:222-260 | after a resend a category matches, position included, iff all its channels are active |
| DiscordState.SortFunc | internal/discord/state.go:72-83 | a permutation in ascending order, and no more |
| DiscordState.CollectMembers | internal/discord/state.go:55-66 | groups the modelled channels of each category in list order |
| DiscordState.CategoriesFromState | internal/discord/state.go:40-93 | one numbered entry per category in sidebar order, each with its modelled channels in order |
| DiscordState.SidebarByFields | internal/discord/state.go:40-93 | the entries are the guild's category channels, all of them, with id and name, numbered in ascending position |
| DiscordState.MembersByFields | internal/discord/state.go:55-79 | an entry's members are the text, news, forum, voice and stage channels that name it as parent, in ascending position |
| DiscordState.MembershipIsExact | internal/discord/state.go:55-79 | a channel is listed once, under its parent, iff it is modelled and the parent is a category |
| DiscordState.SidebarIsUnique | internal/discord/state.go:69-91 | with distinct positions the list depends on no map order or sorting choice |
| DiscordState.SidebarRoundTrip | internal/discord/state.go:69-91 | derived, pushed and read back, a category matches in name, order and position iff every channel in it is bound |
| RateLimiter.FreeIffRespectful | internal/engine/rate_limiter.go:35-59 | a slot is free iff the interval after every grant and every backoff window are over |
| RateLimiter.NeverDecreases | internal/engine/rate_limiter.go:132-139 | nextAllowed never decreases |
| RateLimiter.GrantsKeepTheirDistance | internal/engine/rate_limiter.go:23-59 | grants are an interval apart and outside every earlier backoff window, also for callers asleep when it began |
| RateLimiter.WindowBound | internal/engine/rate_limiter.go:10-19 | any half-open window sees at most width over interval grants, rounded up |
| RateLimiter.ConfiguredBudgets | cmd/stoatcord/main.go:32-44 | at most 5, 15, 10 and 20 grants per ten seconds on the four kinds of bucket |
| RemoteCalls.GlobalRateLimiter.TakeSlot | internal/engine/rate_limiter.go:37-50 | grants iff nextAllowed has come, logs the attempt, else says how long to sleep |
| RemoteCalls.GlobalRateLimiter.BackOff | internal/engine/rate_limiter.go:132-139 | logs the backoff and keeps nextAllowed the function of the history |
| RemoteCalls.Wait | internal/engine/rate_limiter.go:35-59 | returns nil only with the caller's own grant as the latest event, after any naps and interference; fails only by cancellation, or when the naps it was given are over |
| RemoteCalls.RunRemote | internal/engine/remote.go:22-47 | at most six attempts, each in its own slot, spaced by interval and Retry-After; only a 429 is retried; an error is the last answer's or a Wait's |
| RemoteCalls.BucketedRateLimiter.TakeSlot | internal/engine/rate_limiter.go:102-104 | one key's attempt, as on a total map of independent limiters |
| RemoteCalls.BucketedRateLimiter.BackOff | internal/engine/rate_limiter.go:106-108 | one key's backoff, leaving all other keys alone |
| RemoteCalls.BucketsByChannel | internal/engine/rate_limiter.go:110-127 | two ops share a limiter iff both are server-wide, or of one channel or message stream |
| RemoteCalls.ConfiguredIntervals | cmd/stoatcord/main.go:32-44 | with main's intervals an op waits on the one of its kind: server-wide 2 s, channel 0.7 s, messages 1 s, else 0.5 s |

## Left out

- Transport: HTTP, WebSocket, discordgo and revolt calls are a map of entities with create, edit and delete that may fail.
- SQLite, migrations, time columns and store errors other than the message table's foreign key; the cursor table's own reference to a channel row.
- The text of JSON, logging, configuration, the lock file, health composition, the shutdown timeout, admin-role resolution.
- Message quoting, attachments, author display and replies: a message is its channel and content; edits are content-only as in the source.
- Server metadata and emoji ops: the repository has no builders for them.
- Canonical.SortCorrect: slices.Sort runs in place on a private copy; here sorting is a function, fixed by permutation and order.
- Worker channels are unbounded queues; the capacity of 64 only delays a send. A submitter whose send is blocked is a state of the model.
- During a run only the engine changes Stoat's roles, channels and messages; what others do there is seen at the next start.
- The drain of the durable queue is not in the repository; refused ops are appended to it and done with.
- Category entities in identity and orphan claims: a category is a slot in a list under Discord's own id, and its apply pushes a snapshot; the sidebar after the last push is modelled and proved in the round trip.
- EngineQuiescence.EveryMaximalRunDrains: assumes that no delete is submitted and no call fails, because either can leave a dependency row pending or absent for good; EveryMaximalRunWaits says what is left then.
- EngineMirror.CacheInvisible: is about roles and channels in runs without failures, because a skipped op after a failed one differs (EngineStories.FailedUpdateNotRepaired); message Diffs compare content only.
- EngineFine.FineRunsWakeIff: the reads of one dependency check are one step, although a row read first may change while the others are read.
- EngineStart.ReconciledStartFitsIff: is about starts whose rows are all active, because a row left pending is outside the drain and mirror theorems; Restart is about those.
- EngineCode.OpEngine.Process: is one worker left alone; interleavings are the step machine's, whose steps are these statements.
- Bind.Bind and LiveTheorems.ReconcileLive run alone, although handlers are registered before them.
- BindTheorems.SecondPass: a reap that fails for only some entities is not covered, since it can make an ambiguous name unique.
- RemoteCalls.Wait: a sleep is a number of milliseconds and what others did meanwhile; the float conversion of Retry-After is not modelled.
- DiscordState.SidebarIsUnique: says nothing for equal positions, where the source's unstable sort does not either.
