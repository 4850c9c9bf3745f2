# A verified model of xraytool's replication, plugin host and accounting

xraytool runs VPN nodes as a cluster: a master journals user changes, slaves follow the journal,
plugins provide engines, anti-fraud and payments. This project models the parts of it where the
order of events decides what is right, in Dafny, and proves what those parts promise.

* **Cluster replication** (`Journal`, `Replication*`, `MasterStore`, `SlaveReceiver`). One master,
  any number of slaves, as a step system: every durable write is a step, so a crash may fall
  between any two. Every sequence of actions is a run, because an action that is not possible
  changes nothing. The main results say that a slave that has caught up holds the master's users,
  that a snapshot taken while users change omits nothing, for which sequences of lists of
  permitted nodes the gap check is safe, and that from every reachable state the permitted
  slaves can catch up and the journal be emptied.
* **Delivery of anti-fraud reports** (`FraudStore`, `FraudDelivery`, `FraudDuplicates`). Nothing
  reported is lost; how often one report can reach the provider is bounded by the number of
  faults, and the bound is reached; some continuation always empties an outbox.
* **Plugin host** (`Ordering`, `LoadOrder`, `PluginGraph`, `PluginHostGraph`, `PluginHost`,
  `PluginHostLifecycle`). The load order is the least one, exists exactly without a cycle and does
  not depend on the order of declaration; what a plugin can resolve during Init; what a failed
  load undoes.
* **Out-of-process plugins** (`ExternalPlugin`, `ExternalPluginSafety`, `ExternalPluginProgress`).
  All interleavings of Preflight, Init, Start, Restart, Stop and Health at their lock boundaries:
  no process is lost, a stop is final, an undisturbed restart succeeds.
* **Anti-fraud window and ban cache** (`AntifraudWindow`, `Antifraud`, `BanCache`). The pruned map
  of addresses stands for the whole history; the kernel's cache agrees with the module's store.
* **Manifest schemas** (`JsonPointer`, `JsonSchema`, `JsonSchemaKeywords`, `JsonSchemaValidator`). The
  depth-bounded evaluator against an unbounded meaning and keyword by keyword; references against
  RFC 6901.
* **Engines and billing** (`Routing`, `FanOut`, `Billing`, `Pricing`).

Step systems are functions `Next`/`Step` and `Run` over a state datatype; objects that update
their fields are classes whose methods are proved against such functions or against the property
itself. Errors carry no text. Clocks, random ids, the answers of other systems, cancelled
contexts and the choices of the scheduler are parameters or actions.

## Where the code and its comments differ

The model follows the code.

* The comment above `PruneAcknowledged` (internal/plugins/cluster_replication/store.go:414-416)
  says that a known node which is removed keeps retention in place. The code looks at permitted
  nodes only. A node taken off the list while rows are deleted, and put back later, can be
  resumed past rows it never saw when the outbox is empty. `GapCheckSafety` says for which
  sequences of lists of permitted nodes that can happen, and `ExcludedNodeDiverges` gives the
  run for all of them. A node that is added late, or removed for good, is safe.
* A schema reference is read more generously than RFC 6901 allows: an array index goes through
  `strconv.Atoi`, which also takes a sign and leading zeros (section 4 does not), and "~2" or a
  "~" at the end stands for itself (section 3 makes it an error). `ReferenceExact` says for
  which references the two agree. The code does not decode percent signs either, which section 6
  asks of references in a URI; the comparison is of what follows "#".
* The comment above `ProcessExternalPaymentStatus` (internal/plugins/billing/service.go:84-86)
  speaks of pessimistic row locking. The payment is read without a lock; what keeps two callbacks
  from crediting twice is the condition of the update. `CreditedOnce` is about callbacks whose read
  and update are apart.
* The cache of bans trims e-mails and the ban store does not. `AgreementExact` gives the condition
  under which they agree.
* A snapshot activates every row staged under its id, also those an earlier, unfinished snapshot
  of the same id left behind. `SnapshotIsolation` says exactly when the result is the users sent;
  ids are fresh in every run of the step system, and there they always are.

## Model

| member | source | states |
|---|---|---|
| MasterStore.Store.Append | internal/plugins/cluster_replication/store.go:142-153 | the new row is last, with a revision above every revision ever issued |
| MasterStore.Store.EventsAfter | internal/plugins/cluster_replication/store.go:155-172 | ascending rows of the outbox past the revision; a row left out lies beyond a full batch |
| MasterStore.Store.LatestRevision | internal/plugins/cluster_replication/store.go:174-181 | no row has a larger revision; 0 for an empty outbox |
| MasterStore.Store.OldestRevision | internal/plugins/cluster_replication/store.go:183-190 | no row has a smaller revision; 0 for an empty outbox |
| MasterStore.Store.MarkReplicaConnected | internal/plugins/cluster_replication/store.go:233-245 | a known node keeps what it acknowledged, a new one starts at 0 |
| MasterStore.Store.AcknowledgeReplica | internal/plugins/cluster_replication/store.go:247-262 | the acknowledged revision is the largest seen and never goes back |
| MasterStore.Store.PruneAcknowledged | internal/plugins/cluster_replication/store.go:417-440 | exactly the rows acknowledged by every permitted node go; none if no node is permitted |
| MasterStore.Retention | internal/plugins/cluster_replication/store.go:417-440 | the loop finds the largest revision every permitted node acknowledged, 0 if one is unknown |
| ReplicationSession.RunKeeps | internal/plugins/cluster_replication/transport.go:166-292 | the invariant of master, journal, frames in flight, acknowledgements and slaves holds after every run |
| ReplicationSession.NotYetApplied | internal/plugins/cluster_replication/service.go:324-335 | the inbox check never suppresses an event the slave has yet to see |
| ReplicationSession.SnapshotReflects | internal/plugins/cluster_replication/transport.go:388-444 | users read one by one after the capture hold every change journaled before it |
| ReplicationSession.SendBatchKeeps | internal/plugins/cluster_replication/transport.go:357-386 | a batch continues the stream at the next row, without gap or repetition |
| ReplicationTheorems.Convergence | internal/plugins/cluster_replication/transport.go:249-291 | in every run a slave that has caught up holds the master's value of every user whose newest change is journaled, unless it was resumed past deleted rows |
| ReplicationTheorems.GapCheckAtHello | internal/plugins/cluster_replication/transport.go:249-265 | at every reachable hello, a slave is resumed exactly when it is initialised and the outbox is empty or holds a row it has or the very next one, so always if a row it covered is still there; resumed while the outbox holds rows it has lost nothing; one that has lost nothing and was never resumed past a deleted row has every change or finds its row in the outbox |
| ReplicationTheorems.GapCheckRows | internal/plugins/cluster_replication/transport.go:249-259 | the check in terms of the rows, both directions |
| ReplicationTheorems.CannotPrune | internal/plugins/cluster_replication/store.go:417-436 | a configured name with surrounding blanks, or an empty list, stops all deletion |
| ReplicationTheorems.NeverConnected | internal/plugins/cluster_replication/transport.go:178-186 | a node that no list so far has permitted still has nothing: no cursor, no projection, no session |
| ReplicationTheorems.PermittedNeverBroken | internal/plugins/cluster_replication/store.go:417-440 | a node that at every deletion is permitted, or was not yet permitted by any list so far, is never resumed past deleted rows, snapshots in flight included |
| ReplicationTheorems.PermittedConverges | internal/plugins/cluster_replication/transport.go:249-291 | such a node, also one added after rows were deleted, holds exactly the master's users once caught up and with all changes journaled |
| ReplicationTheorems.AcknowledgedRises | internal/plugins/cluster_replication/store.go:233-262 | over every run the acknowledged revision recorded of a slave never falls, whatever reconnects and late or repeated acknowledgements |
| ReplicationTheorems.ReplayReflects | internal/plugins/cluster_replication/service.go:324-389 | rows applied in order to a map that reflects the journal up to a position give one that reflects it up to the end of the rows |
| ReplicationTheorems.NoOmission | internal/plugins/cluster_replication/transport.go:397-443 | the users of a snapshot followed by all rows past its captured revision give the master's users, whatever changed while they were read |
| ReplicationGap.ExcludedNodeDiverges | internal/plugins/cluster_replication/store.go:417-440 | for every node and every sequence of lists that permits it, later leaves it out and can delete rows, and later permits it again: a run along these lists that ends caught up, all changes journaled, and with other users than the master |
| ReplicationGap.GapCheckSafety | internal/plugins/cluster_replication/transport.go:249-265 | for every node and every sequence of lists: in all runs along it the node is never resumed past deleted rows, and in all of them it converges, each if and only if no list permits it, a later one leaves it out and can delete rows, and a still later one permits it again |
| ReplicationGap.GapCheckSafetyInAnyOrder | internal/plugins/cluster_replication/transport.go:249-265 | the same for every set of lists used in any order: safe if and only if no list leaves the node out and can delete rows while another permits it |
| ReplicationGap.NoGapIsSafe | internal/plugins/cluster_replication/transport.go:178-265 | in every run whose lists do not drop the node and take it back, it is never resumed past deleted rows: not before its first permission, not while permitted, not after it was removed for good |
| ReplicationProgress.BatchSends | internal/plugins/cluster_replication/transport.go:357-386 | in every reachable state a batch is the next rows past the last one sent, in order, up to 500 and up to the first resnapshot marker, which makes a snapshot due; with rows to send something is sent |
| ReplicationProgress.StreamCatchesUp | internal/plugins/cluster_replication/transport.go:268-292 | from every reachable state with a streaming session and no marker ahead, sending and taking frames alone lead to a caught-up slave |
| ReplicationProgress.CatchesUp | internal/plugins/cluster_replication/transport.go:166-292 | from every reachable state a permitted slave can catch up by its own steps, the master's data unchanged |
| ReplicationProgress.ComesToRest | internal/plugins/cluster_replication/store.go:417-440 | from every reachable state whose permitted nodes are known, some continuation of their steps and one prune lets all of them catch up and empties the outbox |
| SlaveReceiver.Slave.ActivateSnapshot | internal/plugins/cluster_replication/store.go:542-572 | the projection becomes what was staged under the id, whose rows go, all else stays |
| SlaveReceiver.Slave.Handle | internal/plugins/cluster_replication/transport.go:567-635 | each frame is refused or handled as the step system says; a refused one changes nothing, but a snapshot whose users the engine refuses is activated all the same |
| SlaveReceiver.Slave.ReceiveFrames | internal/plugins/cluster_replication/transport.go:535-642 | the loop handles the frames up to the first one refused, by the slave or by the engine |
| SlaveReceiver.StepsRefineHandle | internal/plugins/cluster_replication/service.go:324-389 | the two durable steps of the step system add up to what the loop does with a frame, and are possible exactly when it is accepted |
| SlaveReceiver.UnfinishedSnapshot | internal/plugins/cluster_replication/transport.go:583-612 | for all tables and all frames, cut off or refused anywhere: projection, applied revision and inbox are what they would be had only the events come after the last complete snapshot, and these are accepted |
| SlaveReceiver.AppliedOnce | internal/plugins/cluster_replication/service.go:324-335 | an event accepted once is accepted again without effect, whatever events and snapshots came since |
| SlaveReceiver.SnapshotIsolation | internal/plugins/cluster_replication/store.go:538-572 | a complete snapshot replaces the projection by its users, over leftovers of the same id; exactly by its users if and only if no leftover is missing from them; other ids play no part |
| FraudStore.NonEmptyStrings | internal/plugins/cluster_replication/store.go:628-642 | every non-empty value once, in order of first occurrence |
| FraudStore.Store.Enqueue | internal/plugins/cluster_replication/store.go:267-311 | all observations are queued in order, or none is; the latter exactly when one is unusable or an id is taken |
| FraudStore.Store.Pending | internal/plugins/cluster_replication/store.go:314-333 | the oldest rows, up to the limit, 100 by default |
| FraudStore.Store.Acknowledge | internal/plugins/cluster_replication/store.go:337-346 | exactly the rows named go; unknown and empty ids do nothing |
| FraudStore.Store.UnreceivedFraudEvents | internal/plugins/cluster_replication/store.go:350-379 | the events of the batch without receipt, in order; refused exactly for an unnamed node or a malformed event |
| FraudStore.UnreceivedMeans | internal/plugins/cluster_replication/store.go:364-378 | an event stays in the batch exactly when it has no receipt, and distinct ids stay distinct |
| FraudStore.AddReceiptsMeans | internal/plugins/cluster_replication/store.go:389-411 | after marking, every event has a receipt, a receipt that existed is unchanged, a new one holds its event's observation |
| FraudStore.Store.MarkReceived | internal/plugins/cluster_replication/store.go:384-412 | all receipts are written or none |
| FraudStore.Store.Ingest | internal/plugins/cluster_replication/transport.go:298-355 | what the provider is given, when the batch is acknowledged, and that every acknowledged id has a receipt; batches without ids are passed on and never acknowledged |
| FraudDelivery.RunKeeps | internal/plugins/cluster_replication/plugin.go:438-517 | the invariant of outboxes, batches, receipts and acknowledgements holds after every run |
| FraudDelivery.Delivery | internal/plugins/cluster_replication/transport.go:298-355 | a queued event is in its outbox or has a receipt with its observation; a receipt means the provider accepted it; the provider is given only what was queued |
| FraudDuplicates.DuplicatesBounded | internal/plugins/cluster_replication/store.go:381-412 | an event reaches the provider at most once more than its node had faults, and exactly once if it has a receipt and there was none |
| FraudDuplicates.DuplicatesReached | internal/plugins/cluster_replication/transport.go:334-349 | for every number of faults a run in which the bound is reached |
| FraudDuplicates.RoundDelivers | internal/plugins/cluster_replication/plugin.go:470-517 | an undisturbed round takes the oldest rows, up to 100, off the outbox, from any reachable state |
| FraudDuplicates.Drains | internal/plugins/cluster_replication/plugin.go:464-517 | every run can be continued so that the outbox is empty |
| LoadOrder.OrderedHasNoCycle | internal/pluginhost/host.go:324-326 | a graph with an admissible order has no cycle |
| LoadOrder.StuckHasCycle | internal/pluginhost/host.go:324-326 | plugins each waiting for one of them contain a cycle |
| LoadOrder.GreedyIsLeast | internal/pluginhost/host.go:307-322 | any other admissible order that starts with the mandatory plugin has a larger name where it first differs |
| LoadOrder.GreedyIsUnique | internal/pluginhost/host.go:307-322 | so there is only one |
| LoadOrder.InitialQueue | internal/pluginhost/host.go:289-305 | the queue holds exactly the plugins that wait for nobody, the mandatory one in front |
| LoadOrder.Release | internal/pluginhost/host.go:313-318 | each consumer's count falls once per service, and it joins the queue exactly when the count reaches 0 |
| LoadOrder.LoadAll | internal/pluginhost/host.go:307-322 | what is loaded respects all dependencies, greedily, until nothing is ready |
| LoadOrder.OrderPlugins | internal/pluginhost/host.go:289-328 | the least admissible order, or a cycle |
| PluginGraph.EdgeMeans | internal/pluginhost/host.go:254-283 | an edge is a required service that the other plugin publishes |
| PluginGraph.NothingBlank | internal/pluginhost/host.go:208-260 | in sound metadata every plugin name, published and required service has a character that is no space |
| PluginGraph.Reordered | internal/pluginhost/host.go:196-206 | plugins declared in another order: same verdict, same graph, same mandatory plugin |
| PluginGraph.OrderIndependent | internal/pluginhost/host.go:195-328 | the answer does not depend on the order of declaration |
| PluginHostGraph.Select | internal/pluginhost/host.go:198-203 | the enabled plugins in order |
| PluginHostGraph.Publish | internal/pluginhost/host.go:231-247 | a plugin's services enter the table unless one is blank, repeated or taken |
| PluginHostGraph.Declare | internal/pluginhost/host.go:208-248 | passes exactly when names, mandatory plugin and publications are sound; the table then lists every publisher |
| PluginHostGraph.Require | internal/pluginhost/host.go:254-283 | passes exactly when the plugin's requirements are sound; counts and lists then have its edges, once per service |
| PluginHostGraph.BuildEdges | internal/pluginhost/host.go:250-287 | the same for all plugins |
| PluginHostGraph.Graph | internal/pluginhost/host.go:195-328 | an order exists exactly for sound metadata without a cycle; it is then the least admissible one that starts with the mandatory plugin |
| PluginHost.ServicesMean | internal/pluginhost/host.go:128-159 | the registry of loaded plugins holds exactly what they publish, under its publisher |
| PluginHost.ResolvesDuringInit | internal/pluginhost/host.go:406-421 | during Init a service resolves exactly when it is declared and some enabled plugin publishes it, to that plugin's; what is not optional always does |
| PluginHost.InitCallSees | internal/pluginhost/host.go:796-863 | the same for each Init call of a load, complete or not |
| PluginHost.UnfitNeverLoads | internal/pluginhost/host.go:685-772 | an order only without unfit plugins and with "core": blank name or kind, unknown or nil built-in, failed preflight, other name, unsupported API version, external or non-mandatory "core", other mandatory plugin; and without them the configuration is not refused |
| PluginHost.LoadedDidItsPart | internal/pluginhost/host.go:796-863 | a loaded plugin was migrated and initialised, not cancelled, and offers exactly the declared services, none nil |
| PluginHost.EnteredWereMigrated | internal/pluginhost/host.go:796-830 | Init is called only on plugins that were migrated and not cancelled before |
| PluginHostLifecycle.PublishDeclared | internal/pluginhost/host.go:343-388 | exactly the declared services are published, all at once, or none |
| PluginHostLifecycle.Screen | internal/pluginhost/host.go:685-716 | passes exactly when for every enabled plugin there is something to make it with |
| PluginHostLifecycle.Probe | internal/pluginhost/host.go:718-772 | passes exactly when every enabled plugin yields an instance, preflights and has fit metadata; preflighted are all external plugins, or those up to the first plugin that fails, a nil instance included |
| PluginHostLifecycle.Prepare | internal/pluginhost/host.go:664-791 | an order exactly when the enabled plugins can be ordered, "core" first; nobody is preflighted unless there is something to make every plugin with |
| PluginHostLifecycle.Host.InitAll | internal/pluginhost/host.go:796-863 | Init calls in load order, each with the services of the plugins before it, up to the first plugin that does not do its part, and that one unless it fails before its Init |
| PluginHostLifecycle.Host.RollBack | internal/pluginhost/host.go:639-662 | stops in reverse, then aborts in reverse, and a new host with an empty registry |
| PluginHostLifecycle.Host.Load | internal/pluginhost/host.go:606-917 | succeeds exactly when all parts do; Init is called up to the first failure; a failure leaves a new host, every plugin whose Init was entered stopped once in reverse order, every preflighted one aborted; a host that is not new is left alone |
| PluginHostLifecycle.Host.StopAll | internal/pluginhost/host.go:999-1010 | one Stop per plugin, in reverse |
| PluginHostLifecycle.Host.Shutdown | internal/pluginhost/host.go:948-997 | a running host stops all plugins in reverse load order, "core" last; other hosts are left alone |
| ExternalPluginSafety.RunKeeps | internal/pluginhost/external.go:576-689 | the invariant of locks, flags, processes and operations holds after every interleaving |
| ExternalPluginSafety.Lifecycle | internal/pluginhost/external.go:576-689 | at most one restart in flight, exactly while the flag is up; the counter stays within its limit; every process is the client, being killed, or with an operation that has yet to kill or publish it |
| ExternalPluginSafety.Quiescent | internal/pluginhost/external.go:459-506 | with all operations finished no process runs besides the client, and none after a stop |
| ExternalPluginSafety.StopIsFinal | internal/pluginhost/external.go:459-506 | once a Stop has the lock and no Preflight waits: in all runs without a new Preflight, restarts asleep in their backoff included, `stopping` stays up, no process is launched, the Stop ends without a client (and, aborting, uninitialised), and in the end no process runs |
| ExternalPluginSafety.StaysHalted | internal/pluginhost/external.go:655-662 | with `stopping` up and nothing past its last look at it, no run without Preflight launches or publishes a process |
| ExternalPluginSafety.StartAfterInit | internal/pluginhost/external.go:422-438 | in every interleaving Start is called only on the process in service of an initialised plugin that is not stopping |
| ExternalPluginSafety.FailedStart | internal/pluginhost/external.go:439-443 | a failed Start schedules a restart exactly when its process is still the client and no stop or restart is under way |
| ExternalPluginProgress.RestartReplaces | internal/pluginhost/external.go:576-689 | an allowed restart that is not disturbed or let down puts a new process in service, kills the one before, counts one restart, lowers `restarting` and starts an initialised plugin |
| ExternalPluginProgress.PreflightServes | internal/pluginhost/external.go:108-203 | an undisturbed Preflight ends with a client, the one there was or a new process |
| ExternalPluginProgress.HealthForgives | internal/pluginhost/external.go:563-570 | in every reachable state outside stop and restart, a health check makes the next restart allowed |
| ExternalPluginSafety.StaleStart | internal/pluginhost/external.go:758-762 | once a process was taken out of service, no later failure of its Start schedules a restart |
| ExternalPluginSafety.OwnerLetsGo | internal/pluginhost/external.go:576-660 | the owner of the operation lock is never blocked and lets go within seven steps |
| ExternalPluginSafety.HandedOn | internal/pluginhost/external.go:124-201 | in every step a new process is carried by its operation, and one that was answered for still is |
| AntifraudWindow.ObservedAt | internal/plugins/antifraud/analyzer.go:123-130 | an observation is never later than the clock |
| AntifraudWindow.AcceptRefines | internal/plugins/antifraud/state.go:108-131 | recording and pruning keep the map equal to the window of the history, for late observations too |
| AntifraudWindow.CleanRefines | internal/plugins/antifraud/state.go:136-152 | so does a clean-up |
| AntifraudWindow.WindowIsHistory | internal/plugins/antifraud/state.go:108-152 | in every run the entries are exactly the hashes whose latest accepted observation is within ttl of the high-water mark |
| AntifraudWindow.BanIsJustified | internal/plugins/antifraud/analyzer.go:117-182 | a ban means more distinct hashes than the threshold within one window |
| AntifraudWindow.ExcessIsBanned | internal/plugins/antifraud/analyzer.go:149-181 | an event that counts bans exactly when bans are neither off nor left to the master and the history shows more hashes in the window than the limit times the devices |
| AntifraudWindow.NobodyIsBanned | internal/plugins/antifraud/analyzer.go:153-180 | in dry-run mode, and where bans are left to the master, no run bans anybody |
| AntifraudWindow.BanThreshold | internal/plugins/antifraud/analyzer.go:149-151 | every ban is that of a handled event of a user not banned, with the limit times the devices, one at least |
| AntifraudWindow.Counted | internal/plugins/antifraud/analyzer.go:117-147 | an event counts exactly when its user is not banned, it has an address and its time is within ttl of now, an unset or future time being now; other events leave no trace |
| Antifraud.State.AddHashedEvent | internal/plugins/antifraud/state.go:98-131 | a newer time wins, what is older than ttl before the event goes, other users stay; the count is of the entries left |
| Antifraud.State.Clean | internal/plugins/antifraud/state.go:136-152 | what is older than ttl goes, and users without entries |
| Antifraud.State.ActiveIPCount | internal/plugins/antifraud/state.go:156-164 | the number of entries, 0 for an unknown user |
| Antifraud.Analyzer.HandleEvent | internal/plugins/antifraud/analyzer.go:117-182 | one step of the step system, and a ban exactly when that decides one; no ban for a banned user, in dry-run mode or where the master decides, and otherwise only above the limit times the devices |
| BanCache.LocalBanCache.PushBanUpdate | internal/pluginhost/bancache.go:33-48 | the trimmed e-mail is banned until then, or unbanned if that is over |
| BanCache.LocalBanCache.PushUnban | internal/pluginhost/bancache.go:51-62 | only the trimmed e-mail goes |
| BanCache.LocalBanCache.IsBanned | internal/pluginhost/bancache.go:66-92 | the answer, and that the eviction changes no answer now or later |
| BanCache.BanStore.SetBan | internal/plugins/antifraud/module.go:52-60 | stored and pushed |
| BanCache.BanStore.ClearBan | internal/plugins/antifraud/module.go:62-70 | removed and pushed |
| BanCache.BanStore.SetSink | internal/plugins/antifraud/module.go:74-88 | every ban is pushed once, in some order |
| BanCache.Agreement | internal/plugins/antifraud/module.go:45-88 | with plain e-mails and the sink installed, cache and store answer alike now and at any later time, reads in flight included |
| BanCache.AgreementExact | internal/pluginhost/bancache.go:33-62 | that holds in every run if and only if every e-mail banned or unbanned is trimmed already or blank |
| BanCache.UntrimmedDisagrees | internal/pluginhost/bancache.go:33-48 | for every other e-mail a run in which they disagree |
| BanCache.EvictionIsSafe | internal/pluginhost/bancache.go:84-91 | the second phase of a read removes no ban in force, whatever came between |
| JsonPointer.TokenRoundTrip | internal/pluginmanifest/schema.go:742 | decoding a token undoes the encoding of section 3 of RFC 6901 |
| JsonPointer.UnescapeDecodes | internal/pluginmanifest/schema.go:742 | on well-formed tokens the two replacements decode as sections 3 and 4 of RFC 6901 say |
| JsonPointer.IndexExact | internal/pluginmanifest/schema.go:750-753 | code and standard read an array index alike exactly when it has no sign and no leading zero |
| JsonPointer.SignedIndex | internal/pluginmanifest/schema.go:750-753 | two tokens on which they differ |
| JsonPointer.ResolveLocalReference | internal/pluginmanifest/schema.go:733-761 | the loop finds what the path of decoded tokens leads to, or nothing |
| JsonPointer.ReferenceRoundTrip | internal/pluginmanifest/schema.go:733-761 | the reference written for a path leads where the path leads, for every path |
| JsonPointer.FollowsStandard | internal/pluginmanifest/schema.go:743-758 | on paths of names without such indices the walk is that of section 4 of RFC 6901 |
| JsonPointer.ReferenceExact | internal/pluginmanifest/schema.go:733-761 | code and standard resolve a reference alike in every document if and only if its escapes are complete and no token is an index with sign or leading zero |
| JsonPointer.LooseDiffers | internal/pluginmanifest/schema.go:733-761 | for every other reference a document in which they differ |
| JsonSchema.MoreFuel | internal/pluginmanifest/schema.go:313-316 | without `not` and `oneOf`, what is accepted within a bound is accepted within every larger one |
| JsonSchema.AcceptedIsMeant | internal/pluginmanifest/schema.go:313-443 | and by the unbounded meaning |
| JsonSchema.BoundedIsSound | internal/pluginmanifest/schema.go:313-443 | the unbounded meaning is acceptance within some bound, references in a circle included; the bound of 64 accepts nothing else |
| JsonSchema.DocumentIsSound | internal/pluginmanifest/schema.go:313-443 | the same for a whole document without a key `not` or `oneOf`, whatever its references |
| JsonSchemaKeywords.TypeMeans | internal/pluginmanifest/schema.go:647-671 | each type name accepts the values of its kind, "integer" exactly the whole numbers, other names nothing |
| JsonSchemaKeywords.TypesMean | internal/pluginmanifest/schema.go:620-645 | a list of types accepts exactly when one fits and all before it are type names |
| JsonSchemaKeywords.BoundMeans | internal/pluginmanifest/schema.go:584-610 | the four bounds on numbers, inclusive and exclusive; other values are not concerned |
| JsonSchemaKeywords.LengthMeans | internal/pluginmanifest/schema.go:549-567 | bounds on the length of strings |
| JsonSchemaKeywords.ItemCountMeans | internal/pluginmanifest/schema.go:520-537 | bounds on the number of items |
| JsonSchemaKeywords.PropertyCountMeans | internal/pluginmanifest/schema.go:445-463 | bounds on the number of properties |
| JsonSchemaKeywords.BadLimit | internal/pluginmanifest/schema.go:725-731 | a limit that is negative, fractional or no number is met by no string |
| JsonSchemaKeywords.PatternMeans | internal/pluginmanifest/schema.go:568-582 | a string must match, and an invalid pattern is matched by none |
| JsonSchemaKeywords.ListedMeans | internal/pluginmanifest/schema.go:396-411 | the value is one of those listed, numbers compared by value |
| JsonSchemaKeywords.ConstMeans | internal/pluginmanifest/schema.go:393-395 | the value is the one given, numbers compared by value |
| JsonSchemaKeywords.RequiredMeans | internal/pluginmanifest/schema.go:473-487 | an object must have every property named |
| JsonSchemaKeywords.PropertiesMean | internal/pluginmanifest/schema.go:465-518 | each property against its own schema, every other one against the additional one, a boolean one included |
| JsonSchemaKeywords.ItemsMean | internal/pluginmanifest/schema.go:538-546 | every item against the schema |
| JsonSchemaKeywords.AllOfMeans | internal/pluginmanifest/schema.go:343-353 | every branch accepts, and there is one |
| JsonSchemaKeywords.AnyOfMeans | internal/pluginmanifest/schema.go:354-371 | some branch accepts |
| JsonSchemaKeywords.NotMeans | internal/pluginmanifest/schema.go:387-391 | the schema does not accept |
| JsonSchemaKeywords.MatchesMeans | internal/pluginmanifest/schema.go:377-382 | the count is the number of places whose branch accepts |
| JsonSchemaKeywords.OneOfMeans | internal/pluginmanifest/schema.go:372-386 | one branch accepts and no other one does |
| JsonSchemaKeywords.ShallowIsExact | internal/pluginmanifest/schema.go:313-316 | a schema without references, `not` and `oneOf` included, is judged alike by all bounds of at least twice its height |
| JsonSchemaKeywords.BoundIsNotNoticed | internal/pluginmanifest/schema.go:246-259 | so schemas nested at most 32 deep never notice the bound of the code |
| JsonSchemaValidator.CheckEnum | internal/pluginmanifest/schema.go:396-411 | some listed value is equal |
| JsonSchemaValidator.CheckRequired | internal/pluginmanifest/schema.go:473-487 | every required name is well formed and present |
| JsonSchemaValidator.CountMatches | internal/pluginmanifest/schema.go:372-386 | how many branches accept |
| JsonSchemaValidator.ValidateObjectKeywords | internal/pluginmanifest/schema.go:445-518 | sizes, required names and every property against its schema or the additional one |
| JsonSchemaValidator.ValidateArrayKeywords | internal/pluginmanifest/schema.go:520-547 | sizes and every item against the item schema |
| JsonSchemaValidator.ValidateCombinators | internal/pluginmanifest/schema.go:343-392 | all of allOf, some of anyOf, exactly one of oneOf, and not the forbidden schema |
| JsonSchemaValidator.AcceptsByKeyword | internal/pluginmanifest/schema.go:343-442 | acceptance as a set of goals is acceptance keyword by keyword |
| JsonSchemaValidator.ValidateSchemaValue | internal/pluginmanifest/schema.go:313-443 | terminates on every schema and computes acceptance at its depth |
| JsonSchemaValidator.ValidateDocument | internal/pluginmanifest/schema.go:246-259 | a value against a document: acceptance with 65 levels |
| Routing.NormalizeEngineIDs | internal/pluginhost/routing.go:155-170 | every normalised identifier once, in order of first occurrence, blanks dropped |
| Routing.NewConfiguredEngineRouter | internal/pluginhost/routing.go:53-83 | a router exactly for a known mode and providers with usable, different identifiers |
| Routing.EnginesForChecked | internal/pluginhost/routing.go:103-129 | the providers wanted, in order; an error exactly when one asked for is not there |
| Routing.WhoGetsTheUser | internal/pluginhost/routing.go:103-129 | the engines of a subscription win, then those of the plan unless the mode is broadcast, and without either every engine gets the user |
| Routing.SelectProviders | internal/pluginhost/routing.go:131-153 | the same for an explicit list |
| Routing.RoutedEngines | internal/pluginhost/multiengine.go:209-262 | the positions of exactly the engines the user goes to, ascending |
| Routing.UserBatches | internal/pluginhost/multiengine.go:691-708 | batch i is the users routed to engine i, in order; one user that cannot be routed fails the call |
| FanOut.Collect | internal/pluginhost/multiengine.go:466-470 | every reply is in the slot of its engine |
| FanOut.ArrivalOrder | internal/pluginhost/multiengine.go:466-470 | the answers in engine order are the same for every order of arrival |
| FanOut.FailuresMean | internal/pluginhost/multiengine.go:474-480 | the engines reported as failed are exactly those whose reply is an error, in engine order |
| FanOut.QueryStats | internal/pluginhost/multiengine.go:448-496 | one entry per e-mail, sorted, with the sums over the engines that answered, and the engines that failed |
| FanOut.StatsOrder | internal/pluginhost/multiengine.go:448-496 | the same answer and the same failures for every order of arrival |
| FanOut.TrafficIsConserved | internal/pluginhost/multiengine.go:481-496 | the merged traffic adds up to what the engines that answered reported, in both directions |
| FanOut.ListUsers | internal/pluginhost/multiengine.go:522-566 | each e-mail once, sorted, with the account of the first engine reporting it, and the engines that failed |
| FanOut.FirstIs | internal/pluginhost/multiengine.go:545-560 | the account kept for an e-mail is the first one reported |
| FanOut.UsersOrder | internal/pluginhost/multiengine.go:522-566 | the same list and the same failures for every order of arrival |
| Billing.Ledger.UpdateStatus | internal/database/repo_gorm.go:773-782 | the row changes exactly when its status is expected, or, with none expected, unless it is completed already |
| Billing.Ledger.UpdateStatusIfNotCompleted | internal/database/repo_gorm.go:784-787 | the row changes exactly when it is not completed |
| Billing.Ledger.AdjustBalance | internal/database/repo_gorm.go:303-306 | the amount is added, never below zero |
| Billing.Ledger.Lookup | internal/plugins/billing/service.go:98-107 | an error exactly for a missing payment; nothing to do for one completed or in that status already |
| Billing.Ledger.Finish | internal/plugins/billing/service.go:109-131 | whatever happened since the lookup, the status changes and the amount is credited only if the payment is not completed by now |
| Billing.Ledger.ProcessExternalPaymentStatus | internal/plugins/billing/service.go:87-148 | the two halves without anything in between; an error exactly for a missing payment; reports completion exactly when the payment was not completed before |
| Billing.Ledger.UpdatePaymentStatus | internal/plugins/billing/service.go:549-600 | the change and its credit exactly when the row is affected |
| Billing.CreditedOnce | internal/plugins/billing/service.go:87-148 | a balance is its start plus the amounts of the top-ups completed since, each once, over every interleaving of callbacks, read and update apart, with updates that keep completed payments completed; payments for a plan or from the balance add nothing |
| Billing.OnlyTopUps | internal/plugins/billing/service.go:119-127 | whatever becomes of a payment for a plan or from the balance, no balance changes |
| Billing.NothingNew | internal/plugins/billing/service.go:88-107 | a callback for a completed payment, or with the status it has, leaves nothing to write; any other one goes on with the payment as read |
| Billing.SecondWriteIsRefused | internal/database/repo_gorm.go:784-787 | of two callbacks that both read the payment open, the second to write changes nothing |
| Billing.UnsafeCreditsTwice | internal/database/repo_gorm.go:773-782 | with any other kind of update a run in which one payment is credited twice |
| Billing.OnceExact | internal/plugins/billing/service.go:549-600 | credit exactly once holds in every interleaving if and only if the updates are of the former kind |
| Pricing.CalculatePrice | internal/plugins/billing/service.go:388-466 | the smaller of the two discounted prices; a promo id exactly when the code is eligible and its price no worse; an error exactly for an unknown plan |
| Pricing.PriceMeans | internal/plugins/billing/service.go:424-451 | between 0 and the undiscounted amount, the smaller of the two prices, and never lower for more devices despite truncation |
| Pricing.UndiscountedGrows | internal/plugins/billing/service.go:402-424 | the undiscounted amount never falls when devices are added |
| Pricing.DiscountedExactly | internal/plugins/billing/service.go:426-429 | the discount is the percentage rounded down to a whole unit |
| Pricing.ExtraDevicesMean | internal/plugins/billing/service.go:402-405 | devices past the third cost 40 a month each |
| Pricing.UpgradeMeans | internal/plugins/billing/service.go:407-422 | devices added to a subscription with more than seven days left cost 40 for every month begun |
| Pricing.UnusableCode | internal/plugins/billing/service.go:431-445 | an inactive, expired or foreign code changes nothing |
| Pricing.UsableCode | internal/plugins/billing/service.go:431-453 | any other code gives the smaller of the two discounted prices |

## Left out

- Artifacts in snapshots and events, digests of desired users and changes that bypass the journal: outside the claims about users.
- Frames are typed messages: TLS, client certificates, gRPC, JSON and base64 encoding, checksums and the master's error frames are not modelled.
- Engine effects of replication (adding and removing users at run time): the model is of the durable projection.
- The fraud outbox is in queue order: ordering by creation time when the clock is set back, and the default for a missing observation time, are not modelled. Event ids never repeat, as random UUIDs.
- FraudDuplicates.DuplicatesBounded: counts batches of one node that overlap, as after a reconnect, as faults as well.
- ExternalPlugin: contexts, timers and calls into the process are choices of the scheduler; logs, service proxies and the wait for restarted Start calls are not modelled.
- PluginHostLifecycle.Host.Load: a plugin's behaviour (migrations, Init, services provided) is part of the configuration; the health monitors and the ban sink set before Start are not modelled. Start calls are recorded in load order although they run concurrently.
- Antifraud.Analyzer.HandleEvent: the report to the master, the device cache and the persistence of bans are the caller's; a ban whose database write fails is not modelled.
- BanCache.Agreement: a sink that is removed and installed again is not modelled, nor concurrent pushes.
- JsonSchema.DocumentIsSound: says nothing of schemas with `not` or `oneOf`, where a depth error counts as a non-match; of those, `ShallowIsExact` covers the ones without references.
- Numbers of a schema are exact: floating-point rounding and the size limit of integers are not modelled; regular expressions are a parameter; error texts and paths are not modelled.
- Traffic counters, amounts and revisions are unbounded integers.
- Billing.CreditedOnce: is stated for balances and amounts that are not negative, because a balance never goes below zero; the update and its credit are one step, as in their transaction; the extension of subscriptions is not modelled.
- Pricing.PriceMeans: is stated for prices and months that are not negative, a global discount up to 100 and a promo discount of 0 to 100.
- SyncUsers, ReconcileUsers and the single-user fan-outs of the engines: sums and error lists over the batches modelled here.
- Command line, HTTP handlers, configuration files, log tailing, migrations of old data and the other plugins.
