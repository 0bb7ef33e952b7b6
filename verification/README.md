# AT Term desktop: verified models

AT Term's desktop half keeps several small protocols and merge rules that other
code relies on without being able to see inside them. This project models them
in Dafny and proves what they promise. Each file is one module or a pair of them.

| files | what they model |
|---|---|
| `AntiEntropy`, `ConfigReceiver`, `ConfigChannel`, `Exchange`, `ExchangeRuns`, `Inventories` | The stop-and-wait exchange that brings a peer's signed tokens across: cutting a plan into batches, reassembling it, persisting it item by item with failures part-way, acknowledging cursors, and all of it over a network that loses, repeats and reorders, with one inventory or several. |
| `RouteLease`, `HostAttempt`, `LeaseRuns`, `LeaseStarts` | Attempts to serve one terminal pane racing through `start`, lease claims, `close` and late releases; the steps are the critical sections of the mutexes. |
| `PrefsSync` | The one-place coalescing queue of preference sync, its non-atomic enqueuers and its consumer. |
| `Entries`, `Profiles`, `ConfigImport`, `ImportLaws`, `ImportApp`, `ImportRules` | Configuration export, preview and import, and the merge of session profiles with its environment rule. |
| `Positions`, `Records`, `Codec`, `Projection` | Lists as positioned records: writing, ordering, sealing again, and projecting them back with or without the vault key. |
| `Memberships`, `Vectors` | The canonical membership of each peer, the stable version vector, and the pending count of the sync status. |
| `LogRotator`, `PreviewConnections`, `Transcript`, `ResumeArgs` | The rotating log, the connection table of a service preview, the transcript tailer, and the resume command. |

Where the source changes state in place, a class or a method with its loop has
the same steps and is proved equal to a function; what the source promises is
then proved about that function. Runs of a protocol are sequences of states or
of events, and the main results hold in every reachable state of every run.

## What the proofs found

The following hold of the code as it is. Each has its exact condition and, where
something goes wrong, a concrete input or run.

- The exchange alone does not keep its two ends in step. They stay in step
  through a run exactly when no late first batch is delivered in it: a
  repetition of the first of three or more batches that reaches a receiver which
  has completed while the sender still waits, and makes it start over
  (`ExchangeRuns.InStepExactly`, `ExchangeRuns.FallsOutOfStepOnce`). Nothing
  durable is lost. Deliveries in the order of sending rule this out
  (`ExchangeRuns.InOrderStaysInStep`), and the transport delivers in order: the
  data channel is ordered and reliable, and a record whose counter is not the
  next one is refused (`internal/peertransport/record.go:169-172`). So the one
  way to it is `RetryOutstanding`, which copies the batch under the lock and
  sends it after releasing it (`desktop/peer_config_channel.go:123-131`), while
  acknowledgements move the sender on in between. Only tests call it today.
- A second inventory during an exchange replaces the sender's plan
  (`desktop/peer_quicktunnel_host.go:1149-1161`), and an acknowledgement still on
  its way may then pass for one of the new plan: exactly when it is for a batch
  that ends at the same cursor and is terminal or not alike
  (`Inventories.StaleAckPassesExactly`). A terminal one passes exactly when the new
  plan fits in one batch and has as many items as the old one
  (`Inventories.TerminalAckPassesExactly`); the sender then stops although nothing
  of the new plan may be held (`Inventories.StopsEarly`,
  `Inventories.StopsEarlyOnce`). This needs no reordering: the inventory only has to
  be sent before the acknowledgement. What the sender records stays true all the
  same (`Inventories.FrontierIsHeld`).
- A terminal acknowledgement means that the projection ran only if the plan
  carried a snapshot or an operation (`Exchange.NoConfigNoProjection`): an
  exchange of memberships can complete with operations left unprojected
  (`ExchangeRuns.StaysUnprojectedOnce`).
- A start whose claim is refused lowers the flag that keeps starts of its attempt
  apart twice: at once, and again in its deferred end. A start that began in
  between loses its flag, and another one may run beside it
  (`LeaseStarts.StartsOverlapOnce`). Without a refused claim starts never overlap
  (`LeaseStarts.StartsDoNotOverlap`), and in no case do two of them attach
  (`LeaseRuns.LeasesNameHolders`).
- An edit coalesced with a pull that panics is not pushed by that request; its
  key stays dirty. It ends unpushed exactly when no push starts after its mark
  (`PrefsSyncRuns.UnpushedExactly`, `PrefsSyncRuns.EditLostToPanickingPull`), and
  its own request pushes it exactly when no pull of that request panics
  (`PrefsSyncRuns.ServedExactly`).
- A preview can promise to replace a profile that applying leaves equal
  (`ImportLaws.PreviewMeansApply`, `ImportLaws.ReplacedButEqualOnce`). The comment
  at `desktop/config_import.go:439-448` says that the preview reports what
  applying does; the code differs in exactly this case.
- A profile that was pulled or set directly keeps white space around its ID, and a
  later import of the trimmed ID is refused after the hosts have been written
  (`ImportLaws.RefusedExactly`, `ImportLaws.PaddedPullRefuses`,
  `ImportLaws.PaddedSetRefuses`).
- Importing may reorder local profiles: the file's come first
  (`ImportLaws.MergedIs`). Hosts and keys keep their places.
- A profile opted into sharing that has no environment on machine A takes machine
  B's over a round trip (`Profiles.RoundTripIdentityExactly`,
  `Profiles.RoundTripDiffersOnce`), and a pull can turn a private environment into
  a shared one (`Profiles.PullPromotesExactly`, `Profiles.PullPromotesOnce`).
- A device drops its own profiles, hosts and keys whose records it can no longer
  open, as soon as it can open any other record of the section
  (`Projection.HiddenProfileVanishes`, `Projection.LostEpochDrops`,
  `Projection.LostEpochDropsOnce`). It keeps one key of each class and recovers
  only those of the rotations it was a recipient of
  (`desktop/peer_config_replica.go:98-138`), so a device that joined later loses
  the first one at the next rotation. With a hidden configuration record the
  default is lost too, and with a current vault key a hidden environment record
  clears that environment (`Projection.LaterEpochClears`,
  `Projection.LaterEpochClearsOnce`). The comment at
  `desktop/peer_config_projection.go:159-160` takes the absence for a deletion.
  `Projection.OwnProfilesIdentityExactly` and `Projection.OwnSSHIdentityExactly` say
  exactly when nothing is lost.
- Profile configuration records with different IDs pass validation, and the last
  one read decides the default. Sealed and projected profiles are the same for
  every order of readable records exactly when all of these select alike
  (`Codec.EncodeProfilesOrderExactly`, `Projection.ProjectProfilesOrderExactly`).
  The projection reads them from a replica, which lists each collection by record
  ID, so there the order cannot vary (`Projection.SameWinnersProject`); the
  encoder takes the records in the order its caller gives them.
- With a session ID that has a leading dash the resume command need not be stable.
  It grows by one token at every restart exactly when the ID is no flag to resume,
  to continue or to take a value (`ResumeArgs.GrowsForeverExactly`); an ID that
  takes a value changes the command at most once (`ResumeArgs.ValueFlagSettles`),
  and the ID `-r` can shorten it. All of these occur (`ResumeArgs.RestartsOnce`).

## Assumptions

- Verified tokens are values; a grant's token embeds its issuer's, which is
  therefore shorter. Sealing and opening are inverse. The order and content of
  what a store holds change only as the modelled calls say.
- A nil map or list and an empty one are the same value. Numbers are unbounded
  except where the source relies on the width: positions (64 bits), connection
  IDs (32 bits) and the byte budget (64 bits) are modelled with theirs.
- Reads and writes of the configuration are atomic. The transcript file only
  grows. No I/O fails in the log rotation.

## Model

| member | source | states |
|---|---|---|
| AntiEntropy.AcceptedCursor | desktop/peer_config_sync.go:258-268 | The cursor an accepted batch acknowledges is where its chunks end |
| AntiEntropy.AssembledPlansAreOrdered | internal/configsync/anti_entropy.go:142-226 | Every plan has non-empty tokens in kind order, at most one snapshot among them |
| AntiEntropy.KindsInOrder | internal/configsync/anti_entropy.go:142-226 | Memberships, the snapshot, operations, revocations, rotations |
| AntiEntropy.AfterStaysValid | internal/configsync/anti_entropy.go:228-275 | Contiguous chunks lead from a valid cursor to a valid one, strictly further if there are any |
| AntiEntropy.LargestChunk | internal/configsync/anti_entropy.go:277-306 | The chunk found fits, and one byte more does not |
| AntiEntropy.Next | internal/configsync/anti_entropy.go:228-275 | The next batch continues the plan within the size limit and is terminal exactly at its end; it fails only for a cursor outside the plan or when not one byte fits |
| AntiEntropy.Assembler.constructor | internal/configsync/anti_entropy.go:342-350 | A new assembler expects the origin |
| AntiEntropy.Assembler.Add | internal/configsync/anti_entropy.go:352-428 | An exact replay yields nothing, a contiguous batch its completed tokens, and anything else an error that leaves the state alone |
| AntiEntropy.ScanFailurePersists | internal/configsync/anti_entropy.go:352-428 | A batch with one bad chunk fails as a whole |
| AntiEntropy.ScanChunksTracks | internal/configsync/anti_entropy.go:352-428 | Chunks cut from a plan reassemble exactly the tokens they cover, partial tokens included |
| AntiEntropy.AssemblerAccepts | internal/configsync/anti_entropy.go:352-428 | A batch the chunker cuts at the assembler's cursor is accepted and yields exactly the plan's tokens up to its end |
| AntiEntropy.ReplayAccepted | internal/configsync/anti_entropy.go:361-363 | A batch that was just accepted, given again, yields nothing, is no error, and changes nothing |
| AntiEntropy.Refusals | internal/configsync/anti_entropy.go:352-428 | Which batches are refused with which error; a refusal changes nothing |
| AntiEntropy.AcceptedContinues | internal/configsync/anti_entropy.go:352-428 | Whoever cut it, an accepted batch continues the stream of its Space at the expected cursor under the same vector; its bytes are those of the tokens it completes and of the one it leaves begun; and each chunk carries the digest, kind and size of its token |
| AntiEntropy.FedIsPlan | internal/configsync/anti_entropy.go:352-428 | Whatever an assembler is fed, its tokens are not empty, in kind order, with at most one snapshot |
| ConfigReceiver.DurableOwners.Store | desktop/peer_config_sync.go:131-179 | A store call adds its items, adds them and reports failure, or does neither |
| ConfigReceiver.DurableOwners.Project | desktop/peer_config_projection.go:15-44 | Projection covers everything held at that moment, or fails without effect |
| ConfigReceiver.SyncReceiver.constructor | desktop/peer_config_sync.go:41-80 | A new receiver has nothing pending |
| ConfigReceiver.SyncReceiver.PersistPending | desktop/peer_config_sync.go:131-179 | Persisting equals the pass function: head by head, rotations held back, stopping at the first failure |
| ConfigReceiver.SyncReceiver.CloseBatch | desktop/peer_config_sync.go:100-113 | A terminal batch applies the held-back rotations, then projects once if configuration came, stopping at the first failure |
| ConfigReceiver.SyncReceiver.Add | desktop/peer_config_sync.go:82-129 | One batch, in every case of assembly, persistence, rotation, projection and replica failure, completed receivers included |
| ConfigReceiver.PersistKeepsOrder | desktop/peer_config_sync.go:131-179 | Whatever fails, a pass disposes of a prefix of the queue in order and drops nothing; what it may store beyond that is the head it stopped at |
| ConfigReceiver.PersistHeadDisposes | desktop/peer_config_sync.go:131-179 | Each persisting step disposes of at least one item, in order |
| ConfigReceiver.ConfigIs | desktop/peer_config_sync.go:131-179 | What makes a plan need a projection: a snapshot or an operation |
| ConfigReceiver.CompletedReplays | desktop/peer_config_sync.go:86-92 | A terminal batch that was acknowledged, given again, gets the same acknowledgement and changes nothing |
| ConfigReceiver.FailedReplays | desktop/peer_config_sync.go:82-129 | A batch whose storing failed, given again without failures, stores what is left and is acknowledged |
| ConfigChannel.ConfigChannel.constructor | desktop/peer_config_channel.go:47-66 | A new channel has nothing outstanding and a fresh receiver |
| ConfigChannel.ConfigChannel.HandleInventory | desktop/peer_config_channel.go:139-158 | The first batch of a fresh plan becomes outstanding; a failure changes nothing |
| ConfigChannel.ConfigChannel.HandleBatch | desktop/peer_config_channel.go:160-193 | A batch is answered, or a completed receiver is replaced for a new exchange from the origin |
| ConfigChannel.ConfigChannel.HandleAck | desktop/peer_config_channel.go:195-225 | Only the matching acknowledgement moves the sender: to the next batch, or to the end, recording the frontier |
| Exchange.ChainGrows | desktop/peer_config_channel.go:195-225 | The sender's cursors strictly grow from batch to batch |
| Exchange.StaleAcksNeverMatch | desktop/peer_config_channel.go:195-203 | No acknowledgement of an earlier batch passes for one of a later batch |
| Exchange.CloseSettles | desktop/peer_config_sync.go:100-113 | A closing batch that succeeds leaves every item held and, if the plan carries configuration, projected |
| Exchange.AddFinishes | desktop/peer_config_sync.go:82-129 | Under any failures, adding a batch keeps the queue the gap between held and assembled, and acknowledges only what is held |
| Exchange.StepKeeps | desktop/peer_config_channel.go:160-225 | Every step of one exchange, of every kind, keeps its invariant |
| Exchange.RunKeeps | desktop/peer_config_channel.go:160-225 | Every reachable state of one exchange satisfies it |
| Exchange.ExchangeIsSafe | desktop/peer_config_channel.go:160-225 | In every run: the receiver's queue is the gap between two prefixes of the plan, an acknowledgement vouches for durable items only, a terminal one for the whole plan, the sender stops only then, and records no more than is held |
| Exchange.FallsOutOfStepExactly | desktop/peer_config_channel.go:160-173 | One step from a state in step: the receiver's cursor stays at one end of the outstanding batch, except in exactly one case, given by the guard of the restart |
| ExchangeRuns.InStepExactly | desktop/peer_config_channel.go:160-225 | A whole run is in step in every state exactly when no late first batch is delivered in it |
| ExchangeRuns.RunHasTrace | desktop/peer_config_channel.go:160-225 | Every run has such a list of events, so this covers all of them |
| ExchangeRuns.InOrderStaysInStep | desktop/peer_config_channel.go:160-225 | If batches are delivered in the order of sending, with any loss and repetition of the outstanding one, the receiver's cursor is always at one end of the outstanding batch |
| ExchangeRuns.LateFirstHappens | desktop/peer_config_channel.go:160-173 | Every plan cut into three batches or more has a run that falls out of step |
| ExchangeRuns.FallsOutOfStepOnce | desktop/peer_config_channel.go:160-173 | Such a run for a concrete plan |
| ExchangeRuns.Completes | desktop/peer_config_channel.go:160-225 | Any plan, cut in any way, is sent to its end when nothing fails, and its terminal acknowledgement is on its way |
| ExchangeRuns.OutstandingAcknowledgedExactly | desktop/peer_config_channel.go:160-203 | In every reachable state, delivering the outstanding batch without failures, for the first time or again, makes the acknowledgement that releases the sender exactly if the ends are in step |
| Inventories.HoldsOnlyPlan | desktop/peer_config_sync.go:82-179 | In every run, whatever fails, everything the receiving side gains through the exchange is an item of the plan |
| Inventories.FrontierIsHeld | desktop/peer_config_channel.go:139-225 | In every run with any number of inventories: an acknowledgement vouches for no more than is held, the sender records no more, and nothing held is given up |
| Inventories.StaleAckPassesExactly | desktop/peer_config_channel.go:195-203 | An acknowledgement passes under a later plan exactly when its batch ends where the new plan's first batch does, terminal or not alike |
| Inventories.TerminalAckPassesExactly | desktop/peer_config_channel.go:139-203 | A terminal one exactly when the new plan fits in one batch and has as many items as the old one |
| Inventories.StopsEarly | desktop/peer_config_channel.go:139-210 | Any two such plans have a run in which the sender stops while the new plan is not held |
| Inventories.StopsEarlyOnce | desktop/peer_config_channel.go:139-210 | Such a run for any two different tokens |
| Exchange.NoConfigNoProjection | desktop/peer_config_sync.go:107-112 | A plan without snapshots and operations never projects |
| ExchangeRuns.CompletesUnprojected | desktop/peer_config_sync.go:107-112 | Every such plan has a run that completes and projects nothing |
| ExchangeRuns.StaysUnprojectedOnce | desktop/peer_config_sync.go:107-112 | A concrete exchange that completes with a held operation unprojected |
| RouteLease.RouteLeases.Claim | desktop/peer_route_lease.go:26-47 | Compare and swap against the expected holder, who may also have released already |
| RouteLease.RouteLeases.Release | desktop/peer_route_lease.go:49-58 | Removes the entry only if the owner still holds it |
| HostAttempt.HostAttempt.BeginStart | desktop/peer_quicktunnel_host.go:579-586 | Start begins only on an open attempt that is neither starting nor streaming |
| HostAttempt.HostAttempt.Attach | desktop/peer_quicktunnel_host.go:639-685 | Takes channel, subscription and lease together, or undoes all of it |
| HostAttempt.HostAttempt.Close | desktop/peer_quicktunnel_host.go:1078-1136 | The first close takes everything exactly once; later ones do nothing |
| HostAttempt.HostAttempt.SetTransport | desktop/peer_quicktunnel_host.go:1068-1076 | A transport that arrives after close is not attached |
| LeaseRuns.StepKeeps | desktop/peer_quicktunnel_host.go:579-697 | Every critical section of every goroutine keeps the invariant |
| LeaseRuns.RunKeeps | desktop/peer_quicktunnel_host.go:579-697 | Every reachable state satisfies it |
| LeaseRuns.LeasesNameHolders | desktop/peer_quicktunnel_host.go:613-692 | A lease names an open holder of its key or a closed one whose release is pending; a holder that lost its entry is about to be removed; no attempt ever has two channels |
| LeaseRuns.OnlyClaimsEvict | desktop/peer_route_lease.go:26-70 | An open holder loses its entry only to a claim on that key by a start that had looked it up, which dooms it; no late release evicts a successor |
| LeaseRuns.AttachesExactly | desktop/peer_quicktunnel_host.go:639-692 | A start attaches exactly when its attempt is open and serves nothing and the entry is as it looked it up, or its holder has only released since; one that saw no holder needs a free key; it then removes the attempt it looked up |
| LeaseRuns.Quiescence | desktop/peer_quicktunnel_host.go:1078-1147 | Once all goroutines are done each key has at most one open holder, no lease names a closed attempt, and each subscription is owned by one open attempt or was unsubscribed exactly once |
| LeaseRuns.SubscriptionsHaveOneHome | desktop/peer_quicktunnel_host.go:624-682 | At every moment exactly one party answers for a live subscription |
| LeaseStarts.StartsDoNotOverlap | desktop/peer_quicktunnel_host.go:579-685 | Unless a claim of the attempt has been refused, at most one goroutine is starting it; and a raised flag always belongs to a start that is still running |
| LeaseStarts.StartsOverlapOnce | desktop/peer_quicktunnel_host.go:587-680 | A concrete run in which a refused claim lets two starts of one attempt run side by side |
| PrefsSync.SyncLoop.TrySend | desktop/prefs_sync_loop.go:113-118 | Sends only into an empty slot |
| PrefsSync.SyncLoop.TryDrain | desktop/prefs_sync_loop.go:119-132 | Takes whatever is in the slot |
| PrefsSync.SyncLoop.EnqueueSync | desktop/prefs_sync_loop.go:109-134 | Undisturbed, enqueueing leaves the union of both requests in the slot |
| PrefsSync.SyncLoop.RunSyncRequest | desktop/prefs_sync_loop.go:171-221 | Pull before push, the push skipped exactly after a panicking pull, the last outcome recorded |
| PrefsSync.CallsExactly | desktop/prefs_sync_loop.go:171-221 | A pull exactly if asked for; a push exactly if asked for and no pull of this request panicked, failed pulls included; the pull first; the last outcome stays |
| PrefsSync.SyncLoop.ServeOne | desktop/prefs_sync_loop.go:79-98 | The consumer serves exactly the queued request and is never left busy |
| PrefsSyncRuns.ServeIsTurn | desktop/prefs_sync_loop.go:79-98 | One turn of the consumer is a sequence of steps of the runs below, with the same engine calls |
| PrefsSyncRuns.EnqueueIsSteps | desktop/prefs_sync_loop.go:109-134 | And so is an undisturbed enqueue |
| PrefsSyncRuns.StepKeeps | desktop/prefs_sync_loop.go:79-134 | Every try-send, try-drain, take and engine call, in any interleaving, keeps the invariant |
| PrefsSyncRuns.RequestsAreHeld | desktop/prefs_sync_loop.go:109-134 | Each call's flags are in a caller's hand, the slot or the loop, or were served by calls that started after it |
| PrefsSyncRuns.NoEditIsLost | desktop/prefs_sync_loop.go:252-280 | At quiescence each marked edit was followed by a push that started after its mark, unless its request's pull panicked |
| PrefsSyncRuns.NothingIsInvented | desktop/prefs_sync_loop.go:100-134 | A coalesced request asks only for what one of its calls asked for |
| PrefsSyncRuns.DropsExactly | desktop/prefs_sync_loop.go:171-197 | One step drops a call exactly when it is a panicking pull and the call is part of its request; some call of that request asked for the pull |
| PrefsSyncRuns.PushedExactly | desktop/prefs_sync_loop.go:79-134 | In any run an edit counts as pushed exactly when a push starts after its mark |
| PrefsSyncRuns.DroppedExactly | desktop/prefs_sync_loop.go:171-197 | In any run a call is dropped exactly when a pull of its request panicked |
| PrefsSyncRuns.ServedExactly | desktop/prefs_sync_loop.go:79-221 | At quiescence a call was served by its own request exactly when no pull of that request panicked, and then got the pull and the push it asked for |
| PrefsSyncRuns.UnpushedExactly | desktop/prefs_sync_loop.go:171-221 | At quiescence an edit is unpushed exactly when no push started after its mark, and then a pull of its request panicked |
| PrefsSyncRuns.EditLostToPanickingPull | desktop/prefs_sync_loop.go:171-221 | A concrete run in which an edit ends unpushed |
| Entries.TrimSpace | desktop/config_import.go:252-253 | Removes leading and trailing white space |
| Entries.TrimExactly | desktop/config_import.go:252-253 | What is taken off is white space, and what is left neither begins nor ends with any |
| Entries.Validate | desktop/config_import.go:244-299 | Drops entries without an ID or name and later duplicates, trims the IDs it keeps, and counts what it skips |
| Entries.FilteredIsStored | desktop/profiles.go:163-184 | What passes the inbound filter is well formed and distinct |
| Entries.FilteredKeepsIds | desktop/profiles.go:163-184 | Only malformed entries and later duplicates are dropped |
| Entries.FilteredExactly | desktop/profiles.go:163-184 | The filter keeps exactly the entries that have an ID and a name and come first under their trimmed ID, in order |
| Entries.FilteredKeeps | desktop/profiles.go:163-184 | Filtering keeps a list whole exactly when it could be stored as it is |
| Entries.ValidatedIsStored | desktop/config_import.go:410-437 | What an import keeps is well formed, distinct and trimmed |
| Entries.ValidatedKeeps | desktop/config_import.go:410-437 | An import reads a list back unchanged exactly when it is stored with trimmed IDs |
| Profiles.StripUnsyncedEnv | desktop/profiles.go:47-56 | Clears the environment of every profile that is not opted in, and nothing else |
| Profiles.FilterValidProfiles | desktop/profiles.go:163-184 | The inbound filter, which keeps IDs as they came |
| Profiles.ResolveDefaultProfileID | desktop/profiles.go:190-200 | The ID if it names a profile, else nothing |
| Profiles.MergeProfiles | desktop/profiles.go:219-246 | Incoming order; a missing environment is taken from the local profile of that ID |
| Profiles.Pull | desktop/prefssync_adapter.go:161-190 | Filter, merge and resolve, in that order |
| Profiles.PullStores | desktop/prefssync_adapter.go:161-190 | Any pull leaves a list the setter would accept and a default that resolves |
| Profiles.PulledExactly | desktop/prefssync_adapter.go:161-190 | A pull, profile by profile: its own environment or, without one, the stored one; the incoming default if a profile has it, else none |
| Profiles.Relayed | desktop/profiles.go:88-96 | What a second machine sends on, position by position |
| Profiles.RoundTripAt | desktop/profiles.go:219-246 | After A pushes, any B merges and pushes, and A merges, A's profile is back, environment included, unless it is opted in and has none |
| Profiles.RoundTripDefault | desktop/prefssync_adapter.go:183-186 | A's default survives the round trip |
| Profiles.RoundTripIdentityExactly | desktop/profiles.go:219-246 | The whole selection comes back exactly when B has no environment for A's opted-in profiles without one |
| Profiles.RoundTripDiffersOnce | desktop/profiles.go:219-246 | A concrete pair of machines where it does not |
| Profiles.PullPromotesExactly | desktop/profiles.go:219-246 | When a pull makes a private environment shared, both directions |
| Profiles.PullPromotesOnce | desktop/profiles.go:219-246 | A concrete pull that does |
| ImportLaws.ListImportLookup | desktop/config_import.go:847-895 | After importing hosts or keys, the file's entry stands under its ID and every other entry is as it was; the IDs are the union |
| ImportLaws.ListImportOrder | desktop/config_import.go:858-895 | Local entries keep their places and new ones follow in file order |
| ImportLaws.ListImportTwice | desktop/config_import.go:847-895 | Importing a list again finds nothing to do |
| ImportLaws.ClearedExactly | desktop/config_import.go:534-542 | A credential is cleared exactly for a stored host whose address, port or user the file changes |
| ImportLaws.MergedIs | desktop/config_import.go:1040-1050 | The merged profiles: the file's in file order, then the local ones it does not mention, verbatim |
| ImportLaws.MergedLookup | desktop/config_import.go:1019-1050 | The ID set is the union, and each ID holds the merge of its file entry or its local profile |
| ImportLaws.MergedTwice | desktop/config_import.go:1019-1050 | Merging again gives the same list in the same order |
| ImportLaws.PreviewMeansApply | desktop/config_import.go:362-367 | A profile previewed as unchanged is left equal; exactly when one previewed as replaced is left equal too |
| ImportLaws.ReplacedButEqualOnce | desktop/config_import.go:362-367 | A concrete profile previewed as replaced and left equal |
| ImportLaws.SelectionLookup | desktop/config_import.go:996-1086 | After an accepted import each ID holds what its file entry merges to, or what it held |
| ImportLaws.DefaultAfterImport | desktop/config_import.go:1056-1084 | The default is the file's when it names a profile, else the local one: replaced by a valid one or kept, never cleared |
| ImportLaws.DefaultExactly | desktop/config_import.go:1056-1084 | The default after any import, for dangling local defaults too |
| ImportLaws.SelectionTwice | desktop/config_import.go:996-1086 | Importing profiles and default twice equals importing once, for dangling defaults and refused lists too |
| ImportLaws.ImportTwice | desktop/config_import.go:1138-1253 | Importing any file is idempotent on hosts, keys, profiles, order and default |
| ImportLaws.RefusedExactly | desktop/app.go:1487-1506 | The merged list is refused exactly when a stored ID carries white space and the file has it trimmed |
| ImportLaws.NeverRefused | desktop/app.go:1487-1506 | With trimmed local IDs no file is refused |
| ImportLaws.PaddedPullRefuses | desktop/prefssync_adapter.go:170-182 | A concrete pull followed by a refused import |
| ImportLaws.PaddedSetRefuses | desktop/app.go:1487-1506 | The same with a list set directly |
| ImportLaws.OwnProfilesUnchanged | desktop/config_import.go:449-476 | A device's own export has no actionable profile, stripped or not |
| ImportLaws.SelfImport | desktop/config_export.go:80-141 | Exporting and importing on the same machine previews everything as unchanged and changes nothing |
| ImportLaws.EnvOrigin | desktop/config_import.go:1021-1050 | After any import each environment in a default export came from the file or was shared before |
| ImportRules.InboundNeeds | desktop/config_import.go:244-299 | A host needs an ID and an address, a key and a profile an ID and a name; an entry with both is dropped only for an earlier one of its ID |
| ImportRules.StoredProfilesAre | desktop/app.go:1487-1506 | What the setter accepts: IDs and names that are not blank, and IDs that differ when trimmed |
| ImportRules.ListActionExactly | desktop/config_import.go:504-513 | Added if the ID is new, unchanged if stored as it is, replaced otherwise |
| ImportRules.ProfileActionExactly | desktop/config_import.go:449-494 | The same for profiles, one without environment and sharing compared without its environment |
| ImportRules.DefaultActionExactly | desktop/config_import.go:449-494 | The default is previewed exactly if the file has one: added, replaced or unchanged |
| ImportRules.MergedOneExactly | desktop/config_import.go:1021-1050 | A profile without environment takes the stored one together with its sharing flag; any other is stored as it is |
| ImportRules.SectionsApart | desktop/config_import.go:1138-1253 | Another version is refused; a missing section, or a refused profile list, leaves its part alone |
| ImportRules.ExportExactly | desktop/config_export.go:80-141 | An export has everything; by default without the environments of profiles that are not opted in |
| ImportRules.ReportedExactly | desktop/config_import.go:1224-1250 | Every promised change is reported as often as it was promised, but for a default that names nothing |
| ImportRules.ReportedInOrder | desktop/config_import.go:1224-1250 | In the order of the preview |
| ImportApp.ListChangesOf | desktop/config_import.go:504-513 | Add, replace or unchanged for each entry, by ID |
| ImportApp.PreviewProfiles | desktop/config_import.go:449-494 | The classification of profiles and default |
| ImportApp.PutIndexed | desktop/config_import.go:867-875 | Replaces in place or appends, and the index stays right |
| ImportApp.ApplyHosts | desktop/config_import.go:858-877 | The loop over hosts equals the list import and collects exactly the moved hosts |
| ImportApp.ApplyKeys | desktop/config_import.go:879-895 | The loop over keys equals the list import |
| ImportApp.MergeFile | desktop/config_import.go:1021-1050 | Pinning, completing and merging equals the merged list |
| ImportApp.CheckProfiles | desktop/app.go:1487-1506 | Accepts exactly the lists whose IDs are non-empty and distinct up to white space and whose names are non-empty |
| ImportApp.ReportOf | desktop/config_import.go:1224-1250 | Reports exactly the promised changes, but for a default that names nothing |
| ImportApp.AppliedKeys | desktop/config_import.go:1175-1222 | What is applied is what the preview promised, but for that default |
| ImportApp.PreviewAgrees | desktop/config_import.go:1159-1173 | The actionable keys are exactly the entries that are not unchanged |
| ImportApp.App.constructor | desktop/config_import.go:1138-1141 | A store before any import |
| ImportApp.App.PreviewConfigImport | desktop/config_import.go:596-652 | The preview, or nothing for another version; the store is not touched |
| ImportApp.App.ApplySSHHostsImport | desktop/config_import.go:847-946 | Hosts and keys, credentials cleared, and one write or none |
| ImportApp.App.SetProfiles | desktop/app.go:1487-1520 | Stores an acceptable list and drops a default it does not name; otherwise changes nothing |
| ImportApp.App.ApplyProfilesImport | desktop/config_import.go:996-1086 | Profiles and default equal the import function; nothing actionable, no write |
| ImportApp.App.ApplyConfigImport | desktop/config_import.go:1138-1253 | The whole import, its report, the credentials it clears, and no write when everything is unchanged |
| Positions.PositionRoundTrip | internal/configsync/materialize.go:551-560 | Every 64-bit index is read back from its position |
| Positions.IndexRoundTrip | internal/configsync/materialize.go:551-568 | Every readable position is written back up to letter case |
| Positions.OrderedBeforeTotal | desktop/configsync_relay_codec.go:260-267 | On readable positions the order is irreflexive, asymmetric, and total on distinct IDs |
| Positions.OrderedBeforeTransitive | desktop/configsync_relay_codec.go:260-267 | And transitive |
| Positions.MixedPositionsCycle | desktop/configsync_relay_codec.go:260-267 | A cycle of readable and unreadable positions, as strings: opening a record already refuses an unreadable one |
| Positions.LowercaseMixes | desktop/configsync_relay_codec.go:260-267 | Without capitals the order is the string order on positions, then IDs |
| Positions.LowercaseTransitive | desktop/configsync_relay_codec.go:260-267 | So it is transitive on any mixture without capitals |
| Positions.TransitiveExactly | desktop/configsync_relay_codec.go:260-267 | On any list of positions, readable or not, the comparison is transitive exactly when no unreadable one stands between two readable ones that are the other way around by index |
| Records.SortIs | desktop/configsync_relay_codec.go:179-181 | Sorting gives the strictly sorted permutation |
| Records.SortedUnique | desktop/configsync_relay_codec.go:225-230 | There is only one, whatever the sorting algorithm |
| Records.PermutedReads | desktop/configsync_relay_codec.go:157-181 | The lists and side values read from a record set do not depend on its order |
| Records.WrittenReads | desktop/configsync_relay_codec.go:58-80 | A list written as positioned records is read back in order, each side value with its entry |
| Codec.CollectProfileRecords | desktop/configsync_relay_codec.go:153-178 | Gathers the profile records, failing exactly when one cannot be read |
| Codec.EncodeSealedProfiles | desktop/configsync_relay_codec.go:147-190 | The encoder's loops equal the encoding function |
| Codec.EncodedEnvs | desktop/configsync_relay_codec.go:147-190 | Any readable records: an opted-in profile seals with the environment of its own record, any other with none |
| Codec.DecodeSealedProfiles | desktop/configsync_relay_codec.go:46-91 | The decoder's loop equals the decoding function |
| Codec.DecodedExactly | desktop/configsync_relay_codec.go:46-91 | The records written for a sealed value: list records without any environment, an environment record exactly for an opted-in profile that has one, and the default |
| Codec.CollectSSHRecords | desktop/configsync_relay_codec.go:192-224 | Gathers the SSH records, failing exactly when one cannot be read |
| Codec.EncodeSealedSSH | desktop/configsync_relay_codec.go:192-239 | The encoder for hosts and keys equals its function |
| Codec.DecodeSealedSSH | desktop/configsync_relay_codec.go:93-141 | The decoder for hosts and keys equals its function |
| Codec.BundleExactly | desktop/configsync_relay_codec.go:93-141 | A password, or a private key and its passphrase, has a record of its own exactly when there is one |
| Codec.EncodeProfilesPermuted | desktop/configsync_relay_codec.go:147-190 | Sealed profiles do not depend on the order of the records as long as the configuration records select alike |
| Codec.OrderShows | desktop/configsync_relay_codec.go:171-177 | If two of them do not, another order gives another sealed value |
| Codec.EncodeProfilesOrderExactly | desktop/configsync_relay_codec.go:147-190 | So the sealed value is the same for every order exactly when a record cannot be read or all configuration records select alike |
| Codec.TwoDefaultsDisagree | desktop/configsync_relay_codec.go:171-177 | Two that disagree, one naming the only profile and the other not |
| Codec.EncodeSSHPermuted | desktop/configsync_relay_codec.go:192-239 | Sealed hosts and keys do not depend on the order of the records |
| Codec.DecodeEncodeProfiles | desktop/configsync_relay_codec.go:46-190 | Decoding and encoding gives the valid profiles in order, shared environments restored, private ones stripped, the default resolved |
| Codec.DecodeEncodeSSH | desktop/configsync_relay_codec.go:93-239 | Decoding and encoding gives hosts and keys back in order, each secret with its own |
| Projection.OpenLocalProjectionRecords | desktop/peer_config_projection.go:216-236 | Collection by collection, the records whose epoch key is held and that are not deleted |
| Projection.FillIncoming | desktop/peer_config_projection.go:141-164 | The environment rule of the projection |
| Projection.ProjectProfilesOnto | desktop/peer_config_projection.go:104-169 | The projection's loops equal the projection function |
| Projection.ProjectedFrom | desktop/peer_config_projection.go:104-236 | Whatever the replica holds, each projected profile comes from a record that is not deleted and can be opened |
| Projection.ProjectsAll | desktop/peer_config_projection.go:104-236 | And every valid profile of such a record is projected, or another one of its trimmed ID |
| Projection.SSHProjectedExactly | desktop/peer_config_projection.go:171-236 | Hosts and keys are projected exactly from such records |
| Projection.TombstonesClear | desktop/peer_config_projection.go:216-236 | Tombstones alone clear the local lists |
| Projection.WriteLocalProfileRecords | desktop/peer_config_bootstrap.go:118-157 | The records a device writes for its own profiles |
| Projection.LocalRecordsExactly | desktop/peer_config_bootstrap.go:118-157 | Which records those are; the default has one exactly if there are profiles |
| Projection.PrivateEnvStays | desktop/peer_config_bootstrap.go:118-157 | No environment is sealed under the sync key, and none of a profile that is not opted in is sealed at all |
| Projection.ClassesAre | desktop/peer_config_bootstrap.go:118-183 | Lists and the default go under the sync key, environments and secrets under the vault key |
| Projection.LocalEnvKept | desktop/peer_config_projection.go:145-164 | Whatever the replica holds: without the vault key, or for a private profile, every surviving ID keeps its local environment |
| Projection.OwnProfilesProject | desktop/peer_config_projection.go:104-169 | Projecting a device's own profile records, sealed under any epochs: all of its profiles if it can open no record, else those it can open, in order, without the environments and the default it can no longer open |
| Projection.HiddenProfileVanishes | desktop/peer_config_projection.go:216-236 | A profile whose record cannot be opened is gone as soon as any record can |
| Projection.LostEpochDrops | desktop/peer_config_projection.go:216-236 | Any profile whose record alone was sealed under an epoch since lost is dropped |
| Projection.LostEpochDropsOnce | desktop/peer_config_projection.go:216-236 | Two concrete profiles of which one is left |
| Projection.OwnProfilesIdentityExactly | desktop/peer_config_projection.go:145-169 | It is the identity exactly when no record can be opened, or each profile's can, the default is kept, and no shared environment is hidden from a device with the vault key |
| Projection.LaterEpochClears | desktop/peer_config_projection.go:145-169 | A device with a later vault epoch's key alone loses its shared environments, whatever its profiles are |
| Projection.LaterEpochClearsOnce | desktop/peer_config_projection.go:145-169 | One concrete profile that loses its environment |
| Projection.OwnSSHProjects | desktop/peer_config_projection.go:171-212 | Projecting a device's own host and key records: its lists if it can open none, else those it can open, in order |
| Projection.OwnSSHIdentityExactly | desktop/peer_config_projection.go:171-236 | It is the identity exactly when no record can be opened, or all can |
| Projection.ProjectProfilesPermuted | desktop/peer_config_projection.go:104-169 | The projected profiles do not depend on the order of the winners as long as the configuration records that can be opened select alike |
| Projection.ProjectionOrderShows | desktop/peer_config_projection.go:104-169 | If two of them do not, another order gives another projection |
| Projection.ProjectProfilesOrderExactly | desktop/peer_config_projection.go:104-169 | So the projection is the same for every order exactly when nothing is found, a record cannot be read, or all these records select alike |
| Projection.SameWinnersProject | internal/configsync/replica.go:288-308 | Replicas with the same winners, each collection listed by record ID, project alike, however many configuration records there are |
| Projection.ProjectSSHPermuted | desktop/peer_config_projection.go:171-212 | Nor do hosts and keys |
| Memberships.CanonicalAfterTotal | desktop/peer_epoch_store.go:246-254 | The order on grants is strict, and total on different tokens |
| Memberships.CanonicalAfterTransitive | desktop/peer_epoch_store.go:246-254 | And transitive |
| Memberships.ActiveMemberships | desktop/peer_epoch_store.go:206-229 | The worklist terminates; it fails exactly when a token in the issuer closure is invalid, and otherwise finds each subject's maximum over the closure |
| Memberships.CanonicalIsNewest | desktop/peer_epoch_store.go:246-254 | The canonical grant: none of the subject's was issued later, of those issued then none has a smaller serial, and of those none a smaller token |
| Memberships.FoldedExactly | desktop/peer_epoch_store.go:206-229 | The result is exactly that grant for each subject with an active token |
| Memberships.ClosureExactly | desktop/peer_epoch_store.go:206-229 | The closure: the tokens given, the issuers of its active tokens, and nothing else |
| Memberships.FoldedUnique | desktop/peer_epoch_store.go:206-229 | That result is unique |
| Memberships.SameTokensAgree | desktop/peer_epoch_store.go:198-229 | Replicas with the same tokens, in any order and number, agree |
| Memberships.EmbeddedTokenIsRedundant | desktop/peer_epoch_store.go:226-228 | A token already embedded in another adds nothing |
| Vectors.LowerInPlace | desktop/peer_config_replica.go:437-443 | Lowering entries in any order gives the pointwise minimum, zeros removed |
| Vectors.StableConfigVector | desktop/peer_config_replica.go:416-446 | The greatest vector below the local one and below every active remote member's acknowledged one |
| Vectors.StableUnique | desktop/peer_config_replica.go:416-446 | There is one, whatever the order of members or entries |
| Vectors.StableMonotone | desktop/peer_config_replica.go:416-446 | It grows with acknowledgements and shrinks with members |
| Vectors.StableExactly | desktop/peer_config_replica.go:416-446 | An operation is stable exactly when the device has it and every active remote member acknowledged it |
| Vectors.ConfigSyncStatus | desktop/peer_config_status.go:92-127 | Local operations and pending ones against the least vector above all acknowledgements of exchanging members |
| Vectors.PendingPlusCovered | desktop/peer_config_status.go:97-127 | Pending plus acknowledged, capped at local, equals local operations |
| Vectors.StatusCounts | desktop/peer_config_status.go:92-127 | The status counts the local operations, and as pending exactly those that no other member with a recorded exchange has acknowledged |
| Vectors.MergedReaches | desktop/peer_config_status.go:107-122 | The merged vector reaches a count exactly where some exchanging member does |
| Vectors.NothingPendingExactly | desktop/peer_config_status.go:123-127 | Nothing is pending exactly when some exchanging member acknowledged each local operation |
| LogRotator.WriteHistory | desktop/logging.go:351-395 | A write discards nothing or exactly the whole oldest file, and adds its record at the end |
| LogRotator.RotationKeepsHistory | desktop/logging.go:351-395 | For any writes over any present or missing backups, the files from oldest to current are a suffix of everything ever written, and what is gone is whole files |
| LogRotator.StartedFilesFit | desktop/logging.go:351-360 | A file the writer starts, the one it creates included, holds at most the limit, or a single larger record |
| LogRotator.CreatedFileFits | desktop/logging.go:332-349 | A file created at construction fits |
| LogRotator.RenameUp | desktop/logging.go:373-387 | The descending renames move every present file up one place and lose only the last |
| LogRotator.RotatingFileWriter.constructor | desktop/logging.go:332-349 | Opens or creates the current file behind whatever is there |
| LogRotator.RotatingFileWriter.Rotate | desktop/logging.go:369-395 | Renaming on bytes is rotation on records |
| LogRotator.RotatingFileWriter.WriteRecord | desktop/logging.go:351-360 | Writing on bytes is writing on records, so no record is split; a record that fits is appended, any other starts a file |
| LogRotator.RotatingFileWriter.Append | desktop/logging.go:351-360 | Appending on bytes is appending a record to the current file |
| PreviewConnections.CandidateIs | desktop/peer_service_preview.go:360-366 | The wrapping counter in closed form, never zero |
| PreviewConnections.CandidatesCount | desktop/peer_service_preview.go:360-371 | Consecutive candidates are distinct, across the wrap too |
| PreviewConnections.SomeCandidateFree | desktop/peer_service_preview.go:360-371 | With fewer connections than tries one candidate is free |
| PreviewConnections.AllocatorFailsAtTries | desktop/peer_service_preview.go:360-371 | With 32 unlucky ones none is: the bound is sharp |
| PreviewConnections.ServicePreview.NextConnectionID | desktop/peer_service_preview.go:360-371 | The first free candidate, or zero when all 32 are taken |
| PreviewConnections.ServicePreview.AcceptConn | desktop/peer_service_preview.go:296-315 | The first critical section: takes the connection exactly when open and below sixteen, under an unused ID; the zero ID never occurs |
| PreviewConnections.ServicePreview.AbandonConn | desktop/peer_service_preview.go:310-313 | The second one, after a failed announcement: gives up that entry and no other, whatever ran in between |
| PreviewConnections.ServicePreview.CloseConnection | desktop/peer_service_preview.go:379-387 | Removes exactly that entry |
| PreviewConnections.ServicePreview.CloseConnectionIf | desktop/peer_service_preview.go:389-399 | Removes the entry only if it is still the same connection |
| PreviewConnections.ServicePreview.ReserveBytes | desktop/peer_service_preview.go:350-358 | Counts both directions, refuses exactly what exceeds the budget, and never wraps |
| PreviewConnections.ServicePreview.Close | desktop/peer_service_preview.go:401-420 | Closes the preview and empties the table |
| Transcript.LinesAreTheText | desktop/ai_sid_resolve.go:876-887 | Lines and rest are the text, cut exactly at its newlines |
| Transcript.LinesOnce | desktop/ai_sid_resolve.go:876-887 | A concrete text, with an empty line and a carriage return that stays |
| Transcript.ReadOn | desktop/ai_sid_resolve.go:874-886 | Parsing the carried rest with what is new equals parsing on |
| Transcript.ChunksAreBatch | desktop/ai_sid_resolve.go:861-887 | Any split into chunks yields the lines of the whole text, in order and once each, and carries its tail |
| Transcript.SplitTurns | desktop/ai_sid_resolve.go:876-886 | The loop emits the turns of the complete lines and keeps the rest |
| Transcript.Tailer.constructor | desktop/ai_sid_resolve.go:853-860 | Starts at the front, or behind what is there |
| Transcript.Tailer.ReadNew | desktop/ai_sid_resolve.go:861-887 | After each read the emitted turns are those of the file from the start offset, and the carry is its unterminated tail |
| ResumeArgs.FieldsOfJoin | desktop/ai_sid_sniff.go:92-92 | Splitting undoes joining for words |
| ResumeArgs.FieldsSplit | desktop/ai_sid_sniff.go:92-92 | A white space character separates what is before it from what is behind it |
| ResumeArgs.FieldsOfWord | desktop/ai_sid_sniff.go:92-92 | And a text without any is one field |
| ResumeArgs.KeepIsClean | desktop/ai_sid_sniff.go:107-130 | What is kept has no resume or continue flag, and a value after each flag that takes one |
| ResumeArgs.KeepsExactly | desktop/ai_sid_sniff.go:107-130 | Flags are kept verbatim exactly when they are like that already |
| ResumeArgs.KeepJoin | desktop/ai_sid_sniff.go:106-131 | Keeping is local: a list may be cut anywhere but between a flag and its value |
| ResumeArgs.OtherFlagsStay | desktop/ai_sid_sniff.go:127-129 | Every other flag is kept as often as it occurs |
| ResumeArgs.KeepAlone | desktop/ai_sid_sniff.go:107-130 | The flags by name, standing alone |
| ResumeArgs.KeepBeforeValue | desktop/ai_sid_sniff.go:107-130 | And before a value |
| ResumeArgs.ArgumentsExactly | desktop/ai_sid_sniff.go:91-105 | Assignments and the four wrappers are skipped, then the program, and nothing else |
| ResumeArgs.ReadBack | desktop/ai_sid_sniff.go:91-132 | The arguments read back from a produced command |
| ResumeArgs.ResumeIsFixpointExactly | desktop/ai_sid_sniff.go:37-132 | The produced command is a fixpoint across restarts for every ID without a leading dash, and otherwise exactly when the ID is dropped as a flag |
| ResumeArgs.RestartIs | desktop/ai_sid_sniff.go:91-132 | What one restart makes of the flags it reads back, for every ID |
| ResumeArgs.GrowsForeverExactly | desktop/ai_sid_sniff.go:37-132 | The command grows by one token at every restart exactly when the ID has a leading dash and is no flag to resume, to continue or to take a value |
| ResumeArgs.ValueFlagSettles | desktop/ai_sid_sniff.go:37-132 | An ID that is a value-taking flag changes the command at most once |
| ResumeArgs.RestartsOnce | desktop/ai_sid_sniff.go:37-132 | Four IDs on one command line: stable, growing, growing once, shrinking |
| ResumeArgs.EnvAssign | desktop/ai_sid_sniff.go:168-180 | Recognizes NAME=value with an upper-case name |
| ResumeArgs.EnvAssignsAre | desktop/ai_sid_sniff.go:168-180 | Names that do, and names that do not |
| ResumeArgs.KeepFlags | desktop/ai_sid_sniff.go:106-131 | The index loop equals the keeping function |
| ResumeArgs.ClaudePreservedFlags | desktop/ai_sid_sniff.go:91-132 | Tokens, prefixes, program and flags together |
| ResumeArgs.ComputeResumeArgs | desktop/ai_sid_sniff.go:37-57 | A resume command for claude and codex with an ID, and none otherwise |
| ResumeArgs.ResumeExactly | desktop/ai_sid_sniff.go:37-57 | The two commands, word by word |

## Left out

- Cryptography, signatures, key wrapping and the keychain; verification results are values or parameters.
- WebRTC, WebSocket, tunnels, timers and backoff: only delivery, loss, repetition and closing matter here.
- Liveness: a duplicate acknowledgement is an error that may end a route, so the exchange is proved safe, not live.
- Version and size limits in the headers of inventories, batches and tokens, and the authorization checks on single tokens.
- The capture of a pending local import, tombstone pruning and compaction around the exchange.
- The per-value acceptance rules of scalar preferences, and their place in previews and imports.
- The write of dirty marks, and the skip message for a keychain that refuses to clear a credential: the model records which credentials are asked to be cleared.
- Status events, last-sync time and the offline and busy states of the sync indicator.
- The counters of active and acknowledging members and the last exchange time in the sync status.
- Gathering the tokens of a stored state: the membership fold takes them as a list.
- Keys of an epoch beyond one for each class and number: a device either can open an epoch's records or cannot.
- Revocation filtering after the membership fold, which receives the same set wherever the fold agrees.
- The shape of a record ID beyond being its entity's own ID, and JSON encoding.
- AntiEntropy.Assembler.Add: the signature and Space of each token, the header version and the count and size limits are checked in the same pass; a failing check refuses the whole batch and leaves the state alone, as the modelled failures do.
- ConfigReceiver.DurableOwners.Store: authorization refusals and what the stores supersede are reduced to three fates of a call (stored, stored but reported as failed, not stored); the exchange relies on nothing else.
- ConfigReceiver.DurableOwners.Project: what a projection computes is the subject of `Projection`; here it only marks what was held, or fails.
- ConfigReceiver.SyncReceiver.Add: the capture of pending local records and the compaction around completion work on stores that this model does not have.
- ConfigChannel.ConfigChannel.HandleAck: the wire version, and the comparison of the Space of the acknowledgement with that of its durable vector, which the modelled acknowledgement shares.
- ImportApp.App.PreviewConfigImport: scalar preferences and their acceptance rules, which touch neither lists nor profiles.
- ImportApp.App.ApplyConfigImport: the same preferences, their writes and their reports.
- Vectors.ConfigSyncStatus: the counters of members and the last exchange time, which enter neither operations nor pending ones.
- PrefsSyncRuns.DropsExactly: is about one step; `PrefsSyncRuns.DroppedExactly` is the statement about runs.
- PrefsSyncRuns.UnpushedExactly: names the panicking pull in one direction only, since a later push also carries the edit; `PrefsSyncRuns.ServedExactly` has both directions.
- Exchange.StepKeeps: is about one plan; a second inventory is the subject of `Inventories`.
- Exchange.FallsOutOfStepExactly: is about one step from a state in step; `ExchangeRuns.InStepExactly` is the statement about runs.
- Positions.MixedPositionsCycle: its input cannot reach the comparison, since opening a record refuses unreadable positions (`internal/configsync/materialize.go:488-490`).
- Positions.LowercaseTransitive: a sufficient condition only; `Positions.TransitiveExactly` is the exact one.
- Codec.TwoDefaultsDisagree: a family of inputs only; `Codec.EncodeProfilesOrderExactly` is the exact condition.
- HostAttempt.HostAttempt.SetTransport: its field is not part of the run model, which follows leases, channels and subscriptions.
- PrefsSync.SyncLoop.EnqueueSync: states the undisturbed call only; interleavings are the subject of `PrefsSyncRuns`.
- Records.SortIs: the library sort is modelled by an insertion sort on a sequence; by `Records.SortedUnique` any other gives the same list.
- Transcript.Tailer.ReadNew: a file that shrinks or is rewritten in front of the offset is not modelled.
- LogRotator.RotatingFileWriter.WriteRecord: partial writes and failing renames are not modelled.
