# ehealth-couch-sync: the feed and observer registry, modelled in Dafny

`src/ehealth-couch-sync.js` is an AngularJS module with two factories:

- **`pouchdb`** wraps a local PouchDB store. It keeps these in its own fields:
  - an ordered observer list per (direction, event), with directions `from`/`to` and events `change`, `complete`, `uptodate` and `error`;
  - a flat list of local-change observers;
  - at most one live local changes feed;
  - one live replication feed per direction.

  `onSync` and `onChange` register and remove observers. `listenToChanges` opens or cancels the local changes feed. `replicate(direction, options)` does one of three things:
  - cancels a direction;
  - returns the already stored live feed;
  - or fills in `batch_size = 500` on the caller's own options object and starts a feed, storing it only when it is live.

  `cancelAllFeeds` cancels everything. `allChanges` bulk-reads the remote store and records its `last_seq` as `lastSeq`.
- **`sync`** drives the registry:
  - `replicate(twoway)` always listens to local changes and keeps a live push.
  - In two-way mode it also opens a one-shot pull and registers a `startLiveSync` closure on ('complete', 'from'). On `complete`, the closure removes itself, sets `live = true` on the same options object and pulls again, now live.
  - `initialize` either replicates at once (the store already has documents) or bulk-loads the remote changes, reporting progress 1, 2, …, n, writes them, and then replicates.

The project has four files, one module each:

| file | module | contents |
|---|---|---|
| `wrappers.dfy` | `Wrappers` | `Option`, and `Result` with a string error |
| `callbacks.dfy` | `Callbacks` | callback identities and buckets; JavaScript's `indexOf`, guarded `push` and `splice(indexOf(cb), 1)` on a list, as written |
| `pouch.dfy` | `Pouch` | the `pouchdb` factory: pure specification functions on a `DbState` value, the class `PouchDb` whose methods update fields and are proved against them, and the class `Options` (the caller's mutable options object) |
| `sync.dfy` | `Sync` | the `sync` factory: specification functions on a `SyncState` value, the class `SyncService`, and the `initialize` outcome |

How the model works:

- **Feeds.** PouchDB's feed creation is abstract. Opening a feed appends a `Feed` record to a ghost log, and the record's index in the log is the fresh handle. Cancelling a feed appends its handle to a ghost `cancelled` log. So every statement about "which feeds were opened, with which options" is a statement about that log.
- **State and proofs.** Each class has a ghost `State()` value. Every method ensures that its new `State()` is the corresponding specification function applied to the old one. The properties are lemmas about those functions. A method's body takes the same steps as its specification function, but on the object's fields, and its `ensures` is the proof that the two agree. The specification functions are the reference the lemmas talk about.
- **Invariants.** `Pouch.Good` is the registry invariant:
  - every bucket exists and holds no callback twice;
  - each slot holds a live feed of its own kind;
  - every live feed that has not been cancelled is the one held in its slot.

  `Sync.SyncGood` adds the closure bookkeeping to it.

Where the behaviour is subtle, the model follows the code:

- Removing a callback that is not registered drops the **last** entry of a non-empty list, because `indexOf` returns -1 and `splice(-1, 1)` removes the last element. It is not a no-op.
- `lastSeq` is written only when `allChanges` completes (`src/ehealth-couch-sync.js:307-309`), not when the inbound catch-up completes. So completing the one-shot pull does not advance `lastSeq`, and after a bootstrap the first two-way pull carries `since = last_seq` of the bulk load, unless that `last_seq` is 0.
- `if ($sessionStorage.lastSeq)` is a truthiness test, so a stored `lastSeq` of 0 gives a pull with no `since`.
- A live replication that finds a feed already stored returns it without running `setDefaults`, so that options object is left as the caller gave it.

## Model

| member | source | states |
|---|---|---|
| Callbacks.IndexOf | src/ehealth-couch-sync.js:116-117 | `indexOf` is -1 exactly when the callback is absent; otherwise it is the callback's first position |
| Callbacks.SpliceStart | src/ehealth-couch-sync.js:116 | where `splice(start, 1)` begins: a start within the list is kept, and a negative start counts back from the end, so -1 is the last position |
| Callbacks.SpliceOne | src/ehealth-couch-sync.js:116 | `splice(start, 1)` on a list: drops the entry at the normalized start, if there is one; its properties are stated by `RemovedSubsequence` |
| Callbacks.Removed | src/ehealth-couch-sync.js:115-116 | `list.splice(list.indexOf(cb), 1)`; what it does is stated by `RemovedRegistered`, `RemovedUnregistered`, `RemovedSubsequence` and `AddThenRemove` |
| Callbacks.Added | src/ehealth-couch-sync.js:117-118 | a registered callback leaves the list unchanged and a new callback is appended at the end; a list without duplicates stays without duplicates; the callback is present afterwards |
| Callbacks.RemovedRegistered | src/ehealth-couch-sync.js:115-116 | in a duplicate-free list, `splice(indexOf(cb), 1)` of a registered callback equals filtering it out: the other entries stay in order, the callback is gone, and the length drops by one |
| Callbacks.RemovedUnregistered | src/ehealth-couch-sync.js:116 | removing an unregistered callback leaves an empty list empty, and otherwise drops the last entry |
| Callbacks.RemovedSubsequence | src/ehealth-couch-sync.js:114-130 | removal adds no callback, keeps a list duplicate-free, and shortens a non-empty list by exactly one |
| Callbacks.AddThenRemove | src/ehealth-couch-sync.js:114-120 | registering a new callback and then removing it restores the list |
| Callbacks.InvokedOnce | src/ehealth-couch-sync.js:197-201 | a callback in a duplicate-free list occurs once, so one dispatch of the list calls it once |
| Callbacks.RemovedMiddle | src/ehealth-couch-sync.js:21 | in a duplicate-free list, removing the entry between `done` and `rest` leaves `done + rest` |
| Pouch.WithDefaults | src/ehealth-couch-sync.js:170-190 | `setDefaults`: `batch_size` becomes 500 exactly when the caller's value is falsy (absent or 0), and every other option is kept as given |
| Pouch.SetDefaults | src/ehealth-couch-sync.js:184-190 | the caller's own options object is updated in place to `WithDefaults` of its old value |
| Pouch.OnSyncSpec | src/ehealth-couch-sync.js:114-120 | `onSync`: the guarded push or the removal on the named bucket; its properties are the contracts of `OnSyncBucket`, `OnSyncTouchesOneBucket` and `OnSyncKeepsGood` |
| Pouch.OnChangeSpec | src/ehealth-couch-sync.js:124-130 | `onChange`: the same guarded push or removal on the change-observer list; `OnChangeKeepsGood` states that it keeps the invariant |
| Pouch.StopListeningSpec | src/ehealth-couch-sync.js:136-142 | `stopListening`: cancel and forget the stored changes feed, if any, and empty the change observers; stated by `ListenCancel` |
| Pouch.ListenSpec | src/ehealth-couch-sync.js:134-166 | `listenToChanges(options)`: stop on `cancel`, else open a live feed from `update_seq` when none is stored; stated by `ListenStartsOnce`, `ListenCancel` and `ListenKeepsGood` |
| Pouch.ClearDirection | src/ehealth-couch-sync.js:179-181 | the `angular.forEach` that sets each bucket of the direction to `[]`; stated by `ReplicateCancel` |
| Pouch.StopReplicationSpec | src/ehealth-couch-sync.js:174-182 | `stopReplication`: cancel and null the direction's slot, empty its four buckets; stated by `ReplicateCancel` |
| Pouch.ReplicateSpec | src/ehealth-couch-sync.js:169-222 | `replicate(direction, options)` in the source's order: cancel, reuse the stored live feed, or default and start; stated by `ReplicateCancel`, `ReplicateLiveIsIdempotent`, `ReplicateStarts` and `ReplicateKeepsGood` |
| Pouch.CancelAllSpec | src/ehealth-couch-sync.js:224-228 | `cancelAllFeeds`: cancel `from`, then `to`, then stop listening; stated by `CancelAllReleasesEverything` |
| Pouch.AllChangesSpec | src/ehealth-couch-sync.js:289-319 | `allChanges`: the remote changes feed is logged and `lastSeq` becomes `last_seq` on `complete`; stated by `BootstrapThenReplicate` and `AllChangesKeepsGood` |
| Pouch.Initial | src/ehealth-couch-sync.js:91-110 | the freshly created factory has all eight buckets empty and satisfies the registry invariant |
| Pouch.OnSyncKeepsGood | src/ehealth-couch-sync.js:114-120 | `onSync` keeps the registry invariant, in particular that no bucket holds a callback twice |
| Pouch.OnChangeKeepsGood | src/ehealth-couch-sync.js:124-130 | `onChange` keeps the registry invariant |
| Pouch.ListenKeepsGood | src/ehealth-couch-sync.js:134-166 | `listenToChanges` keeps the registry invariant: at most one live local changes feed runs |
| Pouch.ReplicateKeepsGood | src/ehealth-couch-sync.js:169-222 | `replicate` keeps the registry invariant: at most one live replication feed runs per direction |
| Pouch.CancelAllKeepsGood | src/ehealth-couch-sync.js:224-228 | `cancelAllFeeds` keeps the registry invariant |
| Pouch.AllChangesKeepsGood | src/ehealth-couch-sync.js:289-319 | `allChanges` keeps the registry invariant |
| Pouch.OnSyncTouchesOneBucket | src/ehealth-couch-sync.js:114-120 | `onSync` changes only the named bucket (the registry always holds all eight, so its set of buckets stays the same): every other bucket and the rest of the state are unchanged |
| Pouch.OnSyncBucket | src/ehealth-couch-sync.js:114-120 | the named bucket after `onSync`: a repeat registration changes nothing; a new callback is appended; removing a registered callback filters out just it; removing an unregistered one drops the last entry |
| Pouch.ReplicateLiveIsIdempotent | src/ehealth-couch-sync.js:215-218 | a live `replicate` when a live feed is already stored for the direction returns that handle, leaves the options as given, starts no feed and changes no state |
| Pouch.ReplicateStarts | src/ehealth-couch-sync.js:192-221 | otherwise `replicate` logs exactly one feed with the defaulted options and returns its fresh handle; it stores the handle in the slot exactly when the feed is live; nothing else changes |
| Pouch.ReplicateCancel | src/ehealth-couch-sync.js:174-213 | `replicate(dir, {cancel: true})` cancels the stored feed if there is one and leaves the slot null; it empties the four buckets of `dir`, keeps the other direction's buckets and slot, and opens no feed |
| Pouch.ListenStartsOnce | src/ehealth-couch-sync.js:144-165 | `listenToChanges()` opens one live changes feed from `update_seq` exactly when none is stored, and otherwise changes nothing |
| Pouch.ListenCancel | src/ehealth-couch-sync.js:136-160 | `listenToChanges({cancel: true})` cancels the stored feed if there is one, nulls the slot and empties the change observers; nothing else changes |
| Pouch.AtMostOneLiveFeed | src/ehealth-couch-sync.js:104-110 | under the invariant, two running live feeds of the same kind and direction are the same feed |
| Pouch.CancelAllReleasesEverything | src/ehealth-couch-sync.js:224-228 | after `cancelAllFeeds`, both replication slots and the changes slot are null, every observer list is empty, every live feed ever opened has been cancelled, and no feed is opened |
| Pouch.ListenAfterCancelAll | src/ehealth-couch-sync.js:224-228 | after `cancelAllFeeds`, `listenToChanges()` opens a fresh changes feed |
| Pouch.PouchDb.constructor | src/ehealth-couch-sync.js:91-110 | the new factory's state is `Initial`: eight empty buckets, no change observers, null feed slots, `lastSeq` from session storage, and the invariant holds |
| Pouch.PouchDb.Open | src/ehealth-couch-sync.js:193 | the store opens a feed: the record is appended to the ghost log and the returned handle is its fresh index |
| Pouch.PouchDb.Cancel | src/ehealth-couch-sync.js:176 | `handle.cancel()`: the handle is appended to the ghost log of cancellations and nothing else changes |
| Pouch.PouchDb.OnSync | src/ehealth-couch-sync.js:114-120 | the method's new state is `OnSyncSpec` of the old state, and the invariant holds |
| Pouch.PouchDb.OnChange | src/ehealth-couch-sync.js:124-130 | the method's new state is `OnChangeSpec` of the old state, and the invariant holds |
| Pouch.PouchDb.EmitLocalChange | src/ehealth-couch-sync.js:150-154 | a local change calls the change observers in registration order, each once |
| Pouch.PouchDb.StopListening | src/ehealth-couch-sync.js:136-142 | the new state is `StopListeningSpec` of the old state |
| Pouch.PouchDb.StartListening | src/ehealth-couch-sync.js:144-156 | the new state is the listening branch of `ListenSpec` |
| Pouch.PouchDb.ListenToChanges | src/ehealth-couch-sync.js:134-166 | the new state is `ListenSpec` of the old state |
| Pouch.PouchDb.StopReplication | src/ehealth-couch-sync.js:174-182 | the new state is `StopReplicationSpec` of the old state |
| Pouch.PouchDb.StartReplication | src/ehealth-couch-sync.js:192-209 | it opens the feed, stores it when live and returns its handle, as `ReplicateSpec` says |
| Pouch.PouchDb.Replicate | src/ehealth-couch-sync.js:169-222 | the new state, the caller's options object after the call, and the returned handle are what `ReplicateSpec` gives |
| Pouch.PouchDb.CancelAllFeeds | src/ehealth-couch-sync.js:224-228 | the new state is `CancelAllSpec` of the old state |
| Pouch.PouchDb.AllChanges | src/ehealth-couch-sync.js:289-319 | it logs the remote changes feed and sets `lastSeq` to `last_seq` on completion; it returns the rows or the error reason |
| Sync.SinceFor | src/ehealth-couch-sync.js:27-29 | `since` is set exactly when `lastSeq` is truthy, and then it equals `lastSeq` |
| Sync.WasInitialized | src/ehealth-couch-sync.js:37-42 | `info.doc_count > 0`; `InitializeResumes` and `InitializeBootstrapOnly` state what each answer leads to |
| Sync.ListenAndPushSpec | src/ehealth-couch-sync.js:15-16 | `listenToChanges()` and then `replicate('to', {live: true})`; stated by `SyncReplicateEffect` |
| Sync.OneShotPullSpec | src/ehealth-couch-sync.js:18-32 | the two-way part: `since` from `lastSeq`, a fresh closure on ('complete', 'from'), a one-shot pull on the new options object; stated by `SyncReplicateEffect` |
| Sync.SyncReplicateSpec | src/ehealth-couch-sync.js:14-33 | `replicate(twoway)`; stated by `SyncReplicateEffect`, `SyncReplicateTwice`, `HandoffStartsLivePull` and `SyncReplicateKeepsGood` |
| Sync.StartLiveSyncSpec | src/ehealth-couch-sync.js:20-24 | the closure keeps the set of closures and the settled state of their options |
| Sync.Fire | src/ehealth-couch-sync.js:197-201 | calling one callback: only a pending `startLiveSync` closure acts on the state; the set of closures and their settled options are kept |
| Sync.FireAll | src/ehealth-couch-sync.js:196-201 | dispatching keeps the set of closures and the settled state of their options |
| Sync.OneShotPullKeepsGood | src/ehealth-couch-sync.js:26-32 | registering the closure and opening the one-shot pull keeps the sync invariant |
| Sync.SyncReplicateKeepsGood | src/ehealth-couch-sync.js:14-33 | `replicate(twoway)` keeps the sync invariant |
| Sync.StartLiveSyncKeepsGood | src/ehealth-couch-sync.js:20-24 | `startLiveSync` keeps the sync invariant |
| Sync.FireAllKeepsGood | src/ehealth-couch-sync.js:196-201 | a dispatch keeps the sync invariant |
| Sync.AppCallbacks | src/ehealth-couch-sync.js:197-201 | the application callbacks of a list, in order: they all come from the list, the whole list when it has no closure, duplicate-free when the list is |
| Sync.FirstHandoffEarliest | src/ehealth-couch-sync.js:197-201 | the closure `FirstHandoff` picks is the earliest pending one: no entry before its first occurrence is a pending closure |
| Sync.FirstHandoff | src/ehealth-couch-sync.js:20-24 | the first pending closure of a dispatch, or none when the list holds no pending closure |
| Sync.StartLiveSyncEffect | src/ehealth-couch-sync.js:20-24 | `startLiveSync` removes itself from ('complete', 'from') and sets `live` on its own options object. It opens a live pull with exactly those options (the `since` and batch size of the one-shot pull) only when no live pull is stored. No other part of the state changes |
| Sync.FireAllBucket | src/ehealth-couch-sync.js:197-201 | while a dispatch of ('complete', 'from') runs through its snapshot, each closure already called has removed itself, the application callbacks stay in order, and no other bucket changes |
| Sync.FireAllEffect | src/ehealth-couch-sync.js:197-201 | a dispatch marks the options of every called closure live. The first pending closure opens the one live pull, and only when none is stored. Nothing else changes |
| Sync.SyncReplicateEffect | src/ehealth-couch-sync.js:14-33 | `replicate(twoway)` opens the changes feed and the live push only when they are not yet running (batch size 500 on the push). Only in two-way mode does it also register a fresh closure and open one non-live pull, whose `since` is `lastSeq` iff that is set; the closure's options get batch size 500. The from slot, `lastSeq` and the change observers are unchanged |
| Sync.SyncReplicateTwice | src/ehealth-couch-sync.js:18-31 | two two-way calls register two distinct closures. Each call opens its own one-shot pull, so the first call's last feed and the second call's only new feed are both one-shot pulls. The second call keeps the changes feed and the `to` handle of the first: separate calls are not deduplicated, but the live push is |
| Sync.FireAllApps | src/ehealth-couch-sync.js:197-201 | application callbacks leave the sync state unchanged |
| Sync.FireOnlyClosure | src/ehealth-couch-sync.js:197-201 | dispatching application callbacks followed by one closure amounts to running that closure |
| Sync.HandoffRemovesItself | src/ehealth-couch-sync.js:21 | in a ('complete', 'from') bucket whose only closure is its last entry, the closure takes itself out of the bucket when dispatched |
| Sync.HandoffOpensLivePull | src/ehealth-couch-sync.js:20-24 | with no live pull stored, that dispatch opens and stores one live pull carrying the closure's options with `live` set |
| Sync.HandoffStartsLivePull | src/ehealth-couch-sync.js:14-33 | after the first two-way `replicate`, completing the one-shot pull restores the ('complete', 'from') bucket. It also opens and stores one live pull with the one-shot pull's `since`, batch size 500 and `live: true` |
| Sync.DocsOf | src/ehealth-couch-sync.js:57 | the documents are the rows' `doc` fields, in order |
| Sync.InitializeSpec | src/ehealth-couch-sync.js:46-71 | `initialize`: reject on an `info` failure, replicate and resolve `true` on a non-empty store, else bulk load, write and replicate; stated by `InitializeResumes`, `InitializeFailureSkipsReplicate`, `InitializeBootstrapOnly` and `BootstrapThenReplicate` |
| Sync.ProgressSpec | src/ehealth-couch-sync.js:47-54 | the values the progress callback receives: 1, 2, …, n for an empty store, one per change event; `ReportProgress` is proved to produce them |
| Sync.InitializeResumes | src/ehealth-couch-sync.js:63-67 | when the store already has documents, `initialize` replicates at once, opens no bulk-load feed, writes nothing, reports no progress and resolves `true` |
| Sync.InitializeFailureSkipsReplicate | src/ehealth-couch-sync.js:46-71 | when `info`, the bulk load or the bulk write fails, `initialize` rejects with that step's reason. Whenever it rejects, `replicate` has not run: at most the bulk-load feed was opened, and no slot, observer or closure changed |
| Sync.InitializeBootstrapOnly | src/ehealth-couch-sync.js:56-70 | `initialize` resolves without a value exactly when it finds an empty store, the bulk load completes and the bulk write succeeds |
| Sync.BootstrapThenReplicate | src/ehealth-couch-sync.js:46-71 | after a bootstrap the final state is `replicate` applied, in either mode, to the state with the remote feed logged, `lastSeq` set to `last_seq` and the documents written. So the changes feed and the live push are open, the remote feed comes first among the new feeds, and in two-way mode the pull and its closure start from that `last_seq` |
| Sync.ReportProgress | src/ehealth-couch-sync.js:47-54 | the progress callback, when given, receives 1, 2, …, n, one value per change event; without one nothing is reported |
| Sync.SyncService.constructor | src/ehealth-couch-sync.js:5 | the new service drives the given `pouchdb` service, with no closures made and nothing written |
| Sync.SyncService.Replicate | src/ehealth-couch-sync.js:14-33 | the new state is `SyncReplicateSpec` of the old state, and the sync invariant holds |
| Sync.SyncService.ListenAndPush | src/ehealth-couch-sync.js:15-16 | the new state is `ListenAndPushSpec` of the old state |
| Sync.SyncService.OpenOneShotPull | src/ehealth-couch-sync.js:18-32 | the new state is `OneShotPullSpec` of the old state |
| Sync.SyncService.StartLiveSync | src/ehealth-couch-sync.js:20-24 | the new state is `StartLiveSyncSpec` of the old state |
| Sync.SyncService.Dispatch | src/ehealth-couch-sync.js:196-201 | the callbacks called are the bucket as it was when the event arrived, and the new state is `FireAll` over them |
| Sync.SyncService.Initialize | src/ehealth-couch-sync.js:46-71 | the new state and the outcome are `InitializeSpec`'s; the progress reports are `ProgressSpec`'s |
| Sync.SyncService.Bootstrap | src/ehealth-couch-sync.js:56-70 | the empty-store branch of `InitializeSpec` and `ProgressSpec` |

## Left out

- The document store and the remote server are not modelled. This covers `pouchdb.changes`, `pouchdb.replicate[direction]`, `info`, `bulkDocs`, and the CouchDB protocol. A feed is a record in the ghost log, and its handle is its index there. The bulk write is a ghost log of document lists.
- `queryView`, `get`, `put`, `post`, `bulkDocs` and `info` (`src/ehealth-couch-sync.js:230-341`) are not modelled. They only forward to the store through promises and hold no registry logic.
- AngularJS dependency injection, `$q` promises, `$window`, `SETTINGS` and the durability of `$sessionStorage` are not modelled.
  - `lastSeq` is a plain field, and its initial value is a constructor argument.
  - A promise's settlement is the `Initialized` outcome.
  - The results of asynchronous steps are inputs gathered in `Environment`: the document count or its failure, how the remote feed ends, the bulk write error, and `update_seq`.
- Pouch.PouchDb.StartListening: the changes feed is assigned inside the `info` callback (`src/ehealth-couch-sync.js:145-146`), so two quick calls could both open a feed. The model treats the start as atomic, with `update_seq` as a parameter. The callback also ignores `err` and reads `info.update_seq` (`src/ehealth-couch-sync.js:145-147`), so when `info` fails it throws and no changes feed is stored. That failure is not modelled: the start here always opens the feed, and `Sync.SyncReplicateEffect` states that the changes feed is set afterwards with no condition on `info`.
- Sync.SyncService.Dispatch: a dispatch calls the callbacks of a snapshot of the bucket. JavaScript's `forEach` over a live array skips the entry after a callback that splices itself out. The entry right after a closure is skipped: an application callback registered after the closure misses that `complete`, and a second closure is skipped only when it comes right after the first. The model calls every entry of the snapshot, and a second closure reuses the live pull the first one stored.
- Document contents, revisions and `new_edits: false` conflict handling (`src/ehealth-couch-sync.js:332`) are not modelled. A document is an opaque record.
- The value `allChanges` passes to `deferred.notify` is not modelled, because `initialize` ignores it and counts by itself.
- Events on feeds other than `complete` on `from` are not modelled. They reach only application callbacks, which are identities with no modelled effect.
- `replicate(direction)` without an options object is not modelled. The source then fails in `setDefaults` on `options[key]`, and every caller in this file passes one.
- The closure's options are a value that `SyncService` copies back after each `replicate`, not a shared object that `replicate` writes through. These are the same values the shared object would hold, because only `replicate` and the closure itself touch it.
- Sync.SyncReplicateSpec: a closure number is consumed only in two-way mode. The source also creates a closure in one-way mode, but never registers it, so nothing can observe it.
