/**
 * The `pouchdb` factory: the replication and change observer registries, the
 * live feed slots, and the operations that start and cancel feeds. The document
 * store itself is abstract: starting a feed yields a fresh handle, the next
 * index of a ghost log that records what was started and with which options.
 */
module Pouch {
  import opened Wrappers
  import opened Callbacks

  type HandleId = nat

  /** `defaultOptions.batch_size` in `replicate`. */
  const DefaultBatchSize: int := 500

  /** The value of a replication options object at one moment. */
  datatype OptionsValue = OptionsValue(live: bool, since: Option<int>, batchSize: Option<int>, cancel: bool)

  /** A feed that was opened, in the order of opening; its handle is its index in the log. */
  datatype Feed =
    | LocalChanges(since: int)                          // live local changes feed, include_docs
    | Replication(direction: Direction, options: OptionsValue)
    | RemoteChanges                                     // one-shot changes feed of the remote store

  /** A document as the store hands it over; the revision is never interpreted. */
  datatype Document = Document(id: string, rev: string, body: string)

  /** A result row of a changes feed (`include_docs: true`). */
  datatype ChangeRow = ChangeRow(id: string, sequence: int, doc: Document)

  /** How the bulk-load changes feed of the remote store ends. */
  datatype RemoteFeed =
    | Completed(results: seq<ChangeRow>, lastSeq: int)  // one `change` event per result
    | Failed(changesSeen: nat, reason: string)          // `error` after some `change` events

  /** Whether a JavaScript value of this kind is falsy: absent, or the number 0. */
  predicate Falsy(v: Option<int>) {
    v.None? || v.value == 0
  }

  /** `setDefaults`: fill in `batch_size` only where the caller left it falsy. */
  function WithDefaults(o: OptionsValue): (r: OptionsValue)
    ensures !Falsy(r.batchSize)
    ensures Falsy(o.batchSize) ==> r.batchSize == Some(DefaultBatchSize)
    ensures !Falsy(o.batchSize) ==> r == o
    ensures r.(batchSize := o.batchSize) == o
  {
    if Falsy(o.batchSize) then o.(batchSize := Some(DefaultBatchSize)) else o
  }

  /** The abstract state of the factory, including the ghost logs. */
  datatype DbState = DbState(
    onSync: map<Bucket, seq<CallbackId>>,
    onChange: seq<CallbackId>,
    changesFeed: Option<HandleId>,
    replicationFeed: map<Direction, Option<HandleId>>,
    lastSeq: Option<int>,
    feeds: seq<Feed>,
    cancelled: seq<HandleId>)

  /** The observer list of bucket `b`; every bucket exists in a well-formed state. */
  function BucketOf(m: map<Bucket, seq<CallbackId>>, b: Bucket): seq<CallbackId> {
    if b in m then m[b] else []
  }

  /** The live replication slot of `direction`. */
  function SlotOf(m: map<Direction, Option<HandleId>>, direction: Direction): Option<HandleId> {
    if direction in m then m[direction] else None
  }

  /** Whether a logged feed keeps running until it is cancelled. */
  predicate IsLive(f: Feed) {
    f.LocalChanges? || (f.Replication? && f.options.live)
  }

  /** Whether feed `h` is the one held in its slot. */
  predicate Stored(s: DbState, h: HandleId)
    requires h < |s.feeds|
  {
    match s.feeds[h]
    case LocalChanges(_) => s.changesFeed == Some(h)
    case Replication(d, _) => SlotOf(s.replicationFeed, d) == Some(h)
    case RemoteChanges => false
  }

  /** The replication slot of `direction`, if set, holds a live feed of that direction. */
  predicate SlotOk(s: DbState, direction: Direction) {
    var slot := SlotOf(s.replicationFeed, direction);
    slot.Some? ==>
      slot.value < |s.feeds| && s.feeds[slot.value].Replication?
      && s.feeds[slot.value].direction == direction && s.feeds[slot.value].options.live
  }

  /**
   * The registry invariant: all eight buckets exist and hold no callback twice;
   * each slot holds a live feed of its own kind; and every live feed that was
   * not cancelled is the one held in its slot, so that at most one live feed
   * runs per direction and at most one live local changes feed runs.
   */
  ghost predicate Good(s: DbState) {
    (forall b: Bucket :: b in s.onSync && NoDup(s.onSync[b]))
    && NoDup(s.onChange)
    && (forall d: Direction :: d in s.replicationFeed)
    && (s.changesFeed.Some? ==>
          s.changesFeed.value < |s.feeds| && s.feeds[s.changesFeed.value].LocalChanges?)
    && SlotOk(s, To) && SlotOk(s, From)
    && (forall h :: 0 <= h < |s.feeds| && IsLive(s.feeds[h]) && h !in s.cancelled ==> Stored(s, h))
  }

  function EmptyBuckets(): map<Bucket, seq<CallbackId>> {
    map[Bucket(To, Change) := [], Bucket(To, Complete) := [], Bucket(To, Uptodate) := [], Bucket(To, Error) := [],
        Bucket(From, Change) := [], Bucket(From, Complete) := [], Bucket(From, Uptodate) := [], Bucket(From, Error) := []]
  }

  const NoFeeds: map<Direction, Option<HandleId>> := map[To := None, From := None]

  lemma EmptyBucketsCover()
    ensures forall b: Bucket :: b in EmptyBuckets() && EmptyBuckets()[b] == []
  {
    forall b: Bucket ensures b in EmptyBuckets() && EmptyBuckets()[b] == [] {
      match b
      case Bucket(To, Change) =>
      case Bucket(To, Complete) =>
      case Bucket(To, Uptodate) =>
      case Bucket(To, Error) =>
      case Bucket(From, Change) =>
      case Bucket(From, Complete) =>
      case Bucket(From, Uptodate) =>
      case Bucket(From, Error) =>
    }
  }

  lemma NoFeedsCover()
    ensures forall d: Direction :: d in NoFeeds && NoFeeds[d] == None
  {
    forall d: Direction ensures d in NoFeeds && NoFeeds[d] == None {
      match d
      case To =>
      case From =>
    }
  }

  /** The state of a freshly created factory; `lastSeq` comes from session storage. */
  function Initial(lastSeq: Option<int>): (s: DbState)
    ensures Good(s)
    ensures forall b: Bucket :: s.onSync[b] == []
  {
    EmptyBucketsCover();
    NoFeedsCover();
    DbState(EmptyBuckets(), [], None, NoFeeds, lastSeq, [], [])
  }

  /** `onSync(event, direction, callback, {remove})`. */
  function OnSyncSpec(s: DbState, event: Event, direction: Direction, callback: CallbackId, remove: bool): DbState {
    var b := Bucket(direction, event);
    var before := BucketOf(s.onSync, b);
    s.(onSync := s.onSync[b := if remove then Removed(before, callback) else Added(before, callback)])
  }

  /** `onChange(callback, remove)`. */
  function OnChangeSpec(s: DbState, callback: CallbackId, remove: bool): DbState {
    s.(onChange := if remove then Removed(s.onChange, callback) else Added(s.onChange, callback))
  }

  /** `stopListening`: cancel the stored changes feed, if any, and drop all change observers. */
  function StopListeningSpec(s: DbState): DbState {
    s.(changesFeed := None,
       cancelled := s.cancelled + (if s.changesFeed.Some? then [s.changesFeed.value] else []),
       onChange := [])
  }

  /** `listenToChanges(options)`; `updateSeq` is the local store's `info().update_seq`. */
  function ListenSpec(s: DbState, cancel: bool, updateSeq: int): DbState {
    if cancel then StopListeningSpec(s)
    else if s.changesFeed.None? then s.(changesFeed := Some(|s.feeds|), feeds := s.feeds + [LocalChanges(updateSeq)])
    else s
  }

  /** Every bucket of `direction` emptied, the other direction's buckets kept. */
  function ClearDirection(m: map<Bucket, seq<CallbackId>>, direction: Direction): map<Bucket, seq<CallbackId>> {
    map b | b in m :: if b.direction == direction then [] else m[b]
  }

  /** `stopReplication`: cancel and forget the live feed of `direction`, and empty its four buckets. */
  function StopReplicationSpec(s: DbState, direction: Direction): DbState {
    var slot := SlotOf(s.replicationFeed, direction);
    s.(replicationFeed := s.replicationFeed[direction := None],
       cancelled := s.cancelled + (if slot.Some? then [slot.value] else []),
       onSync := ClearDirection(s.onSync, direction))
  }

  /** What `replicate` leaves behind: the new state, the options object, the returned handle. */
  datatype Replicated = Replicated(state: DbState, options: OptionsValue, handle: Option<HandleId>)

  /** `replicate(direction, options)`: cancel, reuse the live feed, or start a new feed. */
  function ReplicateSpec(s: DbState, direction: Direction, o: OptionsValue): Replicated {
    var slot := SlotOf(s.replicationFeed, direction);
    if o.cancel then Replicated(StopReplicationSpec(s, direction), o, None)
    else if o.live && slot.Some? then Replicated(s, o, slot)
    else
      var started := WithDefaults(o);
      var h := |s.feeds|;
      Replicated(s.(feeds := s.feeds + [Replication(direction, started)],
                    replicationFeed := if started.live then s.replicationFeed[direction := Some(h)] else s.replicationFeed),
                 started, Some(h))
  }

  const CancelOptions: OptionsValue := OptionsValue(false, None, None, true)

  /** `cancelAllFeeds`: cancel both directions, then stop listening to local changes. */
  function CancelAllSpec(s: DbState): DbState {
    var s1 := ReplicateSpec(s, From, CancelOptions).state;
    var s2 := ReplicateSpec(s1, To, CancelOptions).state;
    ListenSpec(s2, true, 0)
  }

  /** `allChanges` as far as this state sees it: the remote feed is logged, `lastSeq` set on completion. */
  function AllChangesSpec(s: DbState, remote: RemoteFeed): DbState {
    s.(feeds := s.feeds + [RemoteChanges],
       lastSeq := if remote.Completed? then Some(remote.lastSeq) else s.lastSeq)
  }

  // ---------------------------------------------------------------------------
  // Every operation keeps the registry invariant

  lemma OnSyncKeepsGood(s: DbState, event: Event, direction: Direction, callback: CallbackId, remove: bool)
    requires Good(s)
    ensures Good(OnSyncSpec(s, event, direction, callback, remove))
  {
    var r := OnSyncSpec(s, event, direction, callback, remove);
    RemovedSubsequence(s.onSync[Bucket(direction, event)], callback);
    assert forall h :: 0 <= h < |r.feeds| ==> Stored(r, h) == Stored(s, h);
  }

  lemma OnChangeKeepsGood(s: DbState, callback: CallbackId, remove: bool)
    requires Good(s)
    ensures Good(OnChangeSpec(s, callback, remove))
  {
    RemovedSubsequence(s.onChange, callback);
    var r := OnChangeSpec(s, callback, remove);
    assert forall h :: 0 <= h < |r.feeds| ==> Stored(r, h) == Stored(s, h);
  }

  lemma ListenKeepsGood(s: DbState, cancel: bool, updateSeq: int)
    requires Good(s)
    ensures Good(ListenSpec(s, cancel, updateSeq))
  {
    var r := ListenSpec(s, cancel, updateSeq);
    if cancel {
      forall h | 0 <= h < |r.feeds| && IsLive(r.feeds[h]) && h !in r.cancelled
        ensures Stored(r, h)
      {
        assert h !in s.cancelled && Stored(s, h);
      }
    } else if s.changesFeed.None? {
      assert forall h :: 0 <= h < |s.feeds| ==> r.feeds[h] == s.feeds[h];
      forall h | 0 <= h < |r.feeds| && IsLive(r.feeds[h]) && h !in r.cancelled
        ensures Stored(r, h)
      {
        if h < |s.feeds| {
          assert Stored(s, h);
        }
      }
    }
  }

  lemma ReplicateKeepsGood(s: DbState, direction: Direction, o: OptionsValue)
    requires Good(s)
    ensures Good(ReplicateSpec(s, direction, o).state)
  {
    var r := ReplicateSpec(s, direction, o).state;
    var slot := SlotOf(s.replicationFeed, direction);
    if o.cancel {
      forall h | 0 <= h < |r.feeds| && IsLive(r.feeds[h]) && h !in r.cancelled
        ensures Stored(r, h)
      {
        assert h !in s.cancelled && Stored(s, h);
      }
    } else if !(o.live && slot.Some?) {
      assert forall h :: 0 <= h < |s.feeds| ==> r.feeds[h] == s.feeds[h];
      forall h | 0 <= h < |r.feeds| && IsLive(r.feeds[h]) && h !in r.cancelled
        ensures Stored(r, h)
      {
        if h < |s.feeds| {
          assert Stored(s, h);
        }
      }
    }
  }

  lemma CancelAllKeepsGood(s: DbState)
    requires Good(s)
    ensures Good(CancelAllSpec(s))
  {
    ReplicateKeepsGood(s, From, CancelOptions);
    var s1 := ReplicateSpec(s, From, CancelOptions).state;
    ReplicateKeepsGood(s1, To, CancelOptions);
    ListenKeepsGood(ReplicateSpec(s1, To, CancelOptions).state, true, 0);
  }

  lemma AllChangesKeepsGood(s: DbState, remote: RemoteFeed)
    requires Good(s)
    ensures Good(AllChangesSpec(s, remote))
  {
    var r := AllChangesSpec(s, remote);
    assert forall h :: 0 <= h < |s.feeds| ==> r.feeds[h] == s.feeds[h];
    forall h | 0 <= h < |r.feeds| && IsLive(r.feeds[h]) && h !in r.cancelled
      ensures Stored(r, h)
    {
      assert h < |s.feeds| && Stored(s, h);
    }
  }

  // ---------------------------------------------------------------------------
  // Properties of the registry operations

  /** Registering or removing touches only the named bucket and nothing else of the state. */
  lemma OnSyncTouchesOneBucket(s: DbState, event: Event, direction: Direction, callback: CallbackId, remove: bool)
    ensures var r := OnSyncSpec(s, event, direction, callback, remove);
      && r.(onSync := s.onSync) == s
      && r.onSync.Keys == s.onSync.Keys + {Bucket(direction, event)}
      && (forall b :: b != Bucket(direction, event) ==> BucketOf(r.onSync, b) == BucketOf(s.onSync, b))
  {
  }

  /**
   * The named bucket after `onSync`: a second registration changes nothing, a
   * new one is appended, and removing a registered callback deletes just it.
   */
  lemma OnSyncBucket(s: DbState, event: Event, direction: Direction, callback: CallbackId, remove: bool)
    requires Good(s)
    ensures var before := BucketOf(s.onSync, Bucket(direction, event));
      var after := BucketOf(OnSyncSpec(s, event, direction, callback, remove).onSync, Bucket(direction, event));
      && (!remove && callback in before ==> after == before)
      && (!remove && callback !in before ==> after == before + [callback])
      && (remove && callback in before ==> after == Without(before, callback) && callback !in after)
      && (remove && callback !in before && before != [] ==> after == before[..|before| - 1])
  {
    var before := BucketOf(s.onSync, Bucket(direction, event));
    if remove && callback in before {
      RemovedRegistered(before, callback);
    }
    if remove && callback !in before {
      RemovedUnregistered(before, callback);
    }
  }

  /** A live `replicate` for a direction that already holds a live feed returns that feed and changes nothing. */
  lemma ReplicateLiveIsIdempotent(s: DbState, direction: Direction, o: OptionsValue)
    requires o.live && !o.cancel && SlotOf(s.replicationFeed, direction).Some?
    ensures ReplicateSpec(s, direction, o) == Replicated(s, o, SlotOf(s.replicationFeed, direction))
  {
  }

  /**
   * Starting a replication opens exactly one feed, with the defaulted options,
   * returns its fresh handle, and stores it only when the feed is live.
   */
  lemma ReplicateStarts(s: DbState, direction: Direction, o: OptionsValue)
    requires !o.cancel && !(o.live && SlotOf(s.replicationFeed, direction).Some?)
    ensures var r := ReplicateSpec(s, direction, o);
      && r.handle == Some(|s.feeds|)
      && r.options == WithDefaults(o)
      && r.state.feeds == s.feeds + [Replication(direction, WithDefaults(o))]
      && (o.live ==> r.state.replicationFeed == s.replicationFeed[direction := Some(|s.feeds|)])
      && (!o.live ==> r.state.replicationFeed == s.replicationFeed)
      && r.state.(feeds := s.feeds, replicationFeed := s.replicationFeed) == s
  {
  }

  /**
   * `replicate(direction, {cancel: true})` cancels the stored feed, if any,
   * leaves the slot empty, empties the four buckets of the direction, and keeps
   * the other direction's slot and buckets.
   */
  lemma ReplicateCancel(s: DbState, direction: Direction, o: OptionsValue)
    requires o.cancel
    ensures var r := ReplicateSpec(s, direction, o);
      var slot := SlotOf(s.replicationFeed, direction);
      && r.handle == None
      && r.options == o
      && r.state.replicationFeed == s.replicationFeed[direction := None]
      && r.state.cancelled == s.cancelled + (if slot.Some? then [slot.value] else [])
      && (forall e: Event :: BucketOf(r.state.onSync, Bucket(direction, e)) == [])
      && (forall b: Bucket :: b.direction != direction ==> BucketOf(r.state.onSync, b) == BucketOf(s.onSync, b))
      && r.state.onSync.Keys == s.onSync.Keys
      && r.state.feeds == s.feeds && r.state.changesFeed == s.changesFeed && r.state.onChange == s.onChange
  {
  }

  /** `listenToChanges()` opens a live changes feed only when none is stored. */
  lemma ListenStartsOnce(s: DbState, updateSeq: int)
    ensures var r := ListenSpec(s, false, updateSeq);
      && (s.changesFeed.Some? ==> r == s)
      && (s.changesFeed.None? ==>
            r == s.(changesFeed := Some(|s.feeds|), feeds := s.feeds + [LocalChanges(updateSeq)]))
  {
  }

  /** `listenToChanges({cancel: true})` cancels and forgets the stored feed and drops every change observer. */
  lemma ListenCancel(s: DbState, updateSeq: int)
    ensures var r := ListenSpec(s, true, updateSeq);
      && r.changesFeed == None && r.onChange == []
      && r.cancelled == s.cancelled + (if s.changesFeed.Some? then [s.changesFeed.value] else [])
      && r.(changesFeed := s.changesFeed, onChange := s.onChange, cancelled := s.cancelled) == s
  {
  }

  /** Two live feeds of the same kind and direction that are both still running are the same feed. */
  lemma AtMostOneLiveFeed(s: DbState, h1: HandleId, h2: HandleId)
    requires Good(s)
    requires h1 < |s.feeds| && h2 < |s.feeds|
    requires IsLive(s.feeds[h1]) && IsLive(s.feeds[h2])
    requires h1 !in s.cancelled && h2 !in s.cancelled
    requires s.feeds[h1].LocalChanges? == s.feeds[h2].LocalChanges?
    requires s.feeds[h1].Replication? ==> s.feeds[h2].Replication? && s.feeds[h1].direction == s.feeds[h2].direction
    ensures h1 == h2
  {
    assert Stored(s, h1) && Stored(s, h2);
  }

  /**
   * `cancelAllFeeds` leaves both replication slots and the changes slot empty,
   * every observer list empty, and no live feed running.
   */
  lemma CancelAllReleasesEverything(s: DbState)
    requires Good(s)
    ensures var r := CancelAllSpec(s);
      && r.replicationFeed == s.replicationFeed[From := None][To := None]
      && r.changesFeed == None
      && r.onChange == []
      && (forall b: Bucket :: BucketOf(r.onSync, b) == [])
      && r.feeds == s.feeds && r.lastSeq == s.lastSeq
      && (forall h :: 0 <= h < |r.feeds| && IsLive(r.feeds[h]) ==> h in r.cancelled)
  {
    CancelAllKeepsGood(s);
    var r := CancelAllSpec(s);
    forall d: Direction ensures SlotOf(r.replicationFeed, d) == None {
      match d
      case To =>
      case From =>
    }
    forall h | 0 <= h < |r.feeds| && IsLive(r.feeds[h]) ensures h in r.cancelled {
      assert !Stored(r, h);
    }
  }

  /** After `cancelAllFeeds`, `listenToChanges()` opens a fresh changes feed. */
  lemma ListenAfterCancelAll(s: DbState, updateSeq: int)
    ensures var c := CancelAllSpec(s);
      var r := ListenSpec(c, false, updateSeq);
      && r.changesFeed == Some(|s.feeds|)
      && r.feeds == s.feeds + [LocalChanges(updateSeq)]
  {
  }

  // ---------------------------------------------------------------------------
  // The objects

  /** A JavaScript options object passed to `replicate`; `replicate` writes into it. */
  class Options {
    var live: bool
    var since: Option<int>
    var batchSize: Option<int>
    var cancel: bool

    constructor (v: OptionsValue)
      ensures Value() == v
    {
      live, since, batchSize, cancel := v.live, v.since, v.batchSize, v.cancel;
    }

    function Value(): OptionsValue
      reads this
    {
      OptionsValue(live, since, batchSize, cancel)
    }
  }

  /** `setDefaults`: the caller's options object itself receives the default `batch_size`. */
  method SetDefaults(options: Options)
    modifies options
    ensures options.Value() == WithDefaults(old(options.Value()))
  {
    if Falsy(options.batchSize) {
      options.batchSize := Some(DefaultBatchSize);
    }
  }

  /** The `pouchdb` factory's state: observer lists, live feed slots and the session's `lastSeq`. */
  class PouchDb {
    var onSyncCallbacks: map<Bucket, seq<CallbackId>>
    var onChangeCallbacks: seq<CallbackId>
    var liveChangesFeed: Option<HandleId>
    var liveReplicationFeed: map<Direction, Option<HandleId>>
    var lastSeq: Option<int>
    var nextHandle: HandleId
    ghost var feeds: seq<Feed>
    ghost var cancelled: seq<HandleId>

    ghost function State(): DbState
      reads this
    {
      DbState(onSyncCallbacks, onChangeCallbacks, liveChangesFeed, liveReplicationFeed, lastSeq, feeds, cancelled)
    }

    ghost predicate Valid()
      reads this
    {
      nextHandle == |feeds| && Good(State())
    }

    constructor (storedLastSeq: Option<int>)
      ensures Valid() && State() == Initial(storedLastSeq)
    {
      onSyncCallbacks := EmptyBuckets();
      onChangeCallbacks := [];
      liveChangesFeed := None;
      liveReplicationFeed := NoFeeds;
      lastSeq := storedLastSeq;
      nextHandle := 0;
      feeds := [];
      cancelled := [];
      ghost var _ := Initial(storedLastSeq);
    }

    /** The store opens feed `f`; the handle it returns is fresh. */
    method Open(f: Feed) returns (h: HandleId)
      requires nextHandle == |feeds|
      modifies this
      ensures h == old(nextHandle) && nextHandle == |feeds|
      ensures State() == old(State()).(feeds := old(feeds) + [f])
    {
      h := nextHandle;
      nextHandle := nextHandle + 1;
      feeds := feeds + [f];
    }

    /** `handle.cancel()`, recorded in the ghost log. */
    ghost method Cancel(h: HandleId)
      modifies this
      ensures State() == old(State()).(cancelled := old(cancelled) + [h])
      ensures nextHandle == old(nextHandle)
    {
      cancelled := cancelled + [h];
    }

    /** `onSync(event, direction, callback, {remove})`. */
    method OnSync(event: Event, direction: Direction, callback: CallbackId, remove: bool)
      requires Valid()
      modifies this
      ensures Valid() && State() == OnSyncSpec(old(State()), event, direction, callback, remove)
    {
      OnSyncKeepsGood(State(), event, direction, callback, remove);
      var b := Bucket(direction, event);
      if remove {
        onSyncCallbacks := onSyncCallbacks[b := SpliceOne(onSyncCallbacks[b], IndexOf(onSyncCallbacks[b], callback))];
      } else if IndexOf(onSyncCallbacks[b], callback) == -1 {
        onSyncCallbacks := onSyncCallbacks[b := onSyncCallbacks[b] + [callback]];
      }
    }

    /** `onChange(callback, remove)`. */
    method OnChange(callback: CallbackId, remove: bool)
      requires Valid()
      modifies this
      ensures Valid() && State() == OnChangeSpec(old(State()), callback, remove)
    {
      OnChangeKeepsGood(State(), callback, remove);
      if remove {
        onChangeCallbacks := SpliceOne(onChangeCallbacks, IndexOf(onChangeCallbacks, callback));
      } else if IndexOf(onChangeCallbacks, callback) == -1 {
        onChangeCallbacks := onChangeCallbacks + [callback];
      }
    }

    /** The local changes feed emits `change`: every change observer is called, in order. */
    method EmitLocalChange() returns (invoked: seq<CallbackId>)
      requires Valid()
      ensures invoked == onChangeCallbacks && NoDup(invoked)
    {
      invoked := [];
      for i := 0 to |onChangeCallbacks|
        invariant invoked == onChangeCallbacks[..i]
      {
        invoked := invoked + [onChangeCallbacks[i]];
      }
    }

    method StopListening()
      requires Valid()
      modifies this
      ensures Valid() && State() == StopListeningSpec(old(State()))
    {
      ListenKeepsGood(State(), true, 0);
      if liveChangesFeed.Some? {
        Cancel(liveChangesFeed.value);
        liveChangesFeed := None;
      }
      onChangeCallbacks := [];
    }

    method StartListening(updateSeq: int)
      requires Valid() && liveChangesFeed.None?
      modifies this
      ensures Valid() && State() == ListenSpec(old(State()), false, updateSeq)
    {
      ListenKeepsGood(State(), false, updateSeq);
      var h := Open(LocalChanges(updateSeq));
      liveChangesFeed := Some(h);
    }

    /** `listenToChanges(options)`; `updateSeq` is what the local store's `info` reports. */
    method ListenToChanges(cancel: bool, updateSeq: int)
      requires Valid()
      modifies this
      ensures Valid() && State() == ListenSpec(old(State()), cancel, updateSeq)
    {
      if cancel {
        StopListening();
        return;
      }
      if liveChangesFeed.None? {
        StartListening(updateSeq);
      }
    }

    method StopReplication(direction: Direction)
      requires Valid()
      modifies this
      ensures Valid() && State() == StopReplicationSpec(old(State()), direction)
    {
      ReplicateKeepsGood(State(), direction, CancelOptions);
      if liveReplicationFeed[direction].Some? {
        Cancel(liveReplicationFeed[direction].value);
        liveReplicationFeed := liveReplicationFeed[direction := None];
      }
      onSyncCallbacks := ClearDirection(onSyncCallbacks, direction);
    }

    method StartReplication(direction: Direction, options: Options) returns (h: HandleId)
      requires Valid() && !options.cancel && !(options.live && liveReplicationFeed[direction].Some?)
      requires !Falsy(options.batchSize)
      modifies this
      ensures Valid()
      ensures Replicated(State(), options.Value(), Some(h)) == ReplicateSpec(old(State()), direction, options.Value())
    {
      ReplicateKeepsGood(State(), direction, options.Value());
      ghost var expected := ReplicateSpec(State(), direction, options.Value());
      h := Open(Replication(direction, options.Value()));
      if options.live {
        liveReplicationFeed := liveReplicationFeed[direction := Some(h)];
      }
      assert State() == expected.state;
    }

    /** `replicate(direction, options)`; returns the feed's handle, or nothing when cancelling. */
    method Replicate(direction: Direction, options: Options) returns (r: Option<HandleId>)
      requires Valid()
      modifies this, options
      ensures Valid()
      ensures Replicated(State(), options.Value(), r) == ReplicateSpec(old(State()), direction, old(options.Value()))
    {
      if options.cancel {
        StopReplication(direction);
        return None;
      }
      if options.live && liveReplicationFeed[direction].Some? {
        return liveReplicationFeed[direction];
      }
      SetDefaults(options);
      var h := StartReplication(direction, options);
      return Some(h);
    }

    /** `cancelAllFeeds`. */
    method CancelAllFeeds()
      requires Valid()
      modifies this
      ensures Valid() && State() == CancelAllSpec(old(State()))
    {
      var fromOptions := new Options(CancelOptions);
      var _ := Replicate(From, fromOptions);
      var toOptions := new Options(CancelOptions);
      var _ := Replicate(To, toOptions);
      ListenToChanges(true, 0);
    }

    /**
     * `allChanges`: a one-shot changes feed of the remote store; on `complete`
     * the session's `lastSeq` becomes the feed's `last_seq`.
     */
    method AllChanges(remote: RemoteFeed) returns (r: Result<seq<ChangeRow>>)
      requires Valid()
      modifies this
      ensures Valid() && State() == AllChangesSpec(old(State()), remote)
      ensures r == match remote
        case Completed(rows, _) => Ok(rows)
        case Failed(_, reason) => Err(reason)
    {
      AllChangesKeepsGood(State(), remote);
      var _ := Open(RemoteChanges);
      match remote
      case Completed(rows, last) =>
        lastSeq := Some(last);
        r := Ok(rows);
      case Failed(_, reason) =>
        r := Err(reason);
    }
  }
}
