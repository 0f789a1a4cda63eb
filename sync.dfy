/**
 * The `sync` factory: `replicate(twoway)` with its one-shot pull that hands
 * over to a live pull through a self-removing `startLiveSync` closure, and
 * `initialize`, which bulk-loads an empty local store before replicating.
 */
module Sync {
  import opened Wrappers
  import opened Callbacks
  import opened Pouch

  /** The bucket the `startLiveSync` closures are registered in. */
  const FromComplete: Bucket := Bucket(From, Complete)

  /** `{live: true}`, the options of the push feed. */
  const LivePush: OptionsValue := OptionsValue(true, None, None, false)

  /** `{}`, the options object each `replicate` call creates. */
  const EmptyOptions: OptionsValue := OptionsValue(false, None, None, false)

  /** `if ($sessionStorage.lastSeq) options.since = $sessionStorage.lastSeq`. */
  function SinceFor(lastSeq: Option<int>): (since: Option<int>)
    ensures since.Some? <==> !Falsy(lastSeq)
    ensures since.Some? ==> since == lastSeq
  {
    if Falsy(lastSeq) then None else lastSeq
  }

  /** `wasInitialized`: the local store already holds documents. */
  predicate WasInitialized(docCount: int) {
    docCount > 0
  }

  /**
   * The sync service's abstract state: the registry's state, the options
   * object captured by each `startLiveSync` closure made so far, the number of
   * closures made, and the ghost log of bulk writes into the local store.
   */
  datatype SyncState = SyncState(
    db: DbState,
    handoffs: map<nat, OptionsValue>,
    nextClosure: nat,
    written: seq<seq<Document>>)

  /**
   * Every `startLiveSync` closure made so far holds options that do not ask
   * for cancellation and already carry the batch size `setDefaults` wrote.
   */
  predicate Settled(handoffs: map<nat, OptionsValue>) {
    forall n :: n in handoffs ==> !handoffs[n].cancel && !Falsy(handoffs[n].batchSize)
  }

  /**
   * The registry invariant, plus: closure numbers are below the counter, a
   * closure's options never ask for cancellation and carry a batch size, and `startLiveSync` closures
   * sit only in the ('complete', 'from') bucket, only for closures that were
   * made; change observers all belong to the application.
   */
  ghost predicate SyncGood(t: SyncState) {
    Good(t.db)
    && (forall n :: n in t.handoffs ==> n < t.nextClosure)
    && Settled(t.handoffs)
    && (forall b, cb :: b in t.db.onSync && cb in t.db.onSync[b] && cb.LiveSync? ==>
          b == FromComplete && cb.closure in t.handoffs)
    && (forall cb :: cb in t.db.onChange ==> cb.App?)
  }

  /** `listenToChanges()` and the live push: the part of `replicate(twoway)` both modes run. */
  function ListenAndPushSpec(t: SyncState, updateSeq: int): SyncState {
    t.(db := ReplicateSpec(ListenSpec(t.db, false, updateSeq), To, LivePush).state)
  }

  /** The two-way part: a fresh `startLiveSync` closure is registered and the one-shot pull opened. */
  function OneShotPullSpec(t: SyncState): SyncState {
    var id := t.nextClosure;
    var s := OnSyncSpec(t.db, Complete, From, LiveSync(id), false);
    var pulled := ReplicateSpec(s, From, EmptyOptions.(since := SinceFor(t.db.lastSeq)));
    t.(db := pulled.state, handoffs := t.handoffs[id := pulled.options], nextClosure := id + 1)
  }

  /** `replicate(twoway)` of the sync service. */
  function SyncReplicateSpec(t: SyncState, twoway: bool, updateSeq: int): SyncState {
    var pushed := ListenAndPushSpec(t, updateSeq);
    if twoway then OneShotPullSpec(pushed) else pushed
  }

  /** One run of the `startLiveSync` closure number `n`. */
  function StartLiveSyncSpec(t: SyncState, n: nat): (r: SyncState)
    requires n in t.handoffs
    ensures r.handoffs.Keys == t.handoffs.Keys
    ensures Settled(t.handoffs) ==> Settled(r.handoffs)
  {
    var s1 := OnSyncSpec(t.db, Complete, From, LiveSync(n), true);
    var pulled := ReplicateSpec(s1, From, t.handoffs[n].(live := true));
    t.(db := pulled.state, handoffs := t.handoffs[n := pulled.options])
  }

  /** Calling one callback: only a `startLiveSync` closure acts on this state. */
  function Fire(t: SyncState, cb: CallbackId): (r: SyncState)
    ensures r.handoffs.Keys == t.handoffs.Keys
    ensures Settled(t.handoffs) ==> Settled(r.handoffs)
  {
    if cb.LiveSync? && cb.closure in t.handoffs then StartLiveSyncSpec(t, cb.closure) else t
  }

  /** Dispatching an event to the callbacks `cbs`, in order. */
  function FireAll(t: SyncState, cbs: seq<CallbackId>): (r: SyncState)
    ensures r.handoffs.Keys == t.handoffs.Keys
    ensures Settled(t.handoffs) ==> Settled(r.handoffs)
    decreases |cbs|
  {
    if cbs == [] then t else Fire(FireAll(t, cbs[..|cbs| - 1]), cbs[|cbs| - 1])
  }

  lemma FireAllSnoc(t: SyncState, cbs: seq<CallbackId>, cb: CallbackId)
    ensures FireAll(t, cbs + [cb]) == Fire(FireAll(t, cbs), cb)
  {
    assert (cbs + [cb])[..|cbs|] == cbs;
  }

  // ---------------------------------------------------------------------------
  // The invariant is kept

  lemma ListenAndPushKeepsGood(t: SyncState, updateSeq: int)
    requires SyncGood(t)
    ensures SyncGood(ListenAndPushSpec(t, updateSeq))
  {
    var s1 := ListenSpec(t.db, false, updateSeq);
    ListenKeepsGood(t.db, false, updateSeq);
    ReplicateKeepsGood(s1, To, LivePush);
  }

  lemma OneShotPullKeepsGood(t: SyncState)
    requires SyncGood(t)
    ensures SyncGood(OneShotPullSpec(t))
  {
    var id := t.nextClosure;
    OnSyncKeepsGood(t.db, Complete, From, LiveSync(id), false);
    var s := OnSyncSpec(t.db, Complete, From, LiveSync(id), false);
    ReplicateKeepsGood(s, From, EmptyOptions.(since := SinceFor(t.db.lastSeq)));
    var r := OneShotPullSpec(t);
    assert r.db.onSync == s.onSync;
    forall b, cb | b in r.db.onSync && cb in r.db.onSync[b] && cb.LiveSync?
      ensures b == FromComplete && cb.closure in r.handoffs
    {
      if b != FromComplete || cb != LiveSync(id) {
        assert cb in t.db.onSync[b];
      }
    }
  }

  lemma SyncReplicateKeepsGood(t: SyncState, twoway: bool, updateSeq: int)
    requires SyncGood(t)
    ensures SyncGood(SyncReplicateSpec(t, twoway, updateSeq))
  {
    ListenAndPushKeepsGood(t, updateSeq);
    if twoway {
      OneShotPullKeepsGood(ListenAndPushSpec(t, updateSeq));
    }
  }

  lemma StartLiveSyncKeepsGood(t: SyncState, n: nat)
    requires SyncGood(t) && n in t.handoffs
    ensures SyncGood(StartLiveSyncSpec(t, n))
  {
    OnSyncKeepsGood(t.db, Complete, From, LiveSync(n), true);
    RemovedSubsequence(t.db.onSync[FromComplete], LiveSync(n));
    var s1 := OnSyncSpec(t.db, Complete, From, LiveSync(n), true);
    ReplicateKeepsGood(s1, From, t.handoffs[n].(live := true));
    var r := StartLiveSyncSpec(t, n);
    assert r.db.onSync == s1.onSync && r.db.onChange == t.db.onChange;
    forall b, cb | b in r.db.onSync && cb in r.db.onSync[b] && cb.LiveSync?
      ensures b == FromComplete && cb.closure in r.handoffs
    {
      assert cb in t.db.onSync[b];
    }
  }

  lemma {:induction false} FireAllKeepsGood(t: SyncState, cbs: seq<CallbackId>)
    requires SyncGood(t)
    ensures SyncGood(FireAll(t, cbs))
    decreases |cbs|
  {
    if cbs != [] {
      var u := FireAll(t, cbs[..|cbs| - 1]);
      FireAllKeepsGood(t, cbs[..|cbs| - 1]);
      var cb := cbs[|cbs| - 1];
      if cb.LiveSync? && cb.closure in u.handoffs {
        StartLiveSyncKeepsGood(u, cb.closure);
      }
    }
  }

  // ---------------------------------------------------------------------------
  // What `replicate` and the handoff do

  /** The application callbacks of `cbs`, in order. */
  function AppCallbacks(cbs: seq<CallbackId>): (apps: seq<CallbackId>)
    ensures forall cb :: cb in apps ==> cb.App? && cb in cbs
    ensures (forall cb :: cb in cbs ==> cb.App?) ==> apps == cbs
    ensures NoDup(cbs) ==> NoDup(apps)
    decreases |cbs|
  {
    if cbs == [] then []
    else
      var last := cbs[|cbs| - 1];
      assert cbs == cbs[..|cbs| - 1] + [last];
      AppCallbacks(cbs[..|cbs| - 1]) + (if last.App? then [last] else [])
  }

  lemma AppCallbacksSnoc(cbs: seq<CallbackId>, cb: CallbackId)
    ensures AppCallbacks(cbs + [cb]) == AppCallbacks(cbs) + (if cb.App? then [cb] else [])
  {
    assert (cbs + [cb])[..|cbs|] == cbs;
  }

  /** The closure of the first `startLiveSync` in `cbs` that belongs to `closures`. */
  function FirstHandoff(cbs: seq<CallbackId>, closures: set<nat>): (first: Option<nat>)
    ensures first.Some? ==> first.value in closures && LiveSync(first.value) in cbs
    ensures first.None? ==> forall cb :: cb in cbs && cb.LiveSync? ==> cb.closure !in closures
    decreases |cbs|
  {
    if cbs == [] then None
    else
      var last := cbs[|cbs| - 1];
      assert cbs == cbs[..|cbs| - 1] + [last];
      var earlier := FirstHandoff(cbs[..|cbs| - 1], closures);
      if earlier.Some? then earlier
      else if last.LiveSync? && last.closure in closures then Some(last.closure)
      else None
  }

  /**
   * One run of `startLiveSync`: it removes itself (as `splice(indexOf(...), 1)`
   * does), sets `live` on its own options object, and opens a live pull with
   * those options only when no live pull is stored.
   */
  lemma StartLiveSyncEffect(t: SyncState, n: nat)
    requires n in t.handoffs && !t.handoffs[n].cancel && !Falsy(t.handoffs[n].batchSize)
    ensures var r := StartLiveSyncSpec(t, n);
      var v := t.handoffs[n].(live := true);
      var slot := SlotOf(t.db.replicationFeed, From);
      && r.db.onSync == t.db.onSync[FromComplete := Removed(BucketOf(t.db.onSync, FromComplete), LiveSync(n))]
      && r.handoffs == t.handoffs[n := v]
      && r.db.onChange == t.db.onChange && r.db.lastSeq == t.db.lastSeq
      && r.db.changesFeed == t.db.changesFeed && r.db.cancelled == t.db.cancelled
      && r.nextClosure == t.nextClosure && r.written == t.written
      && (slot.Some? ==> r.db.feeds == t.db.feeds && r.db.replicationFeed == t.db.replicationFeed)
      && (slot.None? ==> r.db.feeds == t.db.feeds + [Replication(From, v)]
                         && r.db.replicationFeed == t.db.replicationFeed[From := Some(|t.db.feeds|)])
  {
    var s1 := OnSyncSpec(t.db, Complete, From, LiveSync(n), true);
    var v := t.handoffs[n].(live := true);
    if SlotOf(t.db.replicationFeed, From).Some? {
      ReplicateLiveIsIdempotent(s1, From, v);
    } else {
      ReplicateStarts(s1, From, v);
    }
  }

  /** Dropping entries before `x` from a list without duplicates keeps it without duplicates. */
  lemma WindowNoDup(prefix: seq<CallbackId>, x: CallbackId, rest: seq<CallbackId>, done: seq<CallbackId>)
    requires NoDup(prefix + [x] + rest) && NoDup(done)
    requires forall y :: y in done ==> y in prefix
    ensures NoDup(done + [x] + rest)
  {
    var s := prefix + [x] + rest;
    var w := done + [x] + rest;
    forall j, k | 0 <= j < k < |w| ensures w[j] != w[k] {
      if k >= |done| {
        assert w[k] == s[|prefix| + (k - |done|)];
        if j >= |done| {
          assert w[j] == s[|prefix| + (j - |done|)];
        } else {
          assert w[j] in prefix;
          var m :| 0 <= m < |prefix| && prefix[m] == w[j];
          assert s[m] == w[j];
        }
      }
    }
  }

  /**
   * Calling one entry of the ('complete', 'from') bucket: a `startLiveSync`
   * closure removes itself and leaves the entries around it in place; an
   * application callback changes nothing here.
   */
  lemma FireBucketStep(u: SyncState, apps: seq<CallbackId>, cb: CallbackId, rest: seq<CallbackId>)
    requires FromComplete in u.db.onSync && u.db.onSync[FromComplete] == apps + [cb] + rest
    requires NoDup(apps + [cb] + rest)
    requires cb.LiveSync? ==> cb.closure in u.handoffs && !u.handoffs[cb.closure].cancel && !Falsy(u.handoffs[cb.closure].batchSize)
    ensures Fire(u, cb).db.onSync == u.db.onSync[FromComplete := apps + (if cb.App? then [cb] else []) + rest]
  {
    if cb.LiveSync? {
      StartLiveSyncEffect(u, cb.closure);
      RemovedMiddle(apps, cb, rest);
      assert apps + [] + rest == apps + rest;
    } else {
      assert u.db.onSync[FromComplete := apps + [cb] + rest] == u.db.onSync;
    }
  }

  /** The window a dispatch leaves after the application callbacks of `earlier`. */
  lemma AppsWindow(earlier: seq<CallbackId>, cb: CallbackId, rest: seq<CallbackId>)
    requires NoDup(earlier + ([cb] + rest))
    ensures var apps := AppCallbacks(earlier);
      apps + ([cb] + rest) == apps + [cb] + rest && NoDup(apps + [cb] + rest)
  {
    NoDupSplit(earlier, [cb] + rest);
    assert earlier + ([cb] + rest) == earlier + [cb] + rest;
    WindowNoDup(earlier, cb, rest, AppCallbacks(earlier));
  }

  lemma UpdateTwice<K, V>(m: map<K, V>, k: K, a: V, b: V)
    ensures m[k := a][k := b] == m[k := b]
  {
  }

  lemma FireAllBucketSnoc(t: SyncState, earlier: seq<CallbackId>, cb: CallbackId, rest: seq<CallbackId>)
    requires var apps := AppCallbacks(earlier); var u := FireAll(t, earlier);
      && u.db.onSync == t.db.onSync[FromComplete := apps + [cb] + rest]
      && Fire(u, cb).db.onSync == u.db.onSync[FromComplete := apps + (if cb.App? then [cb] else []) + rest]
    ensures FireAll(t, earlier + [cb]).db.onSync ==
            t.db.onSync[FromComplete := AppCallbacks(earlier + [cb]) + rest]
  {
    var apps := AppCallbacks(earlier);
    var m := t.db.onSync;
    var bucket := apps + (if cb.App? then [cb] else []) + rest;
    FireAllSnoc(t, earlier, cb);
    AppCallbacksSnoc(earlier, cb);
    assert AppCallbacks(earlier + [cb]) + rest == bucket;
    UpdateTwice(m, FromComplete, apps + [cb] + rest, bucket);
  }

  /**
   * While a dispatch of the ('complete', 'from') bucket runs through its
   * snapshot, each `startLiveSync` already called has removed itself and the
   * application callbacks keep their places; no other bucket changes.
   */
  lemma {:induction false} FireAllBucket(t: SyncState, done: seq<CallbackId>, rest: seq<CallbackId>)
    requires FromComplete in t.db.onSync && t.db.onSync[FromComplete] == done + rest
    requires NoDup(done + rest) && Settled(t.handoffs)
    requires forall cb :: cb in done + rest && cb.LiveSync? ==> cb.closure in t.handoffs
    ensures FireAll(t, done).db.onSync == t.db.onSync[FromComplete := AppCallbacks(done) + rest]
    decreases |done|
  {
    if done == [] {
      assert [] + rest == rest;
    } else {
      var earlier := done[..|done| - 1];
      var cb := done[|done| - 1];
      var u := FireAll(t, earlier);
      var apps := AppCallbacks(earlier);
      assert done == earlier + [cb];
      assert u.db.onSync == t.db.onSync[FromComplete := apps + [cb] + rest]
        && NoDup(apps + [cb] + rest)
        && (cb.LiveSync? ==> cb.closure in u.handoffs && !u.handoffs[cb.closure].cancel && !Falsy(u.handoffs[cb.closure].batchSize))
      by {
        assert done + rest == earlier + ([cb] + rest);
        NoDupSplit(earlier, [cb] + rest);
        FireAllBucket(t, earlier, [cb] + rest);
        AppsWindow(earlier, cb, rest);
        assert cb.LiveSync? ==> cb in done + rest;
      }
      FireBucketStep(u, apps, cb, rest);
      FireAllBucketSnoc(t, earlier, cb, rest);
    }
  }


  /** `FirstHandoff` is the earliest pending closure: no entry before its first occurrence is one. */
  lemma {:induction false} FirstHandoffEarliest(cbs: seq<CallbackId>, closures: set<nat>)
    ensures var first := FirstHandoff(cbs, closures);
      first.Some? ==>
        var i := IndexOf(cbs, LiveSync(first.value));
        0 <= i && forall j :: 0 <= j < i ==> !(cbs[j].LiveSync? && cbs[j].closure in closures)
    decreases |cbs|
  {
    if cbs != [] {
      var p := cbs[..|cbs| - 1];
      var last := cbs[|cbs| - 1];
      assert cbs == p + [last];
      FirstHandoffEarliest(p, closures);
      var earlier := FirstHandoff(p, closures);
      var first := FirstHandoff(cbs, closures);
      if first.Some? {
        var x := LiveSync(first.value);
        var i := IndexOf(cbs, x);
        if earlier.Some? {
          var k := IndexOf(p, x);
          assert cbs[k] == x;
          assert i <= k;
          forall j | 0 <= j < i ensures !(cbs[j].LiveSync? && cbs[j].closure in closures) {
            assert cbs[j] == p[j];
          }
        } else {
          forall j | 0 <= j < i ensures !(cbs[j].LiveSync? && cbs[j].closure in closures) {
            assert cbs[j] == p[j] && p[j] in p;
          }
        }
      }
    }
  }

  lemma FirstHandoffSnoc(cbs: seq<CallbackId>, cb: CallbackId, closures: set<nat>)
    ensures FirstHandoff(cbs + [cb], closures) ==
            if FirstHandoff(cbs, closures).Some? then FirstHandoff(cbs, closures)
            else if cb.LiveSync? && cb.closure in closures then Some(cb.closure)
            else None
  {
    assert (cbs + [cb])[..|cbs|] == cbs;
  }

  /**
   * Dispatching to `cbs`: every closure called marks its options live, the
   * first one opens the live pull (with those options) when no live pull is
   * stored, and later ones reuse it; nothing else of the state changes.
   */
  lemma {:induction false} FireAllEffect(t: SyncState, cbs: seq<CallbackId>)
    requires Settled(t.handoffs)
    ensures var r := FireAll(t, cbs);
      var slot := SlotOf(t.db.replicationFeed, From);
      var first := FirstHandoff(cbs, t.handoffs.Keys);
      && r.db.onChange == t.db.onChange && r.db.lastSeq == t.db.lastSeq
      && r.db.changesFeed == t.db.changesFeed && r.db.cancelled == t.db.cancelled
      && r.nextClosure == t.nextClosure && r.written == t.written
      && ((slot.Some? || first.None?) ==>
            r.db.feeds == t.db.feeds && r.db.replicationFeed == t.db.replicationFeed)
      && ((slot.None? && first.Some?) ==>
            r.db.feeds == t.db.feeds + [Replication(From, t.handoffs[first.value].(live := true))]
            && r.db.replicationFeed == t.db.replicationFeed[From := Some(|t.db.feeds|)])
      && (forall n :: n in t.handoffs ==>
            r.handoffs[n] == if LiveSync(n) in cbs then t.handoffs[n].(live := true) else t.handoffs[n])
    decreases |cbs|
  {
    if cbs != [] {
      var earlier := cbs[..|cbs| - 1];
      var cb := cbs[|cbs| - 1];
      assert cbs == earlier + [cb];
      FireAllEffect(t, earlier);
      FireAllSnoc(t, earlier, cb);
      FirstHandoffSnoc(earlier, cb, t.handoffs.Keys);
      var u := FireAll(t, earlier);
      if cb.LiveSync? && cb.closure in u.handoffs {
        StartLiveSyncEffect(u, cb.closure);
      }
    }
  }

  /** The options of the one-shot pull once `setDefaults` has run: `since` from `lastSeq`, batch size 500. */
  function OneShotPull(lastSeq: Option<int>): OptionsValue {
    OptionsValue(false, SinceFor(lastSeq), Some(DefaultBatchSize), false)
  }

  /**
   * `replicate(twoway)` listens to local changes and keeps a live push; only
   * in two-way mode does it register a fresh handoff closure and open one
   * one-shot (never stored) pull whose `since` is `lastSeq` when that is set.
   */
  lemma SyncReplicateEffect(t: SyncState, twoway: bool, updateSeq: int)
    requires SyncGood(t)
    ensures var r := SyncReplicateSpec(t, twoway, updateSeq);
      var listened := if t.db.changesFeed.None? then [LocalChanges(updateSeq)] else [];
      var pushed := if SlotOf(t.db.replicationFeed, To).None?
                    then [Replication(To, LivePush.(batchSize := Some(DefaultBatchSize)))] else [];
      var pulled := if twoway then [Replication(From, OneShotPull(t.db.lastSeq))] else [];
      && r.db.feeds == t.db.feeds + listened + pushed + pulled
      && r.db.changesFeed.Some? && SlotOf(r.db.replicationFeed, To).Some?
      && SlotOf(r.db.replicationFeed, From) == SlotOf(t.db.replicationFeed, From)
      && r.db.lastSeq == t.db.lastSeq && r.db.onChange == t.db.onChange
      && r.db.cancelled == t.db.cancelled && r.written == t.written
      && (!twoway ==> r.db.onSync == t.db.onSync && r.handoffs == t.handoffs && r.nextClosure == t.nextClosure)
      && (twoway ==>
            && LiveSync(t.nextClosure) !in t.db.onSync[FromComplete]
            && r.db.onSync == t.db.onSync[FromComplete := t.db.onSync[FromComplete] + [LiveSync(t.nextClosure)]]
            && r.handoffs == t.handoffs[t.nextClosure := OneShotPull(t.db.lastSeq)]
            && r.nextClosure == t.nextClosure + 1)
  {
    var s1 := ListenSpec(t.db, false, updateSeq);
    ListenStartsOnce(t.db, updateSeq);
    if SlotOf(s1.replicationFeed, To).Some? {
      ReplicateLiveIsIdempotent(s1, To, LivePush);
    } else {
      ReplicateStarts(s1, To, LivePush);
    }
    var s2 := ReplicateSpec(s1, To, LivePush).state;
    if twoway {
      var id := t.nextClosure;
      assert LiveSync(id) !in t.db.onSync[FromComplete];
      var s3 := OnSyncSpec(s2, Complete, From, LiveSync(id), false);
      var o := EmptyOptions.(since := SinceFor(s2.lastSeq));
      ReplicateStarts(s3, From, o);
    }
  }

  /** Two-way calls are not deduplicated: each one registers its own closure and opens its own one-shot pull. */
  lemma SyncReplicateTwice(t: SyncState, updateSeq: int)
    requires SyncGood(t)
    ensures var r1 := SyncReplicateSpec(t, true, updateSeq);
      var r := SyncReplicateSpec(r1, true, updateSeq);
      var n := t.nextClosure;
      var pull := Replication(From, OneShotPull(t.db.lastSeq));
      && r.db.onSync[FromComplete] == t.db.onSync[FromComplete] + [LiveSync(n), LiveSync(n + 1)]
      && r.handoffs.Keys == t.handoffs.Keys + {n, n + 1}
      && r1.db.feeds[|r1.db.feeds| - 1] == pull
      && r.db.feeds == r1.db.feeds + [pull]
      && SlotOf(r.db.replicationFeed, To) == SlotOf(r1.db.replicationFeed, To)
      && r.db.changesFeed == r1.db.changesFeed
  {
    var r1 := SyncReplicateSpec(t, true, updateSeq);
    SyncReplicateEffect(t, true, updateSeq);
    SyncReplicateKeepsGood(t, true, updateSeq);
    SyncReplicateEffect(r1, true, updateSeq);
    ListenStartsOnce(r1.db, updateSeq);
    ReplicateLiveIsIdempotent(ListenSpec(r1.db, false, updateSeq), To, LivePush);
  }

  /** Application callbacks do not act on the sync state. */
  lemma {:induction false} FireAllApps(t: SyncState, cbs: seq<CallbackId>)
    requires forall cb :: cb in cbs ==> cb.App?
    ensures FireAll(t, cbs) == t
    decreases |cbs|
  {
    if cbs != [] {
      assert cbs[|cbs| - 1] in cbs;
      FireAllApps(t, cbs[..|cbs| - 1]);
    }
  }

  /** Dispatching application callbacks followed by one closure runs just that closure. */
  lemma FireOnlyClosure(r: SyncState, apps: seq<CallbackId>, id: nat)
    requires id in r.handoffs
    requires forall cb :: cb in apps ==> cb.App?
    ensures FireAll(r, apps + [LiveSync(id)]) == StartLiveSyncSpec(r, id)
  {
    FireAllSnoc(r, apps, LiveSync(id));
    FireAllApps(r, apps);
  }

  /** Dispatching a bucket whose only closure is its last entry `LiveSync(id)` takes that closure out. */
  lemma HandoffRemovesItself(r: SyncState, apps: seq<CallbackId>, id: nat)
    requires Settled(r.handoffs) && id in r.handoffs
    requires FromComplete in r.db.onSync && r.db.onSync[FromComplete] == apps + [LiveSync(id)]
    requires NoDup(apps + [LiveSync(id)]) && forall cb :: cb in apps ==> cb.App?
    ensures FireAll(r, apps + [LiveSync(id)]).db.onSync == r.db.onSync[FromComplete := apps]
  {
    var snapshot := apps + [LiveSync(id)];
    assert snapshot + [] == snapshot;
    FireAllBucket(r, snapshot, []);
    AppCallbacksSnoc(apps, LiveSync(id));
    assert AppCallbacks(snapshot) + [] == apps;
  }

  /**
   * Dispatching such a bucket when no live pull is stored opens one, with the
   * closure's own options now marked live.
   */
  lemma HandoffOpensLivePull(r: SyncState, apps: seq<CallbackId>, id: nat)
    requires Settled(r.handoffs) && id in r.handoffs
    requires forall cb :: cb in apps ==> cb.App?
    requires SlotOf(r.db.replicationFeed, From).None?
    ensures var d := FireAll(r, apps + [LiveSync(id)]);
      var live := r.handoffs[id].(live := true);
      && d.db.feeds == r.db.feeds + [Replication(From, live)]
      && d.db.replicationFeed == r.db.replicationFeed[From := Some(|r.db.feeds|)]
      && d.handoffs == r.handoffs[id := live]
  {
    FireOnlyClosure(r, apps, id);
    StartLiveSyncEffect(r, id);
  }

  /**
   * The handoff: when the first two-way `replicate` finds no closure pending
   * and no live pull stored, dispatching ('complete', 'from') removes the
   * closure again and opens a live pull on the same options object, so with
   * the same `since` and batch size as the one-shot pull.
   */
  lemma HandoffStartsLivePull(t: SyncState, updateSeq: int)
    requires SyncGood(t)
    requires forall cb :: cb in t.db.onSync[FromComplete] ==> cb.App?
    requires SlotOf(t.db.replicationFeed, From).None?
    ensures var r := SyncReplicateSpec(t, true, updateSeq);
      var d := FireAll(r, r.db.onSync[FromComplete]);
      var live := OneShotPull(t.db.lastSeq).(live := true);
      && d.db.onSync == t.db.onSync
      && d.db.feeds == r.db.feeds + [Replication(From, live)]
      && d.db.replicationFeed == r.db.replicationFeed[From := Some(|r.db.feeds|)]
      && d.handoffs == r.handoffs[t.nextClosure := live]
  {
    var r := SyncReplicateSpec(t, true, updateSeq);
    var apps := t.db.onSync[FromComplete];
    SyncReplicateEffect(t, true, updateSeq);
    NoDupSnoc(apps, LiveSync(t.nextClosure));
    HandoffRemovesItself(r, apps, t.nextClosure);
    HandoffOpensLivePull(r, apps, t.nextClosure);
    UpdateTwice(t.db.onSync, FromComplete, apps + [LiveSync(t.nextClosure)], apps);
  }

  // ---------------------------------------------------------------------------
  // `initialize`

  /**
   * How the asynchronous steps of `initialize` turn out: the local document
   * count from `info` (or its failure), the remote changes feed `allChanges`
   * reads, how `bulkDocs` settles, and the local `update_seq` that
   * `listenToChanges` reads from `info`.
   */
  datatype Environment = Environment(
    docCount: Result<int>,
    remote: RemoteFeed,
    bulkWriteError: Option<string>,
    updateSeq: int)

  /** How the promise returned by `initialize` settles. */
  datatype InitOutcome = ResolvedTrue | ResolvedUndefined | Rejected(reason: string)

  datatype Initialized = Initialized(state: SyncState, outcome: InitOutcome)

  /** `changes.results.map(row => row.doc)`. */
  function DocsOf(rows: seq<ChangeRow>): (docs: seq<Document>)
    ensures |docs| == |rows| && forall i :: 0 <= i < |rows| ==> docs[i] == rows[i].doc
  {
    seq(|rows|, i requires 0 <= i < |rows| => rows[i].doc)
  }

  /** The number of `change` events the remote feed delivers before it settles, one per row. */
  function ChangeEvents(remote: RemoteFeed): nat {
    match remote
    case Completed(rows, _) => |rows|
    case Failed(seen, _) => seen
  }

  /** `initialize(twoway, progressCallback)`; the written log records each `bulkDocs` request. */
  function InitializeSpec(t: SyncState, twoway: bool, env: Environment): Initialized {
    match env.docCount
    case Err(reason) => Initialized(t, Rejected(reason))
    case Ok(count) =>
      if WasInitialized(count) then Initialized(SyncReplicateSpec(t, twoway, env.updateSeq), ResolvedTrue)
      else
        var loaded := t.(db := AllChangesSpec(t.db, env.remote));
        match env.remote
        case Failed(_, reason) => Initialized(loaded, Rejected(reason))
        case Completed(rows, _) =>
          var stored := loaded.(written := t.written + [DocsOf(rows)]);
          if env.bulkWriteError.Some? then Initialized(stored, Rejected(env.bulkWriteError.value))
          else Initialized(SyncReplicateSpec(stored, twoway, env.updateSeq), ResolvedUndefined)
  }

  /** What the progress callback receives: nothing on a store already holding documents, else 1, 2, ... per change. */
  function ProgressSpec(env: Environment, hasCallback: bool): seq<int> {
    if hasCallback && env.docCount.Ok? && !WasInitialized(env.docCount.value)
    then seq(ChangeEvents(env.remote), i => i + 1)
    else []
  }

  /**
   * On a store that already holds documents, `initialize` replicates at once,
   * performs no bulk load, reports no progress, and resolves `true`.
   */
  lemma InitializeResumes(t: SyncState, twoway: bool, env: Environment, hasCallback: bool)
    requires SyncGood(t) && env.docCount.Ok? && WasInitialized(env.docCount.value)
    ensures var r := InitializeSpec(t, twoway, env);
      && r.outcome == ResolvedTrue
      && r.state == SyncReplicateSpec(t, twoway, env.updateSeq)
      && r.state.written == t.written && r.state.db.lastSeq == t.db.lastSeq
      && (forall i :: |t.db.feeds| <= i < |r.state.db.feeds| ==> !r.state.db.feeds[i].RemoteChanges?)
      && ProgressSpec(env, hasCallback) == []
  {
    SyncReplicateEffect(t, twoway, env.updateSeq);
  }

  /**
   * When any step fails, `initialize` rejects with that step's reason and
   * `replicate` has not run: at most the bulk-load feed was opened, and no
   * slot, observer or handoff changed.
   */
  lemma InitializeFailureSkipsReplicate(t: SyncState, twoway: bool, env: Environment)
    ensures var r := InitializeSpec(t, twoway, env);
      && (env.docCount.Err? ==> r == Initialized(t, Rejected(env.docCount.error)))
      && (r.outcome.Rejected? ==>
            && (r.state.db.feeds == t.db.feeds || r.state.db.feeds == t.db.feeds + [RemoteChanges])
            && r.state.db.(feeds := t.db.feeds, lastSeq := t.db.lastSeq) == t.db
            && r.state.handoffs == t.handoffs && r.state.nextClosure == t.nextClosure)
      && (env.docCount.Ok? && !WasInitialized(env.docCount.value) && env.remote.Failed? ==>
            r.outcome == Rejected(env.remote.reason))
      && (env.docCount.Ok? && !WasInitialized(env.docCount.value)
          && env.remote.Completed? && env.bulkWriteError.Some? ==>
            r.outcome == Rejected(env.bulkWriteError.value))
      && (r.outcome.Rejected? && env.docCount.Ok? && env.remote.Failed? ==>
            r.outcome.reason == env.remote.reason && r.state.written == t.written)
      && (r.outcome.Rejected? && env.docCount.Ok? && env.remote.Completed? ==>
            r.outcome.reason == env.bulkWriteError.value
            && r.state.written == t.written + [DocsOf(env.remote.results)])
  {
  }

  /**
   * `initialize` resolves without a value exactly when the store is empty, the
   * bulk load completes and the bulk write succeeds; only then, and after the
   * write, does `replicate` run.
   */
  lemma InitializeBootstrapOnly(t: SyncState, twoway: bool, env: Environment)
    ensures var r := InitializeSpec(t, twoway, env);
      r.outcome == ResolvedUndefined <==>
        env.docCount.Ok? && !WasInitialized(env.docCount.value)
        && env.remote.Completed? && env.bulkWriteError.None?
  {
  }

  /**
   * After a bootstrap, `lastSeq` is the bulk load's `last_seq` and the written
   * log holds its documents; in two-way mode the one-shot pull and its handoff
   * start from that `last_seq`.
   */
  lemma BootstrapThenReplicate(t: SyncState, twoway: bool, env: Environment, rows: seq<ChangeRow>, last: int)
    requires SyncGood(t)
    requires env.docCount.Ok? && !WasInitialized(env.docCount.value)
    requires env.remote == Completed(rows, last) && env.bulkWriteError.None?
    ensures var r := InitializeSpec(t, twoway, env).state;
      var stored := t.(db := t.db.(feeds := t.db.feeds + [RemoteChanges], lastSeq := Some(last)),
                       written := t.written + [DocsOf(rows)]);
      && r == SyncReplicateSpec(stored, twoway, env.updateSeq)
      && r.written == t.written + [DocsOf(rows)]
      && r.db.lastSeq == Some(last)
      && |r.db.feeds| > |t.db.feeds| && r.db.feeds[|t.db.feeds|] == RemoteChanges
      && r.db.changesFeed.Some? && SlotOf(r.db.replicationFeed, To).Some?
      && (twoway ==> r.db.feeds[|r.db.feeds| - 1] == Replication(From, OneShotPull(Some(last)))
                     && r.handoffs[t.nextClosure] == OneShotPull(Some(last)))
  {
    var stored := t.(db := AllChangesSpec(t.db, env.remote), written := t.written + [DocsOf(rows)]);
    AllChangesKeepsGood(t.db, env.remote);
    assert SyncGood(stored);
    SyncReplicateEffect(stored, twoway, env.updateSeq);
  }

  /**
   * The `change` handler of `initialize`: its own counter goes up by one per
   * event, and each new count is reported when a progress callback was given.
   */
  method ReportProgress(events: nat, hasCallback: bool) returns (reports: seq<int>)
    ensures hasCallback ==> |reports| == events && forall i :: 0 <= i < events ==> reports[i] == i + 1
    ensures !hasCallback ==> reports == []
  {
    var changes := 0;
    reports := [];
    while changes < events
      invariant 0 <= changes <= events
      invariant hasCallback ==> |reports| == changes && forall i :: 0 <= i < changes ==> reports[i] == i + 1
      invariant !hasCallback ==> reports == []
    {
      changes := changes + 1;
      if hasCallback {
        reports := reports + [changes];
      }
    }
  }

  // ---------------------------------------------------------------------------
  // The object

  /**
   * The `sync` factory: the `pouchdb` service it drives, and the options
   * object each `startLiveSync` closure captured, by closure number.
   */
  class SyncService {
    const db: PouchDb
    var handoffs: map<nat, OptionsValue>
    var nextClosure: nat
    ghost var written: seq<seq<Document>>

    ghost function State(): SyncState
      reads this, db
    {
      SyncState(db.State(), handoffs, nextClosure, written)
    }

    ghost predicate Valid()
      reads this, db
    {
      db.Valid() && SyncGood(State())
    }

    constructor (db: PouchDb)
      requires db.Valid() && SyncGood(SyncState(db.State(), map[], 0, []))
      ensures Valid() && this.db == db && State() == SyncState(db.State(), map[], 0, [])
    {
      this.db := db;
      handoffs := map[];
      nextClosure := 0;
      written := [];
    }

    /** `replicate(twoway)`. */
    method Replicate(twoway: bool, updateSeq: int)
      requires Valid()
      modifies this, db
      ensures Valid() && State() == SyncReplicateSpec(old(State()), twoway, updateSeq)
    {
      ListenAndPush(updateSeq);
      if twoway {
        OpenOneShotPull();
      }
    }

    method ListenAndPush(updateSeq: int)
      requires Valid()
      modifies db
      ensures Valid() && State() == ListenAndPushSpec(old(State()), updateSeq)
    {
      ghost var t := State();
      db.ListenToChanges(false, updateSeq);
      var push := new Options(LivePush);
      var _ := db.Replicate(To, push);
      ListenAndPushKeepsGood(t, updateSeq);
    }

    method OpenOneShotPull()
      requires Valid()
      modifies this, db
      ensures Valid() && State() == OneShotPullSpec(old(State()))
    {
      ghost var t := State();
      var id := nextClosure;
      var options := new Options(EmptyOptions);
      if !Falsy(db.lastSeq) {
        options.since := db.lastSeq;
      }
      db.OnSync(Complete, From, LiveSync(id), false);
      var _ := db.Replicate(From, options);
      handoffs := handoffs[id := options.Value()];
      nextClosure := id + 1;
      OneShotPullKeepsGood(t);
    }

    /** One call of the `startLiveSync` closure number `n`. */
    method StartLiveSync(n: nat)
      requires Valid() && n in handoffs
      modifies this, db
      ensures Valid() && State() == StartLiveSyncSpec(old(State()), n)
    {
      ghost var t := State();
      db.OnSync(Complete, From, LiveSync(n), true);
      var options := new Options(handoffs[n]);
      options.live := true;
      var _ := db.Replicate(From, options);
      handoffs := handoffs[n := options.Value()];
      StartLiveSyncKeepsGood(t, n);
    }

    /**
     * The replication feed of `direction` emits `event`: the callbacks
     * registered for it when the event arrives are called in order.
     */
    method Dispatch(direction: Direction, event: Event) returns (invoked: seq<CallbackId>)
      requires Valid()
      modifies this, db
      ensures Valid()
      ensures invoked == old(BucketOf(db.onSyncCallbacks, Bucket(direction, event)))
      ensures State() == FireAll(old(State()), invoked)
    {
      invoked := BucketOf(db.onSyncCallbacks, Bucket(direction, event));
      ghost var t := State();
      for i := 0 to |invoked|
        invariant Valid()
        invariant State() == FireAll(t, invoked[..i])
      {
        var cb := invoked[i];
        assert invoked[..i + 1] == invoked[..i] + [cb];
        FireAllSnoc(t, invoked[..i], cb);
        if cb.LiveSync? && cb.closure in handoffs {
          StartLiveSync(cb.closure);
        }
      }
      assert invoked[..|invoked|] == invoked;
    }

    /** `initialize(twoway, progressCallback)`; `progress` lists the values the callback receives. */
    method Initialize(twoway: bool, env: Environment, hasProgressCallback: bool)
      returns (outcome: InitOutcome, progress: seq<int>)
      requires Valid()
      modifies this, db
      ensures Valid()
      ensures Initialized(State(), outcome) == InitializeSpec(old(State()), twoway, env)
      ensures progress == ProgressSpec(env, hasProgressCallback)
    {
      if env.docCount.Err? {
        return Rejected(env.docCount.error), [];
      }
      if WasInitialized(env.docCount.value) {
        Replicate(twoway, env.updateSeq);
        return ResolvedTrue, [];
      }
      outcome, progress := Bootstrap(twoway, env, hasProgressCallback);
    }

    /** The branch of `initialize` for an empty store: bulk load, bulk write, then `replicate`. */
    method Bootstrap(twoway: bool, env: Environment, hasProgressCallback: bool)
      returns (outcome: InitOutcome, progress: seq<int>)
      requires Valid() && env.docCount.Ok? && !WasInitialized(env.docCount.value)
      modifies this, db
      ensures Valid()
      ensures Initialized(State(), outcome) == InitializeSpec(old(State()), twoway, env)
      ensures progress == ProgressSpec(env, hasProgressCallback)
    {
      ghost var t := State();
      var changes := db.AllChanges(env.remote);
      AllChangesKeepsGood(t.db, env.remote);
      progress := ReportProgress(ChangeEvents(env.remote), hasProgressCallback);
      assert progress == ProgressSpec(env, hasProgressCallback);
      if changes.Err? {
        return Rejected(changes.error), progress;
      }
      written := written + [DocsOf(changes.value)];
      if env.bulkWriteError.Some? {
        return Rejected(env.bulkWriteError.value), progress;
      }
      Replicate(twoway, env.updateSeq);
      outcome := ResolvedUndefined;
    }
  }
}
