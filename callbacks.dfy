/**
 * Observer identities, the (direction, event) buckets they are kept in, and the
 * list operations the registry applies to a bucket: `indexOf`, `push` guarded by
 * `indexOf(cb) === -1`, and `splice(indexOf(cb), 1)`, with JavaScript's semantics.
 */
module Callbacks {

  /** Replication direction: `to` pushes local changes, `from` pulls remote ones. */
  datatype Direction = To | From

  /** The replication events a feed emits. */
  datatype Event = Change | Complete | Uptodate | Error

  /** One observer list of the replication registry. */
  datatype Bucket = Bucket(direction: Direction, event: Event)

  /**
   * The identity of a callback. `App` callbacks belong to the application; a
   * `LiveSync(k)` is the k-th `startLiveSync` closure that the sync service made.
   */
  datatype CallbackId = App(id: nat) | LiveSync(closure: nat)

  predicate NoDup<T(==)>(s: seq<T>) {
    forall i, j :: 0 <= i < j < |s| ==> s[i] != s[j]
  }

  /** `Array.prototype.indexOf`: the first position of `x`, or -1. */
  function IndexOf<T(==)>(s: seq<T>, x: T): (i: int)
    ensures -1 <= i < |s|
    ensures i == -1 <==> x !in s
    ensures 0 <= i ==> s[i] == x && x !in s[..i]
  {
    if s == [] then -1
    else if s[0] == x then 0
    else
      var k := IndexOf(s[1..], x);
      if k == -1 then -1
      else
        assert s[..k + 1] == [s[0]] + s[1..][..k];
        k + 1
  }

  /** The position where `splice(start, ...)` begins: a negative start counts from the end. */
  function SpliceStart(len: nat, start: int): (k: nat)
    ensures k <= len
    ensures 0 <= start <= len ==> k == start
    ensures 0 - len <= start < 0 ==> k == len + start
  {
    if start < 0 then (if len + start < 0 then 0 else len + start)
    else if start > len then len
    else start
  }

  /** `s.splice(start, 1)`: drops at most one element. */
  function SpliceOne<T>(s: seq<T>, start: int): seq<T> {
    var k := SpliceStart(|s|, start);
    if k < |s| then s[..k] + s[k + 1..] else s
  }

  /** Registration: `if (list.indexOf(cb) === -1) list.push(cb)`. */
  function Added<T(==)>(s: seq<T>, x: T): (r: seq<T>)
    ensures x in s ==> r == s
    ensures x !in s ==> r == s + [x]
    ensures NoDup(s) ==> NoDup(r)
    ensures x in r
  {
    if IndexOf(s, x) == -1 then s + [x] else s
  }

  /** Removal as written: `list.splice(list.indexOf(cb), 1)`. */
  function Removed<T(==)>(s: seq<T>, x: T): seq<T> {
    SpliceOne(s, IndexOf(s, x))
  }

  /** Reference definition: `s` with every occurrence of `x` filtered out. */
  function Without<T(==)>(s: seq<T>, x: T): seq<T> {
    if s == [] then []
    else (if s[0] == x then [] else [s[0]]) + Without(s[1..], x)
  }

  lemma {:induction false} WithoutAbsent<T>(s: seq<T>, x: T)
    requires x !in s
    ensures Without(s, x) == s
  {
    if s != [] {
      WithoutAbsent(s[1..], x);
    }
  }

  lemma {:induction false} WithoutAppend<T>(a: seq<T>, b: seq<T>, x: T)
    ensures Without(a + b, x) == Without(a, x) + Without(b, x)
  {
    if a == [] {
      assert a + b == b;
    } else {
      assert (a + b)[1..] == a[1..] + b;
      WithoutAppend(a[1..], b, x);
    }
  }

  lemma WithoutSingle<T>(x: T)
    ensures Without([x], x) == []
  {
    assert [x][1..] == [];
  }

  /** Filtering out `x` from a list where it occurs once, between `pre` and `post`. */
  lemma WithoutOnce<T>(pre: seq<T>, x: T, post: seq<T>)
    requires x !in pre && x !in post
    ensures Without(pre + [x] + post, x) == pre + post
  {
    WithoutSingle(x);
    WithoutAppend(pre, [x], x);
    WithoutAbsent(pre, x);
    assert Without(pre + [x], x) == pre by { assert pre + [] == pre; }
    WithoutAppend(pre + [x], post, x);
    WithoutAbsent(post, x);
  }

  /** In a duplicate-free list, `splice(indexOf(x), 1)` cuts out the one occurrence of `x`. */
  lemma RemovedAtIndex<T>(s: seq<T>, x: T)
    requires NoDup(s) && x in s
    ensures var i := IndexOf(s, x);
      && Removed(s, x) == s[..i] + s[i + 1..]
      && s == s[..i] + [x] + s[i + 1..]
      && x !in s[..i] && x !in s[i + 1..]
  {
    var i := IndexOf(s, x);
    assert s == s[..i] + [x] + s[i + 1..];
    forall j | i < j < |s| ensures s[j] != x {
      assert s[i] == x;
    }
  }

  /**
   * Removing a registered callback from a duplicate-free list deletes exactly
   * that entry: the others stay, in order, and the callback is gone.
   */
  lemma RemovedRegistered<T>(s: seq<T>, x: T)
    requires NoDup(s) && x in s
    ensures Removed(s, x) == Without(s, x)
    ensures x !in Removed(s, x) && |Removed(s, x)| == |s| - 1
    ensures exists i :: 0 <= i < |s| && s[i] == x && Removed(s, x) == s[..i] + s[i + 1..]
  {
    var i := IndexOf(s, x);
    RemovedAtIndex(s, x);
    WithoutOnce(s[..i], x, s[i + 1..]);
  }

  /**
   * Removing a callback that is not registered is not a no-op: `indexOf` gives
   * -1 and `splice(-1, 1)` drops the last entry of a non-empty list.
   */
  lemma RemovedUnregistered<T>(s: seq<T>, x: T)
    requires x !in s
    ensures s == [] ==> Removed(s, x) == []
    ensures s != [] ==> Removed(s, x) == s[..|s| - 1]
  {
  }

  /** Removal only deletes: it keeps a list duplicate-free and adds no callback. */
  lemma RemovedSubsequence<T>(s: seq<T>, x: T)
    ensures NoDup(s) ==> NoDup(Removed(s, x))
    ensures forall y :: y in Removed(s, x) ==> y in s
    ensures |Removed(s, x)| == if s == [] then 0 else |s| - 1
  {
    var k := SpliceStart(|s|, IndexOf(s, x));
    if k < |s| {
      var r := s[..k] + s[k + 1..];
      assert forall j :: 0 <= j < |r| ==> r[j] == s[if j < k then j else j + 1];
    }
  }

  /** Registering a new callback and then removing it restores the list. */
  lemma AddThenRemove<T>(s: seq<T>, x: T)
    requires x !in s
    ensures Removed(Added(s, x), x) == s
  {
    var t := s + [x];
    assert IndexOf(t, x) == |s| by {
      assert t[..|s|] == s;
    }
    assert t[..|s|] == s;
  }

  /** A callback in a duplicate-free list is invoked once per dispatch of that list. */
  lemma {:induction false} InvokedOnce<T>(s: seq<T>, x: T)
    requires NoDup(s) && x in s
    ensures multiset(s)[x] == 1
  {
    assert s == [s[0]] + s[1..];
    if s[0] == x {
      assert x !in s[1..] by {
        forall j | 0 <= j < |s[1..]| ensures s[1..][j] != x {
          assert s[1..][j] == s[j + 1];
        }
      }
    } else {
      assert NoDup(s[1..]) by {
        forall i, j | 0 <= i < j < |s[1..]| ensures s[1..][i] != s[1..][j] {
          assert s[1..][i] == s[i + 1] && s[1..][j] == s[j + 1];
        }
      }
      InvokedOnce(s[1..], x);
    }
  }

  lemma NoDupSnoc<T>(s: seq<T>, x: T)
    requires NoDup(s) && x !in s
    ensures NoDup(s + [x])
  {
  }

  /** Both halves of a list without duplicates are without duplicates. */
  lemma NoDupSplit<T>(a: seq<T>, b: seq<T>)
    requires NoDup(a + b)
    ensures NoDup(a) && NoDup(b)
  {
    forall j, k | 0 <= j < k < |b| ensures b[j] != b[k] {
      assert b[j] == (a + b)[|a| + j] && b[k] == (a + b)[|a| + k];
    }
    forall j, k | 0 <= j < k < |a| ensures a[j] != a[k] {
      assert a[j] == (a + b)[j] && a[k] == (a + b)[k];
    }
  }

  /** Removing an entry that sits between `done` and `rest` in a duplicate-free list leaves `done + rest`. */
  lemma RemovedMiddle<T>(done: seq<T>, x: T, rest: seq<T>)
    requires NoDup(done + [x] + rest)
    ensures Removed(done + [x] + rest, x) == done + rest
  {
    var s := done + [x] + rest;
    var i := IndexOf(s, x);
    assert s[|done|] == x;
    assert forall j :: 0 <= j < |s| && j != |done| ==> s[j] != x;
    assert s[..i] == done && s[i + 1..] == rest;
  }
}
