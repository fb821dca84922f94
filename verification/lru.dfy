/**
 * The LRU cache `LRUCache` (concurrency11_test.go).
 *
 * `cache` maps each key to the list element holding its entry, and
 * `lrulist` orders the entries from most to least recently used. In Go the
 * map and the list share each `*Entry`; here the map holds a copy of the
 * entry, and `Synced` says the two views agree. The read-write lock is left
 * out: each call is atomic.
 */
module LruCaches {

  /** `Entry`: a key and its value. */
  datatype Entry = Entry(key: int, value: int)

  /** No key appears twice in the list. */
  ghost predicate DistinctKeys(l: seq<Entry>)
  {
    forall i, j :: 0 <= i < j < |l| ==> l[i].key != l[j].key
  }

  /** The keys of the entries in `l`. */
  function KeySet(l: seq<Entry>): set<int>
  {
    set e | e in l :: e.key
  }

  /**
   * The map and the list are in one-to-one correspondence: walking the list
   * from the front, each entry's key is in what is left of the map and maps
   * to that entry, and nothing is left of the map at the end.
   */
  ghost predicate Synced(cache: map<int, Entry>, l: seq<Entry>)
    decreases |l|
  {
    if l == [] then cache == map[]
    else l[0].key in cache && cache[l[0].key] == l[0] && Synced(cache - {l[0].key}, l[1..])
  }

  /** `l` without the entry for `key`, the others in their order. */
  function RemoveKey(l: seq<Entry>, key: int): (r: seq<Entry>)
    ensures |r| <= |l|
  {
    if l == [] then []
    else if l[0].key == key then RemoveKey(l[1..], key)
    else [l[0]] + RemoveKey(l[1..], key)
  }

  /** The largest number of entries the cache keeps: a negative capacity keeps none. */
  function Bound(capacity: int): nat
  {
    if capacity < 0 then 0 else capacity
  }

  /** Where `key` sits in the list. Go finds the element through the map in one step. */
  function IndexOfKey(l: seq<Entry>, key: int): (i: nat)
    requires key in KeySet(l)
    ensures i < |l| && l[i].key == key
  {
    if l[0].key == key then 0
    else
      assert key in KeySet(l[1..]) by {
        var e :| e in l && e.key == key;
        assert e in l[1..];
      }
      1 + IndexOfKey(l[1..], key)
  }

  /** Each list entry's key is in the map and maps to that entry; no key is repeated. */
  lemma {:induction false} SyncedLookup(cache: map<int, Entry>, l: seq<Entry>)
    requires Synced(cache, l)
    ensures forall i :: 0 <= i < |l| ==> l[i].key in cache && cache[l[i].key] == l[i]
    ensures forall i :: 0 < i < |l| ==> l[i].key != l[0].key
    decreases |l|
  {
    if l != [] {
      var k := l[0].key;
      SyncedLookup(cache - {k}, l[1..]);
      forall i | 0 < i < |l|
        ensures l[i].key != k && l[i].key in cache && cache[l[i].key] == l[i]
      {
        assert l[i] == l[1..][i - 1];
      }
    }
  }

  /** The list's keys are distinct. */
  lemma {:induction false} SyncedDistinct(cache: map<int, Entry>, l: seq<Entry>)
    requires Synced(cache, l)
    ensures DistinctKeys(l)
    decreases |l|
  {
    if l != [] {
      SyncedLookup(cache, l);
      SyncedDistinct(cache - {l[0].key}, l[1..]);
      forall i, j | 0 <= i < j < |l|
        ensures l[i].key != l[j].key
      {
        if i > 0 {
          assert l[i] == l[1..][i - 1] && l[j] == l[1..][j - 1];
        }
      }
    }
  }

  /** The map's keys are exactly the list's keys, and the map and list have the same size. */
  lemma {:induction false} SyncedKeys(cache: map<int, Entry>, l: seq<Entry>)
    requires Synced(cache, l)
    ensures cache.Keys == KeySet(l) && |cache| == |l|
    decreases |l|
  {
    if l != [] {
      var k := l[0].key;
      var rest := cache - {k};
      SyncedKeys(rest, l[1..]);
      assert KeySet(l) == {k} + KeySet(l[1..]) by {
        assert forall x :: x in l <==> x == l[0] || x in l[1..];
      }
      assert cache.Keys == rest.Keys + {k};
      assert |cache.Keys| == |rest.Keys| + 1;
    }
  }

  /**
   * What the correspondence means: the map's keys are exactly the list's,
   * the list's keys are distinct, every key maps to its list entry, and the
   * map and the list have the same size.
   */
  lemma SyncedMeans(cache: map<int, Entry>, l: seq<Entry>)
    requires Synced(cache, l)
    ensures cache.Keys == KeySet(l) && |cache| == |l| && DistinctKeys(l)
    ensures forall i :: 0 <= i < |l| ==> l[i].key in cache && cache[l[i].key] == l[i]
  {
    SyncedLookup(cache, l);
    SyncedDistinct(cache, l);
    SyncedKeys(cache, l);
  }

  /** Taking the entry at `i` out of the list, and its key out of the map, keeps them in step. */
  lemma {:induction false} RemoveAtSynced(cache: map<int, Entry>, l: seq<Entry>, i: nat)
    requires Synced(cache, l) && i < |l|
    ensures Synced(cache - {l[i].key}, l[..i] + l[i + 1..])
    decreases i
  {
    var k := l[0].key;
    if i == 0 {
      assert l[..0] + l[1..] == l[1..];
    } else {
      var tail, rest := l[1..], cache - {k};
      RemoveAtSynced(rest, tail, i - 1);
      SyncedLookup(cache, l);
      assert tail[i - 1] == l[i];
      var n := l[..i] + l[i + 1..];
      assert n[0] == l[0];
      assert n[1..] == tail[..i - 1] + tail[i..];
      var smaller := cache - {l[i].key};
      assert k in smaller && smaller[k] == l[0];
      assert smaller - {k} == rest - {l[i].key};
    }
  }

  /** Moving the entry at `i` to the front, with its value possibly replaced, keeps the map and list in step. */
  lemma MoveToFrontSynced(cache: map<int, Entry>, l: seq<Entry>, i: nat, e: Entry)
    requires Synced(cache, l) && i < |l| && e.key == l[i].key
    ensures Synced(cache[e.key := e], [e] + (l[..i] + l[i + 1..]))
  {
    RemoveAtSynced(cache, l, i);
    SyncedMeans(cache, l);
    assert cache[e.key := e] - {e.key} == cache - {l[i].key};
  }

  /** A new key pushed at the front keeps the map and list in step. */
  lemma PushFrontSynced(cache: map<int, Entry>, l: seq<Entry>, e: Entry)
    requires Synced(cache, l) && e.key !in cache
    ensures Synced(cache[e.key := e], [e] + l)
  {
    assert cache[e.key := e] - {e.key} == cache;
    assert ([e] + l)[1..] == l;
  }

  /** Dropping the back entry, from both the list and the map, keeps them in step. */
  lemma DropBackSynced(cache: map<int, Entry>, l: seq<Entry>)
    requires Synced(cache, l) && l != []
    ensures Synced(cache - {l[|l| - 1].key}, l[..|l| - 1])
  {
    RemoveAtSynced(cache, l, |l| - 1);
    assert l[..|l| - 1] + l[|l|..] == l[..|l| - 1];
  }

  /** Removing a key the list does not hold changes nothing. */
  lemma {:induction false} RemoveAbsentKey(l: seq<Entry>, key: int)
    requires forall j :: 0 <= j < |l| ==> l[j].key != key
    ensures RemoveKey(l, key) == l
  {
    if l != [] {
      RemoveAbsentKey(l[1..], key);
    }
  }

  /** With distinct keys, removing the key at `i` is cutting out position `i`. */
  lemma {:induction false} RemoveKeyAt(l: seq<Entry>, i: nat)
    requires DistinctKeys(l) && i < |l|
    ensures RemoveKey(l, l[i].key) == l[..i] + l[i + 1..]
  {
    if i == 0 {
      RemoveAbsentKey(l[1..], l[0].key);
      assert l[..0] + l[1..] == l[1..];
    } else {
      RemoveKeyAt(l[1..], i - 1);
      assert l[1..][i - 1].key == l[i].key;
      assert l[1..][..i - 1] + l[1..][i..] == l[1..i] + l[i + 1..];
      assert l[..i] + l[i + 1..] == [l[0]] + (l[1..i] + l[i + 1..]);
    }
  }

  class LRUCache {
    const capacity: int
    /** Each key's entry, as held by its list element. */
    var cache: map<int, Entry>
    /** The entries, most recently used first. */
    var lrulist: seq<Entry>

    ghost predicate Valid()
      reads this
    {
      Synced(cache, lrulist) && |lrulist| <= Bound(capacity)
    }

    /** `NewLRUCache`: an empty cache. */
    constructor (capacity: int)
      ensures Valid() && this.capacity == capacity
      ensures cache == map[] && lrulist == []
    {
      this.capacity := capacity;
      cache := map[];
      lrulist := [];
    }

    /**
     * `Get`: a present key yields its value and becomes the most recently
     * used; an absent key yields `(0, false)` and changes nothing. The keys
     * and values never change.
     */
    method Get(key: int) returns (value: int, ok: bool)
      requires Valid()
      modifies this`lrulist
      ensures Valid() && cache == old(cache)
      ensures ok <==> key in old(cache)
      ensures ok ==> value == old(cache)[key].value
      ensures ok ==> lrulist == [old(cache)[key]] + RemoveKey(old(lrulist), key)
      ensures !ok ==> value == 0 && lrulist == old(lrulist)
    {
      if key in cache {
        var elem := cache[key];
        SyncedMeans(cache, lrulist);
        var i := IndexOfKey(lrulist, key);
        RemoveKeyAt(lrulist, i);
        MoveToFrontSynced(cache, lrulist, i, elem);
        assert cache[key := elem] == cache;
        lrulist := [elem] + (lrulist[..i] + lrulist[i + 1..]);
        value, ok := elem.value, true;
      } else {
        value, ok := 0, false;
      }
    }

    /**
     * `Put`: a present key gets the new value and moves to the front; a new
     * key is pushed at the front, and if the list is then over capacity its
     * back entry (the least recently used) leaves the list and the map.
     */
    method Put(key: int, value: int)
      requires Valid()
      modifies this`cache, this`lrulist
      ensures Valid()
      ensures key in old(cache) ==>
        && lrulist == [Entry(key, value)] + RemoveKey(old(lrulist), key)
        && cache == old(cache)[key := Entry(key, value)]
        && |lrulist| == |old(lrulist)|
      ensures key !in old(cache) && |old(lrulist)| + 1 <= capacity ==>
        && lrulist == [Entry(key, value)] + old(lrulist)
        && cache == old(cache)[key := Entry(key, value)]
      ensures key !in old(cache) && |old(lrulist)| + 1 > capacity ==>
        var pushed := [Entry(key, value)] + old(lrulist);
        && lrulist == pushed[..|pushed| - 1]
        && cache == old(cache)[key := Entry(key, value)] - {pushed[|pushed| - 1].key}
    {
      var entry := Entry(key, value);
      if key in cache {
        SyncedMeans(cache, lrulist);
        var i := IndexOfKey(lrulist, key);
        RemoveKeyAt(lrulist, i);
        MoveToFrontSynced(cache, lrulist, i, entry);
        cache := cache[key := entry];
        lrulist := [entry] + (lrulist[..i] + lrulist[i + 1..]);
        return;
      }
      // miss
      PushFrontSynced(cache, lrulist, entry);
      lrulist := [entry] + lrulist;
      cache := cache[key := entry];
      if |lrulist| > capacity {
        var back := lrulist[|lrulist| - 1];
        DropBackSynced(cache, lrulist);
        lrulist := lrulist[..|lrulist| - 1];
        cache := cache - {back.key};
      }
    }
  }

  /** With capacity 3, put keys 1, 2, 3, then get 1: the list is 1, 3, 2. */
  method FilledScenario() returns (lru: LRUCache)
    ensures fresh(lru) && lru.Valid() && lru.capacity == 3
    ensures lru.lrulist == [Entry(1, 10), Entry(3, 30), Entry(2, 20)]
    ensures lru.cache.Keys == {1, 2, 3}
  {
    lru := new LRUCache(3);
    lru.Put(1, 10);
    assert lru.lrulist == [Entry(1, 10)];
    lru.Put(2, 20);
    assert lru.lrulist == [Entry(2, 20), Entry(1, 10)];
    lru.Put(3, 30);
    assert lru.lrulist == [Entry(3, 30), Entry(2, 20), Entry(1, 10)];
    var v1, found1 := lru.Get(1);
    assert RemoveKey([Entry(3, 30), Entry(2, 20), Entry(1, 10)], 1) == [Entry(3, 30), Entry(2, 20)];
  }

  /**
   * The scenario the comments of `TestConcurrency11` describe, in one
   * order: with capacity 3, put keys 1, 2, 3, get 1, then put 4. Key 2, the
   * least recently used, is evicted; the list is 4, 1, 3. Putting 5 then
   * evicts key 3, leaving 5, 4, 1.
   */
  method EvictionScenario() returns (order: seq<int>, found2: bool, finalOrder: seq<int>, found3: bool)
    ensures order == [4, 1, 3] && !found2
    ensures finalOrder == [5, 4, 1] && !found3
  {
    var lru := FilledScenario();
    lru.Put(4, 40);
    assert lru.lrulist == [Entry(4, 40), Entry(1, 10), Entry(3, 30)];
    order := [lru.lrulist[0].key, lru.lrulist[1].key, lru.lrulist[2].key];
    var v2;
    v2, found2 := lru.Get(2);
    lru.Put(5, 50);
    assert lru.lrulist == [Entry(5, 50), Entry(4, 40), Entry(1, 10)];
    finalOrder := [lru.lrulist[0].key, lru.lrulist[1].key, lru.lrulist[2].key];
    var v3;
    v3, found3 := lru.Get(3);
  }
}
