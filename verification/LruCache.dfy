/** The insertion-ordered response caches of ProcurementNavigationReadCache and
    ProcurementTabCacheEnhancement: a hit or a store moves a key to the end, a store over the
    limit drops keys from the front. */
module LruCache {
  import opened Text

  /** The entries of a JavaScript Map, in iteration order. */
  datatype Entry<V> = Entry(key: string, value: V)

  function Keys<V>(es: seq<Entry<V>>): seq<string> {
    seq(|es|, i requires 0 <= i < |es| => es[i].key)
  }

  ghost predicate Distinct(keys: seq<string>) {
    forall i, j :: 0 <= i < j < |keys| ==> keys[i] != keys[j]
  }

  function Lookup<V>(es: seq<Entry<V>>, key: string): Option<V> {
    if es == [] then None else if es[0].key == key then Some(es[0].value) else Lookup(es[1..], key)
  }

  function Kept<V>(es: seq<Entry<V>>, drop: string -> bool): seq<Entry<V>> {
    if es == [] then []
    else if drop(es[|es| - 1].key) then Kept(es[..|es| - 1], drop)
    else Kept(es[..|es| - 1], drop) + [es[|es| - 1]]
  }

  function Removed<V>(es: seq<Entry<V>>, key: string): seq<Entry<V>> {
    Kept(es, k => k == key)
  }

  /** `Map.set`: an existing key keeps its place, a new one goes to the end. */
  function Put<V>(es: seq<Entry<V>>, key: string, value: V): seq<Entry<V>> {
    if es == [] then [Entry(key, value)]
    else if es[0].key == key then [Entry(key, value)] + es[1..]
    else [es[0]] + Put(es[1..], key, value)
  }

  function Moved<V>(es: seq<Entry<V>>, key: string, value: V): seq<Entry<V>> {
    Removed(es, key) + [Entry(key, value)]
  }

  /** The eviction loop; it gives up at an empty key, which reads as "no oldest key". */
  function Evicted<V>(es: seq<Entry<V>>, limit: nat): seq<Entry<V>> {
    if |es| <= limit || es[0].key == "" then es else Evicted(es[1..], limit)
  }

  function Remembered<V>(es: seq<Entry<V>>, key: string, value: V, limit: nat): seq<Entry<V>> {
    Evicted(Moved(es, key, value), limit)
  }

  // ----- Facts about filtering -----

  lemma {:induction false} KeptMembers<V>(es: seq<Entry<V>>, drop: string -> bool)
    ensures forall e :: e in Kept(es, drop) <==> e in es && !drop(e.key)
    ensures |Kept(es, drop)| <= |es|
  {
    if es != [] {
      KeptMembers(es[..|es| - 1], drop);
      assert es == es[..|es| - 1] + [es[|es| - 1]];
    }
  }

  lemma {:induction false} KeptPlace<V>(es: seq<Entry<V>>, drop: string -> bool, i: nat) returns (a: nat)
    requires i < |Kept(es, drop)|
    ensures a < |es| && es[a] == Kept(es, drop)[i]
  {
    var init := es[..|es| - 1];
    if i < |Kept(init, drop)| {
      a := KeptPlace(init, drop, i);
    } else {
      a := |es| - 1;
    }
  }

  lemma {:induction false} KeptPlaces<V>(es: seq<Entry<V>>, drop: string -> bool, i: nat, j: nat)
    requires i < j < |Kept(es, drop)|
    ensures exists a: nat, b: nat :: a < b < |es| && es[a] == Kept(es, drop)[i] && es[b] == Kept(es, drop)[j]
  {
    var init := es[..|es| - 1];
    if j < |Kept(init, drop)| {
      KeptPlaces(init, drop, i, j);
      var a: nat, b: nat :| a < b < |init| && init[a] == Kept(init, drop)[i] && init[b] == Kept(init, drop)[j];
      assert es[a] == init[a] && es[b] == init[b];
    } else {
      var a := KeptPlace(init, drop, i);
      assert es[a] == init[a] && es[|es| - 1] == Kept(es, drop)[j];
    }
  }

  lemma {:induction false} KeptAppend<V>(a: seq<Entry<V>>, b: seq<Entry<V>>, drop: string -> bool)
    ensures Kept(a + b, drop) == Kept(a, drop) + Kept(b, drop)
  {
    if b == [] {
      assert a + b == a;
    } else {
      assert (a + b)[..|a + b| - 1] == a + b[..|b| - 1];
      KeptAppend(a, b[..|b| - 1], drop);
    }
  }

  /** Clearing removes exactly the chosen keys and keeps the others in their relative order. */
  lemma ClearKeepsOrder<V>(es: seq<Entry<V>>, drop: string -> bool)
    ensures forall e :: e in Kept(es, drop) <==> e in es && !drop(e.key)
    ensures forall i: nat, j: nat :: i < j < |Kept(es, drop)| ==>
      exists a: nat, b: nat :: a < b < |es| && es[a] == Kept(es, drop)[i] && es[b] == Kept(es, drop)[j]
  {
    KeptMembers(es, drop);
    forall i: nat, j: nat | i < j < |Kept(es, drop)|
      ensures exists a: nat, b: nat :: a < b < |es| && es[a] == Kept(es, drop)[i] && es[b] == Kept(es, drop)[j]
    {
      KeptPlaces(es, drop, i, j);
    }
  }

  // ----- The reference: keys by last access -----

  function Without(keys: seq<string>, key: string): seq<string> {
    if keys == [] then []
    else if keys[|keys| - 1] == key then Without(keys[..|keys| - 1], key)
    else Without(keys[..|keys| - 1], key) + [keys[|keys| - 1]]
  }

  /** The distinct keys of an access history, least recently accessed first. */
  function Recency(history: seq<string>): seq<string> {
    if history == [] then []
    else
      var last := history[|history| - 1];
      Without(Recency(history[..|history| - 1]), last) + [last]
  }

  function LastN(keys: seq<string>, n: nat): seq<string> {
    if |keys| <= n then keys else keys[|keys| - n..]
  }

  /** Position of the last access to `key`, or -1. */
  function LastAccess(history: seq<string>, key: string): int {
    if history == [] then -1
    else if history[|history| - 1] == key then |history| - 1
    else LastAccess(history[..|history| - 1], key)
  }

  lemma {:induction false} WithoutIs(keys: seq<string>, key: string)
    ensures forall k :: k in Without(keys, key) <==> k in keys && k != key
    ensures Distinct(keys) ==> Distinct(Without(keys, key))
    ensures key !in keys ==> Without(keys, key) == keys
  {
    if keys != [] {
      var init := keys[..|keys| - 1];
      WithoutIs(init, key);
      assert keys == init + [keys[|keys| - 1]];
      if Distinct(keys) {
        assert keys[|keys| - 1] !in init;
        assert Distinct(init);
      }
    }
  }

  lemma {:induction false} WithoutAppend(a: seq<string>, b: seq<string>, key: string)
    ensures Without(a + b, key) == Without(a, key) + Without(b, key)
  {
    if b == [] {
      assert a + b == a;
    } else {
      assert (a + b)[..|a + b| - 1] == a + b[..|b| - 1];
      WithoutAppend(a, b[..|b| - 1], key);
    }
  }

  lemma {:induction false} WithoutOne(keys: seq<string>, key: string)
    requires Distinct(keys) && key in keys
    ensures |Without(keys, key)| == |keys| - 1
  {
    var init := keys[..|keys| - 1];
    if keys[|keys| - 1] == key {
      assert key !in init;
      WithoutIs(init, key);
    } else {
      assert keys == init + [keys[|keys| - 1]];
      WithoutOne(init, key);
    }
  }

  ghost predicate OrderedByAccess(history: seq<string>, keys: seq<string>) {
    forall i, j :: 0 <= i < j < |keys| ==> LastAccess(history, keys[i]) < LastAccess(history, keys[j])
  }

  lemma {:induction false} WithoutOrdered(history: seq<string>, keys: seq<string>, key: string)
    requires OrderedByAccess(history, keys)
    ensures OrderedByAccess(history, Without(keys, key))
  {
    if keys != [] {
      var init := keys[..|keys| - 1];
      WithoutOrdered(history, init, key);
      WithoutIs(init, key);
      var rest := Without(init, key);
      if keys[|keys| - 1] != key {
        forall i | 0 <= i < |rest| ensures LastAccess(history, rest[i]) < LastAccess(history, keys[|keys| - 1]) {
          assert rest[i] in init;
        }
      }
    }
  }

  lemma {:induction false} AccessBound(history: seq<string>, key: string)
    ensures -1 <= LastAccess(history, key) < |history|
    ensures key in history <==> LastAccess(history, key) >= 0
  {
    if history != [] {
      AccessBound(history[..|history| - 1], key);
      assert history == history[..|history| - 1] + [history[|history| - 1]];
    }
  }

  /** The reference means what it says: every accessed key once, ordered by its last access. */
  lemma {:induction false} RecencyIsByLastAccess(history: seq<string>)
    ensures forall k :: k in Recency(history) <==> k in history
    ensures Distinct(Recency(history))
    ensures OrderedByAccess(history, Recency(history))
  {
    if history != [] {
      var init, last := history[..|history| - 1], history[|history| - 1];
      RecencyIsByLastAccess(init);
      WithoutIs(Recency(init), last);
      WithoutOrdered(init, Recency(init), last);
      assert history == init + [last];
      var rest := Without(Recency(init), last);
      forall i | 0 <= i < |rest| ensures LastAccess(history, rest[i]) == LastAccess(init, rest[i]) < |history| - 1 {
        assert rest[i] in rest;
        AccessBound(init, rest[i]);
      }
    }
  }

  // ----- Traces -----

  datatype Access<V> = Store(key: string, value: V) | Hit(key: string)

  function AccessKeys<V>(trace: seq<Access<V>>): seq<string> {
    seq(|trace|, i requires 0 <= i < |trace| => trace[i].key)
  }

  /** One access; a hit re-inserts the cached value. */
  function Apply<V>(es: seq<Entry<V>>, a: Access<V>, limit: nat): seq<Entry<V>> {
    match a
    case Store(key, value) => Remembered(es, key, value, limit)
    case Hit(key) =>
      match Lookup(es, key)
      case None => es
      case Some(value) => Moved(es, key, value)
  }

  function Replay<V>(es: seq<Entry<V>>, trace: seq<Access<V>>, limit: nat): seq<Entry<V>> {
    if trace == [] then es else Apply(Replay(es, trace[..|trace| - 1], limit), trace[|trace| - 1], limit)
  }

  /** Every hit of the trace finds its key, and no key is the empty text. */
  ghost predicate Legal<V>(es: seq<Entry<V>>, trace: seq<Access<V>>, limit: nat) {
    trace != [] ==>
      && Legal(es, trace[..|trace| - 1], limit)
      && trace[|trace| - 1].key != ""
      && (trace[|trace| - 1].Hit? ==> trace[|trace| - 1].key in Keys(Replay(es, trace[..|trace| - 1], limit)))
  }

  lemma {:induction false} LookupKeys<V>(es: seq<Entry<V>>, key: string)
    ensures Lookup(es, key).Some? <==> key in Keys(es)
  {
    if es != [] {
      LookupKeys(es[1..], key);
      assert Keys(es) == [es[0].key] + Keys(es[1..]);
    }
  }

  lemma {:induction false} RemovedKeys<V>(es: seq<Entry<V>>, key: string)
    ensures Keys(Removed(es, key)) == Without(Keys(es), key)
  {
    if es != [] {
      var init := es[..|es| - 1];
      RemovedKeys(init, key);
      assert Keys(es)[..|es| - 1] == Keys(init);
      assert Removed(es, key)
        == if es[|es| - 1].key == key then Removed(init, key) else Removed(init, key) + [es[|es| - 1]];
    }
  }

  lemma MovedKeys<V>(es: seq<Entry<V>>, key: string, value: V)
    ensures Keys(Moved(es, key, value)) == Without(Keys(es), key) + [key]
  {
    RemovedKeys(es, key);
  }

  /** The recency list splits into what has left the window and the window. */
  lemma WindowSplits(all: seq<string>, limit: nat) returns (older: seq<string>)
    requires Distinct(all)
    ensures all == older + LastN(all, limit)
    ensures Distinct(LastN(all, limit))
    ensures forall k :: k in LastN(all, limit) ==> k !in older
    ensures |LastN(all, limit)| < limit ==> older == []
    ensures |LastN(all, limit)| <= limit
  {
    var window := LastN(all, limit);
    older := all[..|all| - |window|];
    forall k | k in window ensures k !in older {
      var j :| 0 <= j < |window| && window[j] == k;
      assert all[|older| + j] == k;
    }
  }

  /** What one more access to `key` makes of a window of size `limit`. */
  function NextWindow(window: seq<string>, key: string, limit: nat): seq<string> {
    if key in window then Without(window, key) + [key]
    else if |window| == limit then (window + [key])[1..]
    else window + [key]
  }

  lemma LastOf(a: seq<string>, b: seq<string>, n: nat)
    requires |b| == n || (|b| <= n && a == [])
    ensures LastN(a + b, n) == b
  {
  }

  lemma WindowOf(older: seq<string>, window: seq<string>, key: string, limit: nat)
    requires limit >= 1 && Distinct(window) && |window| <= limit && (|window| < limit ==> older == [])
    requires forall k :: k in window ==> k !in older
    ensures LastN(Without(older + window, key) + [key], limit) == NextWindow(window, key, limit)
  {
    WithoutAppend(older, window, key);
    if key in window {
      WindowKeepsKey(older, window, key, limit);
    } else {
      WindowTakesKey(older, window, key, limit);
    }
  }

  lemma WindowKeepsKey(older: seq<string>, window: seq<string>, key: string, limit: nat)
    requires limit >= 1 && Distinct(window) && |window| <= limit && (|window| < limit ==> older == [])
    requires key in window && key !in older
    ensures LastN(Without(older, key) + Without(window, key) + [key], limit) == Without(window, key) + [key]
  {
    WithoutOne(window, key);
    WithoutIs(older, key);
    Reassociate(older, Without(window, key), [key]);
    LastOf(older, Without(window, key) + [key], limit);
  }

  lemma WindowTakesKey(older: seq<string>, window: seq<string>, key: string, limit: nat)
    requires limit >= 1 && |window| <= limit && (|window| < limit ==> older == [])
    requires key !in window
    ensures LastN(Without(older, key) + Without(window, key) + [key], limit) == NextWindow(window, key, limit)
  {
    var rest := Without(older, key);
    WithoutIs(window, key);
    Reassociate(rest, window, [key]);
    if |window| < limit {
      LastOf(rest, window + [key], limit);
    } else {
      FirstFallsOut(rest, window + [key], limit);
    }
  }

  lemma FirstFallsOut(rest: seq<string>, window: seq<string>, limit: nat)
    requires |window| == limit + 1
    ensures LastN(rest + window, limit) == window[1..]
  {
    assert window == [window[0]] + window[1..];
    Reassociate(rest, [window[0]], window[1..]);
    LastOf(rest + [window[0]], window[1..], limit);
  }

  /** Appending an access to the history moves the window the way the cache moves. */
  lemma WindowMoves(history: seq<string>, key: string, limit: nat)
    requires limit >= 1
    ensures LastN(Recency(history + [key]), limit) == NextWindow(LastN(Recency(history), limit), key, limit)
  {
    RecencyIsByLastAccess(history);
    var older := WindowSplits(Recency(history), limit);
    assert (history + [key])[..|history|] == history;
    WindowOf(older, LastN(Recency(history), limit), key, limit);
  }

  lemma EvictOne<V>(es: seq<Entry<V>>, limit: nat)
    requires limit >= 1 && |es| <= limit + 1 && (|es| == limit + 1 ==> es[0].key != "")
    ensures Keys(Evicted(es, limit)) == if |es| == limit + 1 then Keys(es)[1..] else Keys(es)
  {
    if |es| == limit + 1 {
      assert Evicted(es, limit) == Evicted(es[1..], limit) == es[1..];
      assert Keys(es[1..]) == Keys(es)[1..];
    }
  }

  lemma {:induction false} NonEmptyKeys<V>(start: seq<string>, trace: seq<Access<V>>)
    requires "" !in start && forall i :: 0 <= i < |trace| ==> trace[i].key != ""
    ensures "" !in Recency(start + AccessKeys(trace))
  {
    RecencyIsByLastAccess(start + AccessKeys(trace));
  }

  lemma {:induction false} LegalKeys<V>(es: seq<Entry<V>>, trace: seq<Access<V>>, limit: nat)
    requires Legal(es, trace, limit)
    ensures forall i :: 0 <= i < |trace| ==> trace[i].key != ""
  {
    if trace != [] { LegalKeys(es, trace[..|trace| - 1], limit); }
  }

  lemma {:induction false} DistinctIsRecency(keys: seq<string>)
    requires Distinct(keys)
    ensures Recency(keys) == keys
  {
    if keys != [] {
      var init, last := keys[..|keys| - 1], keys[|keys| - 1];
      DistinctIsRecency(init);
      assert last !in init;
      WithoutIs(init, last);
    }
  }

  lemma HitKeys<V>(es: seq<Entry<V>>, key: string, limit: nat)
    requires key in Keys(es)
    ensures Keys(Apply(es, Hit(key), limit)) == NextWindow(Keys(es), key, limit)
  {
    LookupKeys(es, key);
    MovedKeys(es, key, Lookup(es, key).value);
  }

  lemma StoreKeys<V>(es: seq<Entry<V>>, key: string, value: V, limit: nat)
    requires limit >= 1 && |es| <= limit && Distinct(Keys(es)) && "" !in Keys(es)
    ensures Keys(Remembered(es, key, value, limit)) == NextWindow(Keys(es), key, limit)
  {
    var moved := Moved(es, key, value);
    MovedKeys(es, key, value);
    WithoutIs(Keys(es), key);
    assert |Keys(moved)| == |moved|;
    if key in Keys(es) {
      WithoutOne(Keys(es), key);
    } else if |es| == limit {
      assert moved[0].key == Keys(moved)[0] == Keys(es)[0];
    }
    EvictOne(moved, limit);
  }

  /** LRU refinement: from any content within the limit (after any clearing, say), the cache holds
      exactly the most recently accessed keys, in order of last access. */
  lemma {:induction false} HoldsMostRecent<V>(es: seq<Entry<V>>, trace: seq<Access<V>>, limit: nat)
    requires limit >= 1 && |es| <= limit && Distinct(Keys(es)) && "" !in Keys(es)
    requires Legal(es, trace, limit)
    ensures Keys(Replay(es, trace, limit)) == LastN(Recency(Keys(es) + AccessKeys(trace)), limit)
  {
    if trace == [] {
      assert Keys(es) + AccessKeys(trace) == Keys(es);
      DistinctIsRecency(Keys(es));
    } else {
      var init, a := trace[..|trace| - 1], trace[|trace| - 1];
      var before := Replay(es, init, limit);
      var history := Keys(es) + AccessKeys(init);
      HoldsMostRecent(es, init, limit);
      assert Keys(es) + AccessKeys(trace) == history + [a.key];
      WindowMoves(history, a.key, limit);
      WindowKeys(es, init, limit);
      if a.Hit? { HitKeys(before, a.key, limit); } else { StoreKeys(before, a.key, a.value, limit); }
    }
  }

  lemma WindowKeys<V>(es: seq<Entry<V>>, trace: seq<Access<V>>, limit: nat)
    requires "" !in Keys(es) && Legal(es, trace, limit)
    ensures var window := LastN(Recency(Keys(es) + AccessKeys(trace)), limit);
      Distinct(window) && "" !in window && |window| <= limit
  {
    LegalKeys(es, trace, limit);
    NonEmptyKeys(Keys(es), trace);
    RecencyIsByLastAccess(Keys(es) + AccessKeys(trace));
    var _ := WindowSplits(Recency(Keys(es) + AccessKeys(trace)), limit);
  }

  /** A smaller cache replaying the same trace is always the tail of a larger one. */
  lemma {:induction false} SmallerCacheIsTail<V>(es: seq<Entry<V>>, trace: seq<Access<V>>, small: nat, large: nat)
    requires 1 <= small <= large && |es| <= small && Distinct(Keys(es)) && "" !in Keys(es)
    requires Legal(es, trace, small)
    ensures Legal(es, trace, large)
    ensures Keys(Replay(es, trace, small)) == LastN(Keys(Replay(es, trace, large)), small)
  {
    if trace != [] { SmallerCacheIsTail(es, trace[..|trace| - 1], small, large); }
    HoldsMostRecent(es, trace, small);
    HoldsMostRecent(es, trace, large);
  }

  // ----- Values -----

  /** What was last stored under `key`. */
  function LastStored<V>(es: seq<Entry<V>>, trace: seq<Access<V>>, key: string): Option<V> {
    if trace == [] then Lookup(es, key)
    else
      var a := trace[|trace| - 1];
      if a.Store? && a.key == key then Some(a.value) else LastStored(es, trace[..|trace| - 1], key)
  }

  lemma {:induction false} LookupAppend<V>(a: seq<Entry<V>>, b: seq<Entry<V>>, key: string)
    ensures Lookup(a + b, key) == if Lookup(a, key).Some? then Lookup(a, key) else Lookup(b, key)
  {
    if a == [] {
      assert a + b == b;
    } else {
      assert (a + b)[1..] == a[1..] + b;
      LookupAppend(a[1..], b, key);
    }
  }

  lemma {:induction false} LookupRemoved<V>(es: seq<Entry<V>>, gone: string, key: string)
    ensures Lookup(Removed(es, gone), key) == if key == gone then None else Lookup(es, key)
  {
    if es != [] {
      var init, last := es[..|es| - 1], es[|es| - 1];
      LookupRemoved(init, gone, key);
      assert es == init + [last];
      LookupAppend(init, [last], key);
      LookupAppend(Removed(init, gone), [last], key);
      assert Removed(es, gone) == if last.key == gone then Removed(init, gone) else Removed(init, gone) + [last];
    }
  }

  lemma LookupMoved<V>(es: seq<Entry<V>>, moved: string, value: V, key: string)
    ensures Lookup(Moved(es, moved, value), key) == if key == moved then Some(value) else Lookup(es, key)
  {
    LookupRemoved(es, moved, key);
    LookupAppend(Removed(es, moved), [Entry(moved, value)], key);
  }

  lemma {:induction false} LookupEvicted<V>(es: seq<Entry<V>>, limit: nat, key: string)
    requires Distinct(Keys(es))
    ensures Lookup(Evicted(es, limit), key).Some? ==> Lookup(Evicted(es, limit), key) == Lookup(es, key)
    decreases |es|
  {
    if !(|es| <= limit || es[0].key == "") {
      assert Keys(es) == [es[0].key] + Keys(es[1..]);
      assert Distinct(Keys(es[1..])) by {
        forall i, j | 0 <= i < j < |es| - 1 ensures Keys(es[1..])[i] != Keys(es[1..])[j] {
          assert Keys(es[1..])[i] == Keys(es)[i + 1] && Keys(es[1..])[j] == Keys(es)[j + 1];
        }
      }
      LookupEvicted(es[1..], limit, key);
      forall j | 0 <= j < |es| - 1 ensures Keys(es[1..])[j] != es[0].key {
        assert Keys(es)[j + 1] != Keys(es)[0];
      }
      LookupKeys(es[1..], key);
      if Lookup(Evicted(es[1..], limit), key).Some? { assert key in Keys(es[1..]); }
    }
  }

  lemma MovedDistinct<V>(es: seq<Entry<V>>, key: string, value: V)
    requires Distinct(Keys(es))
    ensures Distinct(Keys(Moved(es, key, value)))
  {
    MovedKeys(es, key, value);
    WithoutIs(Keys(es), key);
  }

  /** A cached response is always the one last stored under its key. */
  lemma {:induction false} HoldsLastStored<V>(es: seq<Entry<V>>, trace: seq<Access<V>>, limit: nat, key: string)
    requires limit >= 1 && |es| <= limit && Distinct(Keys(es)) && "" !in Keys(es)
    requires Legal(es, trace, limit)
    ensures Lookup(Replay(es, trace, limit), key).Some?
      ==> Lookup(Replay(es, trace, limit), key) == LastStored(es, trace, key)
  {
    if trace != [] {
      var init, a := trace[..|trace| - 1], trace[|trace| - 1];
      var before := Replay(es, init, limit);
      HoldsLastStored(es, init, limit, key);
      HoldsMostRecent(es, init, limit);
      WindowKeys(es, init, limit);
      LookupKeys(before, a.key);
      match a {
        case Hit(k) => LookupMoved(before, k, Lookup(before, k).value, key);
        case Store(k, value) =>
          LookupMoved(before, k, value, key);
          MovedDistinct(before, k, value);
          LookupEvicted(Moved(before, k, value), limit, key);
      }
    }
  }

  /** The limit is kept by every store except one: a new key stored into a full cache whose oldest
      key is the empty text. */
  lemma LimitKeptUnlessEmptyOldest<V>(es: seq<Entry<V>>, key: string, value: V, limit: nat)
    requires limit >= 1 && |es| <= limit && Distinct(Keys(es))
    ensures |Remembered(es, key, value, limit)| <= limit
      <==> !(key !in Keys(es) && |es| == limit && es[0].key == "")
  {
    var moved := Moved(es, key, value);
    MovedKeys(es, key, value);
    WithoutIs(Keys(es), key);
    assert |Keys(moved)| == |moved|;
    if key in Keys(es) {
      WithoutOne(Keys(es), key);
    } else if |es| == limit {
      assert moved[0].key == Keys(moved)[0] == Keys(es)[0];
      if es[0].key != "" { assert Evicted(moved, limit) == Evicted(moved[1..], limit) == moved[1..]; }
    }
  }

  // ----- The caches -----

  predicate HasPrefix(prefix: string, key: string) { prefix <= key }

  predicate Contains(text: string, part: string) {
    exists i {:trigger text[i..]} :: 0 <= i <= |text| && part <= text[i..]
  }

  predicate IsAnalysisContext(key: string) {
    Contains(key, "/analysis/context/") || Contains(key, "/analysis-contexts/")
  }

  lemma ContainsIff(text: string, part: string)
    ensures Contains(text, part) <==> exists before, after :: text == before + part + after
  {
    if Contains(text, part) {
      var i :| 0 <= i <= |text| && part <= text[i..];
      assert text == text[..i] + part + text[i + |part|..];
    }
    forall before, after | text == before + part + after ensures Contains(text, part) {
      assert text[|before|..] == part + after;
    }
  }

  /** The addresses `clearAnalysisContextEntries` drops, spelled out. */
  lemma AnalysisContextsAre(key: string)
    ensures IsAnalysisContext(key) <==> exists before, after ::
      key == before + "/analysis/context/" + after || key == before + "/analysis-contexts/" + after
  {
    ContainsIff(key, "/analysis/context/");
    ContainsIff(key, "/analysis-contexts/");
  }

  lemma RemovedAbsent<V>(es: seq<Entry<V>>, key: string)
    ensures key !in Keys(Removed(es, key))
  {
    RemovedKeys(es, key);
    WithoutIs(Keys(es), key);
  }

  lemma {:induction false} PutAbsent<V>(es: seq<Entry<V>>, key: string, value: V)
    requires key !in Keys(es)
    ensures Put(es, key, value) == es + [Entry(key, value)]
  {
    if es != [] {
      assert Keys(es) == [es[0].key] + Keys(es[1..]);
      PutAbsent(es[1..], key, value);
    }
  }

  lemma {:induction false} KeptSame<V>(es: seq<Entry<V>>, p: string -> bool, q: string -> bool)
    requires forall i :: 0 <= i < |es| ==> (p(es[i].key) <==> q(es[i].key))
    ensures Kept(es, p) == Kept(es, q)
  {
    if es != [] { KeptSame(es[..|es| - 1], p, q); }
  }

  lemma {:induction false} KeptTwice<V>(es: seq<Entry<V>>, p: string -> bool, q: string -> bool, r: string -> bool)
    requires forall i :: 0 <= i < |es| ==> (r(es[i].key) <==> p(es[i].key) || q(es[i].key))
    ensures Kept(Kept(es, p), q) == Kept(es, r)
  {
    if es != [] {
      var init, last := es[..|es| - 1], es[|es| - 1];
      KeptTwice(init, p, q, r);
      if !p(last.key) { KeptAppend(Kept(init, p), [last], q); }
      assert Kept([last], q) == if q(last.key) then [] else [last];
    }
  }

  function KeptSeen<V>(es: seq<Entry<V>>, matches: string -> bool, seen: seq<string>): seq<Entry<V>> {
    Kept(es, k => matches(k) && k in seen)
  }

  lemma {:induction false} KeptNothing<V>(es: seq<Entry<V>>, p: string -> bool)
    requires forall i :: 0 <= i < |es| ==> !p(es[i].key)
    ensures Kept(es, p) == es
  {
    if es != [] { KeptNothing(es[..|es| - 1], p); }
  }

  lemma KeptNone<V>(es: seq<Entry<V>>, matches: string -> bool)
    ensures KeptSeen(es, matches, []) == es
  {
    KeptNothing(es, k => matches(k) && k in []);
  }

  lemma KeptSeenOneMore<V>(es: seq<Entry<V>>, matches: string -> bool, keys: seq<string>, i: nat)
    requires i < |keys|
    ensures KeptSeen(es, matches, keys[..i + 1])
         == if matches(keys[i]) then Removed(KeptSeen(es, matches, keys[..i]), keys[i])
            else KeptSeen(es, matches, keys[..i])
  {
    assert keys[..i + 1] == keys[..i] + [keys[i]];
    if matches(keys[i]) {
      KeptTwice(es, k => matches(k) && k in keys[..i], k => k == keys[i], k => matches(k) && k in keys[..i + 1]);
      KeptSame(KeptSeen(es, matches, keys[..i]), k => k == keys[i], k => k == keys[i]);
    } else {
      KeptSame(es, k => matches(k) && k in keys[..i], k => matches(k) && k in keys[..i + 1]);
    }
  }

  lemma KeptSeenAll<V>(es: seq<Entry<V>>, matches: string -> bool)
    ensures KeptSeen(es, matches, Keys(es)) == Kept(es, matches)
  {
    forall i | 0 <= i < |es| ensures es[i].key in Keys(es) { assert Keys(es)[i] == es[i].key; }
    KeptSame(es, k => matches(k) && k in Keys(es), matches);
  }

  lemma {:induction false} RemovedFirst<V>(es: seq<Entry<V>>)
    requires es != [] && Distinct(Keys(es))
    ensures Removed(es, es[0].key) == es[1..]
    ensures Distinct(Keys(es[1..]))
  {
    var key := es[0].key;
    DistinctTail(es);
    assert es == [es[0]] + es[1..];
    KeptAppend([es[0]], es[1..], k => k == key);
    KeptNothing(es[1..], k => k == key);
    assert Kept([es[0]], k => k == key) == [];
  }

  lemma DistinctTail<V>(es: seq<Entry<V>>)
    requires es != [] && Distinct(Keys(es))
    ensures Distinct(Keys(es[1..]))
    ensures forall i :: 0 <= i < |es[1..]| ==> es[1..][i].key != es[0].key
  {
    forall i | 0 <= i < |es| - 1 ensures es[1..][i].key != es[0].key {
      assert Keys(es)[i + 1] != Keys(es)[0];
    }
    forall i, j | 0 <= i < j < |es| - 1 ensures Keys(es[1..])[i] != Keys(es[1..])[j] {
      assert Keys(es)[i + 1] != Keys(es)[j + 1];
    }
  }

  lemma NothingRemoved<V>(es: seq<Entry<V>>, key: string)
    requires key !in Keys(es)
    ensures Removed(es, key) == es
  {
    forall i | 0 <= i < |es| ensures es[i].key != key { assert Keys(es)[i] == es[i].key; }
    KeptNothing(es, k => k == key);
  }

  class ResponseCache<V> {
    var entries: seq<Entry<V>>
    const limit: nat

    constructor (limit: nat)
      ensures this.limit == limit && entries == []
    {
      this.limit := limit;
      entries := [];
    }

    method Get(key: string) returns (r: Option<V>)
      ensures r == Lookup(entries, key)
    {
      for i := 0 to |entries|
        invariant Lookup(entries, key) == Lookup(entries[i..], key)
      {
        if entries[i].key == key { return Some(entries[i].value); }
      }
      r := None;
    }

    method Delete(key: string)
      modifies this
      ensures entries == Removed(old(entries), key)
    {
      entries := Removed(entries, key);
    }

    method Set(key: string, value: V)
      modifies this
      ensures entries == Put(old(entries), key, value)
    {
      entries := Put(entries, key, value);
    }

    /** Delete and set again: the key moves to the end. */
    method Touch(key: string, value: V)
      modifies this
      ensures entries == Moved(old(entries), key, value)
    {
      Delete(key);
      RemovedAbsent(old(entries), key);
      PutAbsent(entries, key, value);
      Set(key, value);
    }

    method Remember(key: string, value: V)
      requires Distinct(Keys(entries))
      modifies this
      ensures entries == Remembered(old(entries), key, value, limit)
      ensures Distinct(Keys(entries))
    {
      Touch(key, value);
      MovedDistinct(old(entries), key, value);
      while |entries| > limit
        invariant Distinct(Keys(entries))
        invariant Evicted(entries, limit) == Remembered(old(entries), key, value, limit)
        decreases |entries|
      {
        var oldest := entries[0].key;
        if oldest == "" { break; }
        RemovedFirst(entries);
        Delete(oldest);
      }
    }

    /** A read: a hit is moved to the end. */
    method Read(key: string) returns (r: Option<V>)
      modifies this
      ensures r == Lookup(old(entries), key)
      ensures entries == Apply(old(entries), Hit(key), limit)
    {
      r := Get(key);
      if r.Some? { Touch(key, r.value); }
    }

    /** A read with a time to live: a fresh hit is moved to the end, an expired entry is dropped. */
    method ReadUnexpired(key: string, expired: V -> bool) returns (r: Option<V>)
      modifies this
      ensures var found := Lookup(old(entries), key);
        if found.Some? && !expired(found.value)
        then r == found && entries == Moved(old(entries), key, found.value)
        else r == None && entries == Removed(old(entries), key)
    {
      var found := Get(key);
      if found.Some? && !expired(found.value) {
        Touch(key, found.value);
        return found;
      }
      if found.Some? {
        Delete(key);
      } else {
        LookupKeys(entries, key);
        NothingRemoved(entries, key);
      }
      r := None;
    }

    /** The clearing loops: delete each key of a snapshot of the keys that matches. */
    method ClearMatching(matches: string -> bool)
      modifies this
      ensures entries == Kept(old(entries), matches)
    {
      var snapshot := Keys(entries);
      KeptNone(entries, matches);
      for i := 0 to |snapshot|
        invariant entries == KeptSeen(old(entries), matches, snapshot[..i])
      {
        KeptSeenOneMore(old(entries), matches, snapshot, i);
        if matches(snapshot[i]) { Delete(snapshot[i]); }
      }
      KeptSeenAll(old(entries), matches);
      assert snapshot[..|snapshot|] == snapshot;
    }

    /** `clearKind`: every key of one kind goes, nothing else moves. */
    method ClearKind(kind: string)
      modifies this
      ensures entries == Kept(old(entries), k => kind + ":" <= k)
    {
      var prefix := kind + ":";
      ClearMatching(k => HasPrefix(prefix, k));
      KeptSame(old(entries), k => HasPrefix(prefix, k), k => kind + ":" <= k);
    }

    /** `clearAnalysisContextEntries`. */
    method ClearAnalysisContextEntries()
      modifies this
      ensures entries == Kept(old(entries), k => IsAnalysisContext(k))
    {
      ClearMatching(IsAnalysisContext);
      KeptSame(old(entries), IsAnalysisContext, k => IsAnalysisContext(k));
    }
  }
}
