/** The client itself: an object whose methods update its maps, queue and counters in place.
    Every method is proved to do exactly what the step system of DataClient says. The promise
    reactions the browser keeps (`waiters`), the request objects and the journal are fields too. */
module ProcurementClient {
  import opened Text
  import opened QueryContext
  import opened RequestCore
  import opened DataClient

  datatype Cached = Cached(payload: Payload, stale: bool)

  datatype PrefetchReply =
    | FirstPageOnly
    | FromCache(payload: Payload)
    | JoinedRequest(request: nat)
    | Queued(task: nat)

  datatype SwrReply = AwaitingLoad(call: nat) | ServedFromCache(call: nat, cached: Cached)

  datatype Invalidation = Invalidation(invalidated: nat, dashboardAffected: bool, directAffected: bool)

  predicate IsDirect(context: string) { "direct:" <= context }

  /** What aborting does apart from the journal. */
  function AbortQuietly(c: Core, keys: set<QueryKey>): Core { Abort(c, keys).(log := c.log) }

  /** Aborting one more key after the keys `done`. */
  lemma AbortOneMore(c: Core, done: set<QueryKey>, key: QueryKey)
    requires key !in done
    ensures AbortQuietly(AbortQuietly(c, done), {key}) == AbortQuietly(c, done + {key})
  {
    var d := AbortQuietly(c, done);
    RequestsOneMore(c, done, key);
    GenerationsOneMore(c, done, key);
    assert d.controllers - {key} == c.controllers - (done + {key});
    assert d.inflight - {key} == c.inflight - (done + {key});
  }

  lemma RequestsOneMore(c: Core, done: set<QueryKey>, key: QueryKey)
    requires key !in done
    ensures Abort(AbortQuietly(c, done), {key}).requests == Abort(c, done + {key}).requests
  {
    var d := AbortQuietly(c, done);
    forall r: nat | r < |c.requests| ensures Abort(d, {key}).requests[r] == Abort(c, done + {key}).requests[r] {
      assert d.requests[r] == AbortRequest(c, done, r);
      assert Abort(d, {key}).requests[r] == AbortRequest(d, {key}, r);
      assert Abort(c, done + {key}).requests[r] == AbortRequest(c, done + {key}, r);
    }
  }

  lemma GenerationsOneMore(c: Core, done: set<QueryKey>, key: QueryKey)
    requires key !in done
    ensures Abort(AbortQuietly(c, done), {key}).generation == Abort(c, done + {key}).generation
  {
    var d := AbortQuietly(c, done);
    assert forall k :: Gen(d, k) == if k in done then Gen(c, k) + 1 else Gen(c, k);
  }

  lemma AbortedRequests(c: Core, key: QueryKey)
    ensures Abort(c, {key}).requests ==
      if key in c.controllers && c.controllers[key] < |c.requests| && c.requests[c.controllers[key]].key == key
      then c.requests[c.controllers[key] := c.requests[c.controllers[key]].(aborted := true)]
      else c.requests
  {
    forall r: nat | r < |c.requests| ensures Abort(c, {key}).requests[r] == AbortRequest(c, {key}, r) { }
  }

  lemma AbortedMaps(c: Core, key: QueryKey)
    ensures Abort(c, {key}).generation == c.generation[key := Gen(c, key) + 1]
  {
  }

  lemma AbortNone(c: Core)
    ensures AbortQuietly(c, {}) == c
  {
    var d := Abort(c, {});
    assert d.requests == c.requests;
    assert d.generation == c.generation;
    assert d.controllers == c.controllers && d.inflight == c.inflight;
  }

  function Matching(cache: map<QueryKey, CacheEntry>, matches: QueryKey -> bool): set<QueryKey> {
    set k | k in cache && matches(k)
  }

  lemma GoneOneMore(
    cache: map<QueryKey, CacheEntry>, matches: QueryKey -> bool, remaining: set<QueryKey>, key: QueryKey)
    requires remaining <= cache.Keys && key in remaining
    ensures Matching(cache, matches) - (remaining - {key})
         == (Matching(cache, matches) - remaining) + (if matches(key) then {key} else {})
    ensures key !in Matching(cache, matches) - remaining
  {
  }

  lemma DropOneMore(cache: map<QueryKey, CacheEntry>, gone: set<QueryKey>, key: QueryKey)
    ensures (cache - gone) - {key} == cache - (gone + {key})
  {
  }

  /** What the drain loop does with the prefetch at the head of the queue. */
  function DrainHead(s: Client, visible: bool): Client
    requires s.pre.queue != []
  {
    if s.pre.queue[0].epoch != s.pre.epoch || !visible then RejectHead(s) else StartHead(s)
  }

  lemma DrainByHead(s: Client, visible: bool)
    requires s.pre.active < s.pre.limit && s.pre.queue != []
    ensures Drain(s, visible) == Drain(DrainHead(s, visible), visible)
    ensures DrainHead(s, visible).pre.queue == s.pre.queue[1..]
  {
  }

  lemma FlagsSpelled(texts: seq<string>)
    ensures "dashboard:metrics" in CleanContexts(texts) <==> exists v :: v in texts && Trim(v) == "dashboard:metrics"
    ensures (exists v :: v in CleanContexts(texts) && IsDirect(v)) <==> exists v :: v in texts && "direct:" <= Trim(v)
  {
    if v :| v in CleanContexts(texts) && IsDirect(v) {
      var t :| t in texts && Trim(t) == v;
    }
    if v :| v in texts && "direct:" <= Trim(v) {
      assert Trim(v) in CleanContexts(texts);
    }
  }

  class ProcurementDataClient {
    const cacheTtlMs: int
    const prefetchConcurrency: nat
    var cache: map<QueryKey, CacheEntry>
    var inflight: map<QueryKey, nat>
    var controllers: map<QueryKey, nat>
    var generation: map<QueryKey, nat>
    var prefetchedKeys: set<QueryKey>
    var prefetchQueue: seq<Task>
    var prefetchActive: nat
    var prefetchEpoch: nat

    var requests: seq<Request>
    var waiters: seq<Waiter>
    var log: seq<Event>
    var created: nat
    var settled: seq<Settlement>
    var calls: nat
    var outputs: seq<Output>

    ghost function View(): Client
      reads this
    {
      Client(cacheTtlMs, CoreView(), waiters, PrefetchView(), calls, outputs)
    }

    ghost function CoreView(): Core
      reads this`cache, this`inflight, this`controllers, this`generation, this`requests, this`log
    {
      Core(cache, inflight, controllers, generation, requests, log)
    }

    ghost function PrefetchView(): Prefetcher
      reads this`prefetchQueue, this`prefetchActive, this`prefetchEpoch, this`created, this`settled
      reads this`prefetchedKeys
    {
      Prefetcher(prefetchConcurrency, prefetchQueue, prefetchActive, prefetchEpoch, created, settled, prefetchedKeys)
    }

    constructor (ttl: int, concurrency: int)
      ensures View() == Fresh(ttl, concurrency)
      ensures cacheTtlMs == ttl && prefetchConcurrency == if concurrency <= 1 then 1 else 2
    {
      cacheTtlMs := ttl;
      prefetchConcurrency := Clamp(concurrency);
      cache, inflight, controllers, generation := map[], map[], map[], map[];
      prefetchedKeys, prefetchQueue, prefetchActive, prefetchEpoch := {}, [], 0, 0;
      requests, waiters, log, created, settled, calls, outputs := [], [], [], 0, [], 0, [];
    }

    /** A cached entry and whether it has outlived the time to live; null when there is none. */
    method GetCached(key: QueryKey, now: int) returns (r: Option<Cached>)
      ensures r.Some? <==> key in cache
      ensures r.Some? ==> r.value.payload == cache[key].payload
      ensures r.Some? ==> (r.value.stale <==> now > cache[key].fetchedAt + cacheTtlMs)
    {
      if key !in cache { return None; }
      var entry := cache[key];
      r := Some(Cached(entry.payload, IsStale(cacheTtlMs, entry, now)));
    }

    method FetchKey(key: QueryKey) returns (r: nat)
      modifies this`generation, this`controllers, this`inflight, this`requests, this`log
      ensures CoreView() == Fetch(old(CoreView()), key)
      ensures r == Fetched(old(CoreView()), key)
    {
      if key in inflight { return inflight[key]; }
      r := |requests|;
      var requestGeneration := (if key in generation then generation[key] else 0) + 1;
      generation := generation[key := requestGeneration];
      controllers := controllers[key := r];
      requests := requests + [Request(key, requestGeneration, |log|, false, Waiting)];
      log := log + [Started(r)];
      inflight := inflight[key := r];
    }

    method LoadKey(key: QueryKey) returns (r: nat)
      modifies this`generation, this`controllers, this`inflight, this`requests, this`log
      ensures View() == Load(old(View()), key)
      ensures CoreView() == Fetch(old(CoreView()), key)
      ensures r == Fetched(old(CoreView()), key)
    {
      r := FetchKey(key);
    }

    method StaleWhileRevalidate(key: QueryKey, now: int) returns (r: SwrReply)
      modifies this
      ensures View() == Swr(old(View()), key)
      ensures r.call == old(calls)
      ensures r.ServedFromCache? <==> key in old(cache)
      ensures r.ServedFromCache? ==> r.cached.payload == old(cache)[key].payload
    {
      var cached := GetCached(key, now);
      var call := calls;
      calls := calls + 1;
      if cached.None? {
        r := LoadCold(key, call);
        assert PrefetchView() == old(PrefetchView());
      } else {
        r := ServeFromCache(key, call, cached.value);
        assert PrefetchView() == old(PrefetchView()).(marked := prefetchedKeys);
      }
      assert CoreView() == Fetch(old(CoreView()), key);
    }

    /** The uncached branch: a lifecycle event and a load to wait for. */
    method LoadCold(key: QueryKey, call: nat) returns (r: SwrReply)
      modifies this`generation, this`controllers, this`inflight, this`requests, this`log
      modifies this`waiters, this`outputs
      ensures r == AwaitingLoad(call)
      ensures CoreView() == Fetch(old(CoreView()), key)
      ensures waiters == old(waiters) + [Waiter(Fetched(old(CoreView()), key), ColdCall(call, key))]
      ensures outputs == old(outputs) + [Lifecycle(call, key, ColdStart)]
    {
      outputs := outputs + [Lifecycle(call, key, ColdStart)];
      var request := LoadKey(key);
      waiters := waiters + [Waiter(request, ColdCall(call, key))];
      r := AwaitingLoad(call);
    }

    /** The cached branch: a lifecycle event, the background refresh, and the cached payload. */
    method ServeFromCache(key: QueryKey, call: nat, cached: Cached) returns (r: SwrReply)
      requires key in cache && cached.payload == cache[key].payload
      modifies this`generation, this`controllers, this`inflight, this`requests, this`log
      modifies this`waiters, this`outputs, this`prefetchedKeys
      ensures r == ServedFromCache(call, cached)
      ensures CoreView() == Fetch(old(CoreView()), key)
      ensures waiters == old(waiters) + [Waiter(Fetched(old(CoreView()), key), RefreshCall(call, key))]
      ensures prefetchedKeys == old(prefetchedKeys) - {key}
      ensures outputs == old(outputs) + [Lifecycle(call, key, CacheHit(key in old(prefetchedKeys))),
                                         Resolved(call, cached.payload, old(cache)[key].writer)]
    {
      var writer := cache[key].writer;
      var prefetched := key in prefetchedKeys;
      prefetchedKeys := prefetchedKeys - {key};
      outputs := outputs + [Lifecycle(call, key, CacheHit(prefetched))];
      var request := LoadKey(key);
      waiters := waiters + [Waiter(request, RefreshCall(call, key))];
      outputs := outputs + [Resolved(call, cached.payload, writer)];
      r := ServedFromCache(call, cached);
    }

    /** One round of the drain loop. */
    method TakeTask(visible: bool)
      requires prefetchQueue != []
      modifies this
      ensures View() == DrainHead(old(View()), visible)
    {
      var task := prefetchQueue[0];
      prefetchQueue := prefetchQueue[1..];
      if task.epoch != prefetchEpoch || !visible {
        settled := settled + [Settlement(task, false)];
      } else {
        prefetchActive := prefetchActive + 1;
        var request := LoadKey(task.key);
        waiters := waiters + [Waiter(request, PrefetchTask(task))];
      }
    }

    method DrainPrefetchQueue(visible: bool)
      modifies this
      ensures View() == Drain(old(View()), visible)
    {
      while prefetchActive < prefetchConcurrency && prefetchQueue != []
        invariant Drain(View(), visible) == Drain(old(View()), visible)
        decreases |prefetchQueue|
      {
        DrainByHead(View(), visible);
        TakeTask(visible);
      }
    }

    method PrefetchKey(key: QueryKey, now: int, visible: bool) returns (r: PrefetchReply)
      modifies this
      ensures View() == Prefetch(old(View()), key, now, visible)
      ensures r.FirstPageOnly? <==> key.page != 1
      ensures r.FromCache? <==> key.page == 1 && key in old(cache) && now <= old(cache)[key].fetchedAt + cacheTtlMs
      ensures r.FromCache? ==> r.payload == old(cache)[key].payload
      ensures r.JoinedRequest? <==> key.page == 1 && !r.FromCache? && key in old(inflight)
      ensures r.JoinedRequest? ==> r.request == old(inflight)[key]
      ensures r.Queued? ==> r.task == old(created)
    {
      if key.page != 1 { return FirstPageOnly; }
      var cached := GetCached(key, now);
      if cached.Some? && !cached.value.stale { return FromCache(cached.value.payload); }
      if key in inflight { return JoinedRequest(inflight[key]); }
      r := Queued(created);
      prefetchQueue := prefetchQueue + [Task(created, key, prefetchEpoch)];
      created := created + 1;
      DrainPrefetchQueue(visible);
    }

    method CancelQueuedPrefetch()
      modifies this
      ensures View() == CancelQueued(old(View()))
    {
      prefetchEpoch := prefetchEpoch + 1;
      var queued := prefetchQueue;
      prefetchQueue := [];
      for i := 0 to |queued|
        invariant View() == old(View()).(pre := old(View()).pre.(
          epoch := old(prefetchEpoch) + 1, queue := [],
          settled := old(settled) + Rejections(queued[..i])))
      {
        settled := settled + [Settlement(queued[i], false)];
        assert Rejections(queued[..i + 1]) == Rejections(queued[..i]) + [Settlement(queued[i], false)];
      }
      assert queued[..|queued|] == queued;
    }

    /** The private `abortKey`; the public operations journal the keys they abort. */
    method AbortSilently(key: QueryKey)
      modifies this`requests, this`controllers, this`inflight, this`generation
      ensures CoreView() == AbortQuietly(old(CoreView()), {key})
    {
      ghost var c := CoreView();
      AbortedRequests(c, key);
      if key in controllers && controllers[key] < |requests| {
        var r := controllers[key];
        if requests[r].key == key {
          requests := requests[r := requests[r].(aborted := true)];
        }
      }
      controllers := controllers - {key};
      inflight := inflight - {key};
      generation := generation[key := (if key in generation then generation[key] else 0) + 1];
      AbortedMaps(c, key);
    }

    method AbortContext(key: QueryKey)
      modifies this
      ensures View() == AbortKey(old(View()), key)
    {
      AbortSilently(key);
      log := log + [AbortedKeys({key})];
    }

    method AbortEach(keys: set<QueryKey>)
      modifies this`requests, this`controllers, this`inflight, this`generation
      ensures CoreView() == AbortQuietly(old(CoreView()), keys)
    {
      ghost var c := CoreView();
      var remaining := keys;
      ghost var done: set<QueryKey> := {};
      AbortNone(c);
      while remaining != {}
        invariant done !! remaining && done + remaining == keys
        invariant CoreView() == AbortQuietly(c, done)
        decreases remaining
      {
        var key :| key in remaining;
        AbortOneMore(c, done, key);
        AbortSilently(key);
        remaining := remaining - {key};
        done := done + {key};
      }
      assert done == keys;
    }

    method AbortAllContextsExcept(keep: QueryKey)
      modifies this
      ensures View() == AbortAllExcept(old(View()), keep)
    {
      CancelQueuedPrefetch();
      var keys := controllers.Keys - {keep};
      AbortEach(keys);
      log := log + [AbortedKeys(keys)];
    }

    method InvalidateAffectedContexts(affectedContexts: seq<string>) returns (r: Invalidation)
      modifies this
      ensures View() == InvalidateKeys(old(View()), AffectedKeys(old(cache), CleanContexts(affectedContexts)))
      ensures forall k :: k in cache <==> k in old(cache) && !LabelledIn(affectedContexts, k)
      ensures forall k :: k in cache ==> cache[k] == old(cache)[k]
      ensures prefetchedKeys == old(prefetchedKeys) - (old(cache).Keys - cache.Keys)
      ensures r.invalidated == |old(cache).Keys - cache.Keys|
      ensures r.dashboardAffected <==> exists v :: v in affectedContexts && Trim(v) == "dashboard:metrics"
      ensures r.directAffected <==> exists v :: v in affectedContexts && "direct:" <= Trim(v)
    {
      var affected := CleanContexts(affectedContexts);
      var matches := (k: QueryKey) => ContextId(k) in affected;
      var count := InvalidateWhere(matches);
      r := Invalidation(count, "dashboard:metrics" in affected, exists v :: v in affected && IsDirect(v));
      ghost var gone := AffectedKeys(old(cache), affected);
      assert Matching(old(cache), matches) == gone;
      forall k | k in old(cache) ensures k in gone <==> LabelledIn(affectedContexts, k) {
        AffectedIffLabelled(old(cache), affectedContexts, k);
      }
      assert cache == old(cache) - gone && old(cache).Keys - cache.Keys == gone;
      FlagsSpelled(affectedContexts);
    }

    /** The loop both `invalidateAffectedContexts` and `invalidate(predicate)` run over the cached keys. */
    method DeleteMatching(matches: QueryKey -> bool) returns (gone: set<QueryKey>)
      modifies this`cache, this`prefetchedKeys
      ensures gone == Matching(old(cache), matches)
      ensures cache == old(cache) - gone && prefetchedKeys == old(prefetchedKeys) - gone
    {
      ghost var before, marked := cache, prefetchedKeys;
      var remaining := cache.Keys;
      gone := {};
      while remaining != {}
        invariant remaining <= before.Keys
        invariant gone == Matching(before, matches) - remaining
        invariant cache == before - gone
        invariant prefetchedKeys == marked - gone
        decreases remaining
      {
        var key :| key in remaining;
        GoneOneMore(before, matches, remaining, key);
        remaining := remaining - {key};
        if matches(key) {
          DropOneMore(before, gone, key);
          cache := cache - {key};
          prefetchedKeys := prefetchedKeys - {key};
          gone := gone + {key};
        }
      }
    }

    method InvalidateWhere(matches: QueryKey -> bool) returns (count: nat)
      modifies this
      ensures View() == InvalidateKeys(old(View()), Matching(old(cache), matches))
      ensures forall k :: k in cache <==> k in old(cache) && !matches(k)
      ensures forall k :: k in cache ==> cache[k] == old(cache)[k]
      ensures forall k :: k in prefetchedKeys <==> k in old(prefetchedKeys) && !(k in old(cache) && matches(k))
      ensures count == |Matching(old(cache), matches)|
    {
      var gone := DeleteMatching(matches);
      log := log + [Invalidated(gone)];
      count := |gone|;
    }

    method InvalidateEverything()
      modifies this
      ensures View() == InvalidateAll(old(View()))
      ensures cache == map[] && prefetchedKeys == {}
    {
      log := log + [Invalidated(cache.Keys)];
      cache := map[];
      prefetchedKeys := {};
    }

    /** The generation check, cache write and bookkeeping clean-up of the tracked request. */
    method SettleRequest(r: nat, outcome: Outcome, now: int) returns (verdict: Outcome)
      requires Open(CoreView(), r)
      modifies this`cache, this`controllers, this`inflight, this`requests, this`log
      ensures CoreView() == Settle(old(CoreView()), r, outcome, now)
      ensures verdict == Verdict(old(CoreView()), r, outcome)
    {
      var request := requests[r];
      var key := request.key;
      verdict := outcome;
      if outcome.Delivered? {
        if (if key in generation then generation[key] else 0) != request.gen {
          verdict := Failed(true);
        } else {
          cache := cache[key := CacheEntry(outcome.payload, now, r, |log|)];
          log := log + [Wrote(r)];
        }
      }
      requests := requests[r := request.(reply := if outcome.Delivered? then Answered(outcome.payload) else Broken)];
      if key in inflight && inflight[key] == r { inflight := inflight - {key}; }
      if key in controllers && controllers[key] == r { controllers := controllers - {key}; }
    }

    method ResumeWaiter(w: Waiter, result: Outcome, visible: bool)
      modifies this
      ensures View() == ResumeOne(old(View()), w, result, visible)
    {
      match w.cont {
        case ColdCall(call, key) =>
          if result.Delivered? {
            outputs := outputs + [Lifecycle(call, key, Success), Resolved(call, result.payload, w.request)];
          } else {
            outputs := outputs + [Lifecycle(call, key, if result.isAbort then Aborted else Error)];
          }
        case RefreshCall(call, key) =>
          if result.Delivered? {
            outputs := outputs + [Refreshed(call, result.payload, w.request)];
          } else {
            assert outputs == outputs + Emit(w, result);
          }
        case PrefetchTask(task) =>
          if result.Delivered? && task.epoch == prefetchEpoch {
            prefetchedKeys := prefetchedKeys + {task.key};
            settled := settled + [Settlement(task, true)];
          } else {
            settled := settled + [Settlement(task, false)];
          }
          prefetchActive := if prefetchActive == 0 then 0 else prefetchActive - 1;
          DrainPrefetchQueue(visible);
      }
    }

    /** One delivery: settle the request, then run everything that awaited it, in order. */
    method DeliverResponse(r: nat, outcome: Outcome, now: int, visible: bool)
      requires Open(CoreView(), r)
      modifies this
      ensures View() == Deliver(old(View()), r, outcome, now, visible)
    {
      var result := SettleRequest(r, outcome, now);
      var ready := ForRequest(waiters, r);
      waiters := ForOthers(waiters, r);
      while ready != []
        invariant Resume(View(), ready, result, visible) == Deliver(old(View()), r, outcome, now, visible)
        decreases |ready|
      {
        ResumeWaiter(ready[0], result, visible);
        ready := ready[1..];
      }
    }
  }
}
