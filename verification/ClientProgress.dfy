/** What the data client brings about: when entries were stored and how long they stay fresh, that
    answers are handed over, and that prefetches go first in, first out. */
module ClientProgress {
  import opened QueryContext
  import opened RequestCore
  import opened DataClient
  import opened ClientInvariants
  import opened ClientCalls
  import opened ClientTheorems

  // ----- Times -----

  /** One of the calls is the delivery the entry came from: its request, its payload, its time. */
  ghost predicate DeliveredIn(calls: seq<Call>, e: CacheEntry) {
    exists i :: 0 <= i < |calls| && Delivers(calls[i], e)
  }

  predicate Delivers(a: Call, e: CacheEntry) {
    a.DoDeliver? && a.request == e.writer && a.outcome == Delivered(e.payload) && a.now == e.fetchedAt
  }

  lemma DeliverCache(s: Client, r: nat, outcome: Outcome, now: int, visible: bool)
    requires Open(s.core, r)
    ensures Deliver(s, r, outcome, now, visible).core.cache == Settle(s.core, r, outcome, now).cache
  {
    ResumeOutputs(s.(core := Settle(s.core, r, outcome, now), waiters := ForOthers(s.waiters, r)),
                  ForRequest(s.waiters, r), Verdict(s.core, r, outcome), visible);
  }

  lemma DoCache(s: Client, a: Call, key: QueryKey)
    requires key in Do(s, a).core.cache
    ensures (key in s.core.cache && s.core.cache[key] == Do(s, a).core.cache[key])
         || Delivers(a, Do(s, a).core.cache[key])
  {
    if a.DoDeliver? && Open(s.core, a.request) {
      DeliverCache(s, a.request, a.outcome, a.now, a.visible);
    } else if a.DoPrefetch? {
      DrainOnlyPrefetches(Enqueue(s, a.key), a.visible);
    }
  }

  lemma {:induction false} CacheOrigin(s: Client, calls: seq<Call>, key: QueryKey)
    requires key in DoAll(s, calls).core.cache
    ensures (key in s.core.cache && s.core.cache[key] == DoAll(s, calls).core.cache[key])
         || DeliveredIn(calls, DoAll(s, calls).core.cache[key])
    decreases |calls|
  {
    if calls != [] {
      var t, e := Do(s, calls[0]), DoAll(s, calls).core.cache[key];
      CacheOrigin(t, calls[1..], key);
      if key in t.core.cache && t.core.cache[key] == e {
        DoCache(s, calls[0], key);
      } else {
        var i :| 0 <= i < |calls[1..]| && Delivers(calls[1..][i], e);
        assert calls[i + 1] == calls[1..][i];
      }
    }
  }

  /** In every run a cached entry is one of its deliveries: that payload, stored at that very time. */
  lemma StoredWhenDelivered(ttl: int, concurrency: int, calls: seq<Call>, key: QueryKey)
    requires key in DoAll(Fresh(ttl, concurrency), calls).core.cache
    ensures DeliveredIn(calls, DoAll(Fresh(ttl, concurrency), calls).core.cache[key])
  {
    CacheOrigin(Fresh(ttl, concurrency), calls, key);
  }

  /** The call neither invalidates the key nor delivers an accepted response for it. */
  predicate LeavesAlone(s: Client, a: Call, key: QueryKey) {
    match a
    case DoInvalidateKeys(keys) => key !in keys
    case DoInvalidateAll => false
    case DoDeliver(r, outcome, _, _) =>
      !Open(s.core, r) || s.core.requests[r].key != key || !Accepted(s.core, r, outcome)
    case _ => true
  }

  predicate AllLeaveAlone(s: Client, calls: seq<Call>, key: QueryKey)
    decreases |calls|
  {
    calls != [] ==> LeavesAlone(s, calls[0], key) && AllLeaveAlone(Do(s, calls[0]), calls[1..], key)
  }

  lemma {:induction false} ResumeKeepsTtl(s: Client, ready: seq<Waiter>, result: Outcome, visible: bool)
    ensures Resume(s, ready, result, visible).ttl == s.ttl
    decreases |ready|
  {
    if ready != [] {
      if ready[0].cont.PrefetchTask? {
        DrainOnlyPrefetches(FinishTask(s, ready[0].cont.task, result.Delivered?), visible);
      }
      ResumeKeepsTtl(ResumeOne(s, ready[0], result, visible), ready[1..], result, visible);
    }
  }

  lemma DoKeepsEntry(s: Client, a: Call, key: QueryKey)
    requires LeavesAlone(s, a, key)
    ensures Do(s, a).ttl == s.ttl
    ensures key in s.core.cache ==> key in Do(s, a).core.cache && Do(s, a).core.cache[key] == s.core.cache[key]
  {
    if a.DoDeliver? && Open(s.core, a.request) {
      DeliverCache(s, a.request, a.outcome, a.now, a.visible);
      ResumeKeepsTtl(
        s.(core := Settle(s.core, a.request, a.outcome, a.now), waiters := ForOthers(s.waiters, a.request)),
        ForRequest(s.waiters, a.request), Verdict(s.core, a.request, a.outcome), a.visible);
    } else if a.DoPrefetch? {
      DrainOnlyPrefetches(Enqueue(s, a.key), a.visible);
    }
  }

  lemma {:induction false} DoAllKeepsEntry(s: Client, calls: seq<Call>, key: QueryKey)
    requires AllLeaveAlone(s, calls, key) && key in s.core.cache
    ensures DoAll(s, calls).ttl == s.ttl
    ensures key in DoAll(s, calls).core.cache && DoAll(s, calls).core.cache[key] == s.core.cache[key]
    decreases |calls|
  {
    if calls != [] {
      DoKeepsEntry(s, calls[0], key);
      DoAllKeepsEntry(Do(s, calls[0]), calls[1..], key);
    }
  }

  lemma DeliverKeepsTtl(s: Client, r: nat, outcome: Outcome, now: int, visible: bool)
    requires Open(s.core, r)
    ensures Deliver(s, r, outcome, now, visible).ttl == s.ttl
  {
    ResumeKeepsTtl(s.(core := Settle(s.core, r, outcome, now), waiters := ForOthers(s.waiters, r)),
                   ForRequest(s.waiters, r), Verdict(s.core, r, outcome), visible);
  }

  /** A current response delivered at `now` is served until it is invalidated or replaced, fresh up
      to and including `now + ttl` and stale from then on; while it is fresh, prefetching its context
      changes nothing. */
  lemma FreshForItsTime(s: Client, r: nat, payload: Payload, now: int, visible: bool, calls: seq<Call>)
    requires Open(s.core, r) && Accepted(s.core, r, Delivered(payload))
    requires AllLeaveAlone(Deliver(s, r, Delivered(payload), now, visible), calls, s.core.requests[r].key)
    ensures var key := s.core.requests[r].key;
      var later := DoAll(Deliver(s, r, Delivered(payload), now, visible), calls);
      && key in later.core.cache
      && later.core.cache[key].payload == payload
      && (forall at :: IsStale(later.ttl, later.core.cache[key], at) <==> at > now + s.ttl)
      && (forall at, seen :: at <= now + s.ttl ==> Prefetch(later, key, at, seen) == later)
  {
    DeliverCache(s, r, Delivered(payload), now, visible);
    DeliverKeepsTtl(s, r, Delivered(payload), now, visible);
    DoAllKeepsEntry(Deliver(s, r, Delivered(payload), now, visible), calls, s.core.requests[r].key);
  }

  // ----- Answers -----

  lemma {:induction false} EmitAllIff(ready: seq<Waiter>, result: Outcome, o: Output)
    ensures o in EmitAll(ready, result) <==> exists x :: x in ready && o in Emit(x, result)
  {
    if ready != [] { EmitAllIff(ready[1..], result, o); }
  }

  /** What the call of a continuation is given when its request is answered with `payload`. */
  function HandedOver(w: Waiter, payload: Payload): Output
    requires !w.cont.PrefetchTask?
  {
    if w.cont.RefreshCall? then Refreshed(w.cont.call, payload, w.request)
    else Resolved(w.cont.call, payload, w.request)
  }

  /** Answers arrive: a waiting call is handed a payload exactly when that payload is delivered to
      the request it awaits and the key was left alone, be it the promised result of a cold call or
      the refresh of one served from the cache. */
  lemma AnswersAreHandedOver(s: Client, w: Waiter, outcome: Outcome, now: int, visible: bool, payload: Payload)
    requires Reachable(s) && w in s.waiters && !w.cont.PrefetchTask? && Open(s.core, w.request)
    ensures var out := Deliver(s, w.request, outcome, now, visible).outputs;
      && s.outputs <= out
      && (HandedOver(w, payload) in out[|s.outputs|..]
          <==> outcome == Delivered(payload) && Quiet(s.core, w.request))
  {
    var r := w.request;
    var ready, result := ForRequest(s.waiters, r), Verdict(s.core, r, outcome);
    var out := Deliver(s, r, outcome, now, visible).outputs;
    assert Quiet(s.core, r) <==> s.core.requests[r].gen == Gen(s.core, s.core.requests[r].key) by {
      ReachableClientInv(s);
      assert StartOk(s.core, r);
    }
    assert w in ready by { SplitMembers(s.waiters, r); }
    assert out == s.outputs + EmitAll(ready, result) by {
      ResumeOutputs(s.(core := Settle(s.core, r, outcome, now), waiters := ForOthers(s.waiters, r)),
                    ready, result, visible);
    }
    assert out[|s.outputs|..] == EmitAll(ready, result);
    HandedOverIff(ready, w, result, payload);
  }

  lemma HandedOverIff(ready: seq<Waiter>, w: Waiter, result: Outcome, payload: Payload)
    requires w in ready && !w.cont.PrefetchTask?
    ensures HandedOver(w, payload) in EmitAll(ready, result) <==> result == Delivered(payload)
  {
    EmitAllIff(ready, result, HandedOver(w, payload));
    if result == Delivered(payload) { assert HandedOver(w, payload) in Emit(w, result); }
  }

  // ----- First in, first out -----

  ghost predicate Behind(queue: seq<Task>, id: nat) {
    forall i :: 0 <= i < |queue| ==> id < queue[i].id
  }

  /** The task has left the queue before everything still in it. */
  ghost predicate Ahead(s: Client, task: Task) { Behind(s.pre.queue, task.id) && task.id < s.pre.created }

  ghost predicate AllAhead(s: Client, waiters: seq<Waiter>) {
    forall i :: 0 <= i < |waiters| && waiters[i].cont.PrefetchTask? ==> Ahead(s, waiters[i].cont.task)
  }

  ghost predicate Queued(s: Client) {
    && (forall i, j :: 0 <= i < j < |s.pre.queue| ==> s.pre.queue[i].id < s.pre.queue[j].id)
    && (forall i :: 0 <= i < |s.pre.queue| ==> s.pre.queue[i].id < s.pre.created)
    && (forall i :: 0 <= i < |s.pre.settled| ==> Ahead(s, s.pre.settled[i].task))
  }

  ghost predicate Fifo(s: Client, ready: seq<Waiter>) {
    Queued(s) && AllAhead(s, s.waiters) && AllAhead(s, ready)
  }

  lemma RejectHeadFifo(s: Client, ready: seq<Waiter>)
    requires Fifo(s, ready) && s.pre.queue != []
    ensures Fifo(RejectHead(s), ready)
  {
    var t := RejectHead(s);
    assert forall i :: 0 <= i < |t.pre.queue| ==> t.pre.queue[i] == s.pre.queue[i + 1];
    forall task | Ahead(s, task) ensures Ahead(t, task) { }
    assert Ahead(t, s.pre.queue[0]);
  }

  lemma StartHeadFifo(s: Client, ready: seq<Waiter>)
    requires Fifo(s, ready) && s.pre.queue != []
    ensures Fifo(StartHead(s), ready)
  {
    var t := StartHead(s);
    assert forall i :: 0 <= i < |t.pre.queue| ==> t.pre.queue[i] == s.pre.queue[i + 1];
    forall task | Ahead(s, task) ensures Ahead(t, task) { }
    assert Ahead(t, s.pre.queue[0]);
  }

  lemma {:induction false} DrainFifo(s: Client, visible: bool, ready: seq<Waiter>)
    requires Fifo(s, ready)
    ensures Fifo(Drain(s, visible), ready)
    decreases |s.pre.queue|
  {
    if s.pre.active >= s.pre.limit || s.pre.queue == [] {
    } else if s.pre.queue[0].epoch != s.pre.epoch || !visible {
      RejectHeadFifo(s, ready);
      DrainFifo(RejectHead(s), visible, ready);
    } else {
      StartHeadFifo(s, ready);
      DrainFifo(StartHead(s), visible, ready);
    }
  }

  lemma {:induction false} ResumeFifo(s: Client, ready: seq<Waiter>, result: Outcome, visible: bool)
    requires Fifo(s, ready)
    ensures Fifo(Resume(s, ready, result, visible), [])
    decreases |ready|
  {
    if ready != [] {
      if ready[0].cont.PrefetchTask? {
        var f := FinishTask(s, ready[0].cont.task, result.Delivered?);
        forall task | Ahead(s, task) ensures Ahead(f, task) { }
        assert f.pre.settled[|s.pre.settled|].task == ready[0].cont.task;
        assert Fifo(f, ready[1..]);
        DrainFifo(f, visible, ready[1..]);
      }
      ResumeFifo(ResumeOne(s, ready[0], result, visible), ready[1..], result, visible);
    }
  }

  lemma SplitFifo(s: Client, r: nat, c: Core)
    requires Fifo(s, [])
    ensures Fifo(s.(core := c, waiters := ForOthers(s.waiters, r)), ForRequest(s.waiters, r))
  {
    var t, mine := s.(core := c, waiters := ForOthers(s.waiters, r)), ForRequest(s.waiters, r);
    SplitMembers(s.waiters, r);
    forall task | Ahead(s, task) ensures Ahead(t, task) { }
    forall i | 0 <= i < |t.waiters| && t.waiters[i].cont.PrefetchTask? ensures Ahead(s, t.waiters[i].cont.task) {
      assert t.waiters[i] in s.waiters;
    }
    forall i | 0 <= i < |mine| && mine[i].cont.PrefetchTask? ensures Ahead(s, mine[i].cont.task) {
      assert mine[i] in s.waiters;
    }
  }

  lemma EnqueueFifo(s: Client, key: QueryKey)
    requires Fifo(s, [])
    ensures Fifo(Enqueue(s, key), [])
  {
    var t := Enqueue(s, key);
    forall task | Ahead(s, task) ensures Ahead(t, task) { }
  }

  lemma OtherFifo(s: Client, t: Client)
    requires Fifo(s, []) && t.pre.created == s.pre.created && t.pre.queue == s.pre.queue
    requires t.pre.settled == s.pre.settled
    requires forall i :: 0 <= i < |t.waiters| && t.waiters[i].cont.PrefetchTask? ==>
      i < |s.waiters| && t.waiters[i] == s.waiters[i]
    ensures Fifo(t, [])
  {
    forall task | Ahead(s, task) ensures Ahead(t, task) { }
  }

  lemma CancelFifo(s: Client)
    requires Fifo(s, [])
    ensures Fifo(CancelQueued(s), [])
  {
    var t := CancelQueued(s);
    forall task: Task | task.id < s.pre.created ensures Ahead(t, task) { }
    forall i | 0 <= i < |t.pre.settled| ensures t.pre.settled[i].task.id < s.pre.created {
      if i < |s.pre.settled| { assert Ahead(s, s.pre.settled[i].task); }
    }
  }

  lemma DoFifo(s: Client, a: Call)
    requires Fifo(s, [])
    ensures Fifo(Do(s, a), [])
  {
    match a {
      case DoPrefetch(key, _, visible) =>
        EnqueueFifo(s, key);
        DrainFifo(Enqueue(s, key), visible, []);
      case DoAbortAllExcept(key) =>
        CancelFifo(s);
        OtherFifo(CancelQueued(s), Do(s, a));
      case DoDeliver(r, outcome, now, visible) =>
        if Open(s.core, r) {
          SplitFifo(s, r, Settle(s.core, r, outcome, now));
          ResumeFifo(s.(core := Settle(s.core, r, outcome, now), waiters := ForOthers(s.waiters, r)),
                     ForRequest(s.waiters, r), Verdict(s.core, r, outcome), visible);
        }
      case _ => OtherFifo(s, Do(s, a));
    }
  }

  lemma {:induction false} DoAllFifo(s: Client, calls: seq<Call>)
    requires Fifo(s, [])
    ensures Fifo(DoAll(s, calls), [])
    decreases |calls|
  {
    if calls != [] {
      DoFifo(s, calls[0]);
      DoAllFifo(Do(s, calls[0]), calls[1..]);
    }
  }

  /** Prefetches are numbered as they are asked for. The queue is in that order, and whatever has
      been started or settled was asked for before everything still queued. */
  lemma FirstInFirstOut(s: Client)
    requires Reachable(s)
    ensures forall i, j :: 0 <= i < j < |s.pre.queue| ==> s.pre.queue[i].id < s.pre.queue[j].id
    ensures forall i, j :: 0 <= i < |s.pre.settled| && 0 <= j < |s.pre.queue| ==>
      s.pre.settled[i].task.id < s.pre.queue[j].id
    ensures forall i, j :: 0 <= i < |s.waiters| && s.waiters[i].cont.PrefetchTask? && 0 <= j < |s.pre.queue| ==>
      s.waiters[i].cont.task.id < s.pre.queue[j].id
  {
    var ttl, concurrency, calls :| s == DoAll(Fresh(ttl, concurrency), calls);
    DoAllFifo(Fresh(ttl, concurrency), calls);
    forall i, j | 0 <= i < |s.pre.settled| && 0 <= j < |s.pre.queue|
      ensures s.pre.settled[i].task.id < s.pre.queue[j].id
    {
      assert Ahead(s, s.pre.settled[i].task);
    }
    forall i, j | 0 <= i < |s.waiters| && s.waiters[i].cont.PrefetchTask? && 0 <= j < |s.pre.queue|
      ensures s.waiters[i].cont.task.id < s.pre.queue[j].id
    {
      assert Ahead(s, s.waiters[i].cont.task);
    }
  }
}
