/** What the data client guarantees in every state any sequence of calls and deliveries reaches. */
module ClientTheorems {
  import opened QueryContext
  import opened RequestCore
  import opened RequestSafety
  import opened DataClient
  import opened ClientInvariants
  import opened ClientCalls

  ghost predicate EpochInv(s: Client) {
    forall i :: 0 <= i < |s.waiters| && s.waiters[i].cont.PrefetchTask?
      ==> s.waiters[i].cont.task.epoch <= s.pre.epoch
  }

  ghost predicate QueueCurrent(s: Client) {
    forall i :: 0 <= i < |s.pre.queue| ==> s.pre.queue[i].epoch == s.pre.epoch
  }

  ghost predicate ClientInv(s: Client) {
    WaitInv(s) && SchedulerInv(s) && CallInv(s) && MarkInv(s) && EpochInv(s)
  }

  lemma {:induction false} DrainKeepsEpochs(s: Client, visible: bool)
    requires EpochInv(s)
    requires QueueCurrent(s)
    ensures EpochInv(Drain(s, visible))
    ensures QueueCurrent(Drain(s, visible))
    decreases |s.pre.queue|
  {
    if s.pre.active >= s.pre.limit || s.pre.queue == [] {
    } else if s.pre.queue[0].epoch != s.pre.epoch || !visible {
      DrainKeepsEpochs(RejectHead(s), visible);
    } else {
      DrainKeepsEpochs(StartHead(s), visible);
    }
  }

  lemma {:induction false} ResumeKeepsEpochs(s: Client, ready: seq<Waiter>, result: Outcome, visible: bool)
    requires EpochInv(s)
    requires QueueCurrent(s)
    ensures EpochInv(Resume(s, ready, result, visible))
    decreases |ready|
  {
    if ready != [] {
      if ready[0].cont.PrefetchTask? {
        DrainKeepsEpochs(FinishTask(s, ready[0].cont.task, result.Delivered?), visible);
      }
      ResumeKeepsEpochs(ResumeOne(s, ready[0], result, visible), ready[1..], result, visible);
    }
  }

  lemma DoKeepsEpochs(s: Client, a: Call)
    requires EpochInv(s) && SchedulerInv(s)
    ensures EpochInv(Do(s, a))
  {
    if a.DoPrefetch? {
      DrainKeepsEpochs(Enqueue(s, a.key), a.visible);
    } else if a.DoDeliver? && Open(s.core, a.request) {
      var t := s.(core := Settle(s.core, a.request, a.outcome, a.now), waiters := ForOthers(s.waiters, a.request));
      SplitMembers(s.waiters, a.request);
      forall i | 0 <= i < |t.waiters| && t.waiters[i].cont.PrefetchTask?
        ensures t.waiters[i].cont.task.epoch <= t.pre.epoch
      {
        assert t.waiters[i] in s.waiters;
      }
      ResumeKeepsEpochs(t, ForRequest(s.waiters, a.request), Verdict(s.core, a.request, a.outcome), a.visible);
    }
  }

  lemma DoKeepsInv(s: Client, a: Call)
    requires ClientInv(s)
    ensures ClientInv(Do(s, a))
  {
    DoKeepsWaits(s, a);
    DoKeepsScheduler(s, a);
    forall call: nat ensures CallOk(Do(s, a), call) {
      assert CallOk(s, call);
      DoKeepsCall(s, a, call);
    }
    DoKeepsMarks(s, a);
    DoKeepsEpochs(s, a);
  }

  lemma {:induction false} DoAllKeepsInv(s: Client, calls: seq<Call>)
    requires ClientInv(s)
    ensures ClientInv(DoAll(s, calls))
    decreases |calls|
  {
    if calls != [] {
      DoKeepsInv(s, calls[0]);
      DoAllKeepsInv(Do(s, calls[0]), calls[1..]);
    }
  }

  ghost predicate Reachable(s: Client) {
    exists ttl, concurrency, calls :: s == DoAll(Fresh(ttl, concurrency), calls)
  }

  lemma ReachableClientInv(s: Client)
    requires Reachable(s)
    ensures ClientInv(s)
    ensures Leads(EMPTY, s.core)
  {
    var ttl, concurrency, calls :| s == DoAll(Fresh(ttl, concurrency), calls);
    DoAllKeepsInv(Fresh(ttl, concurrency), calls);
    DoAllLeads(Fresh(ttl, concurrency), calls);
  }

  // ----- Requests and cache -----

  /** The request-level guarantees hold of the whole client: every step of it is a run of the core. */
  lemma ClientNeverWritesStale(s: Client, i: nat)
    requires Reachable(s) && i < |s.core.log| && s.core.log[i].Wrote?
    ensures var c, r := s.core, s.core.log[i].request;
      && r < |c.requests|
      && (exists j: nat :: j < i && c.log[j] == Started(r)
            && forall m: nat :: j < m < i ==> !Touches(c, c.log[m], c.requests[r].key))
      && (forall j: nat :: j < i && c.log[j].Wrote? && c.log[j].request < |c.requests|
            && c.requests[c.log[j].request].key == c.requests[r].key
            ==> c.requests[c.log[j].request].gen < c.requests[r].gen)
  {
    ReachableClientInv(s);
    var actions :| Run(EMPTY, actions) == s.core;
    NoStaleWrite(actions, i);
  }

  /** A cached payload was answered to a request for exactly that key. */
  lemma CachedAnswersItsKey(s: Client, key: QueryKey)
    requires Reachable(s) && key in s.core.cache
    ensures var e := s.core.cache[key];
      && e.writer < |s.core.requests|
      && s.core.requests[e.writer].key == key
      && s.core.requests[e.writer].reply == Answered(e.payload)
  {
    ReachableClientInv(s);
    assert EntryOk(s.core, key);
  }

  /** Everything cached under `keys` was requested at or after request number `since`. */
  ghost predicate CachedSince(c: Core, keys: set<QueryKey>, since: nat) {
    forall k :: k in keys && k in c.cache ==> c.cache[k].writer >= since
  }

  /** The client after invalidating `keys`, switching to `keep` and going on with `calls`. */
  function AfterSwitch(s: Client, keys: set<QueryKey>, keep: QueryKey, calls: seq<Call>): Client {
    DoAll(AbortAllExcept(InvalidateKeys(s, keys), keep), calls)
  }

  lemma SwitchKeepsFresh(s: Client, keys: set<QueryKey>, keep: QueryKey, calls: seq<Call>)
    requires Reachable(s) && (keep !in keys || keep !in s.core.inflight)
    ensures CachedSince(AfterSwitch(s, keys, keep, calls).core, keys, |s.core.requests|)
  {
    ReachableClientInv(s);
    var t := AbortAllExcept(InvalidateKeys(s, keys), keep);
    StepKeepsInv(s.core, RequestCore.DoInvalidate(keys));
    StepKeepsInv(Invalidate(s.core, keys), DoAbort(s.core.controllers.Keys - {keep}));
    NothingInFlight(t.core, keys);
    DoAllLeads(t, calls);
    var actions :| Run(t.core, actions) == DoAll(t, calls).core;
    RunKeepsFresh(t.core, actions, keys, |s.core.requests|);
  }

  lemma DeliveryWrites(s: Client, r: nat, payload: Payload, now: int, visible: bool)
    requires Open(s.core, r) && Accepted(s.core, r, Delivered(payload))
    ensures var d, key := Deliver(s, r, Delivered(payload), now, visible).core, s.core.requests[r].key;
      key in d.cache && d.cache[key].payload == payload && d.cache[key].writer == r
  {
    ResumeOutputs(s.(core := Settle(s.core, r, Delivered(payload), now), waiters := ForOthers(s.waiters, r)),
                  ForRequest(s.waiters, r), Delivered(payload), visible);
  }

  lemma SwitchSpares(s: Client, keys: set<QueryKey>, keep: QueryKey)
    requires Reachable(s) && keep in s.core.inflight
    ensures var c, r := AbortAllExcept(InvalidateKeys(s, keys), keep).core, s.core.inflight[keep];
      r < |s.core.requests| && Open(c, r) && c.requests[r].key == keep && c.requests[r].gen == Gen(c, keep)
  {
    ReachableClientInv(s);
    assert FlightOk(s.core, keep);
    var c, r := AbortAllExcept(InvalidateKeys(s, keys), keep).core, s.core.inflight[keep];
    assert c.requests[r] == s.core.requests[r];
  }

  /** The request in flight for the kept key is spared; its answer enters the cache. */
  lemma SparedRequestWrites(s: Client, keys: set<QueryKey>, keep: QueryKey, payload: Payload)
    requires Reachable(s) && keep in s.core.inflight
    ensures var later := AfterSwitch(s, keys, keep, [DoDeliver(s.core.inflight[keep], Delivered(payload), 0, true)]);
      keep in later.core.cache && later.core.cache[keep].payload == payload
      && later.core.cache[keep].writer == s.core.inflight[keep] < |s.core.requests|
  {
    var t, r := AbortAllExcept(InvalidateKeys(s, keys), keep), s.core.inflight[keep];
    SwitchSpares(s, keys, keep);
    DeliveryWrites(t, r, payload, 0, true);
    DoAllOne(t, DoDeliver(r, Delivered(payload), 0, true));
  }

  lemma DoAllOne(s: Client, a: Call)
    ensures DoAll(s, [a]) == Do(s, a)
  {
    assert [a][1..] == [];
  }

  /** After invalidating `keys` and switching to another context, whatever the client does next,
      everything cached under `keys` was requested afterwards, if and only if the context switched
      to is not among them or has no request in flight. */
  lemma FreshAfterSwitch(s: Client, keys: set<QueryKey>, keep: QueryKey)
    requires Reachable(s)
    ensures (forall calls :: CachedSince(AfterSwitch(s, keys, keep, calls).core, keys, |s.core.requests|))
      <==> keep !in keys || keep !in s.core.inflight
  {
    if keep !in keys || keep !in s.core.inflight {
      forall calls { SwitchKeepsFresh(s, keys, keep, calls); }
    } else {
      SparedRequestWrites(s, keys, keep, Payload(0, []));
    }
  }

  /** The clean-up of the notice effect aborts its own context: if that context was invalidated,
      what is cached for it later was requested later. */
  lemma FreshAfterCleanup(s: Client, key: QueryKey, calls: seq<Call>)
    requires Reachable(s)
    ensures var later := DoAll(AbortKey(InvalidateKeys(s, {key}), key), calls);
      key in later.core.cache ==> later.core.cache[key].writer >= |s.core.requests|
  {
    ReachableClientInv(s);
    var t := AbortKey(InvalidateKeys(s, {key}), key);
    DoAllLeads(t, calls);
    FreshAfterInvalidateAndAbort(s.core, {key}, DoAll(t, calls).core);
  }

  // ----- Prefetching -----

  /** The scheduler: bounded, exact, work-conserving, and never holding a task of an old epoch. */
  lemma SchedulerSafety(s: Client)
    requires Reachable(s)
    ensures 1 <= s.pre.limit <= 2
    ensures s.pre.active == |Running(s.waiters)| <= s.pre.limit
    ensures s.pre.queue != [] ==> s.pre.active == s.pre.limit
    ensures QueueCurrent(s)
  {
    ReachableClientInv(s);
  }

  /** Conservation: every prefetch ever queued is queued, running or settled, in exactly one of
      these places and there exactly once. */
  lemma EachPrefetchInOnePlace(s: Client, id: nat)
    requires Reachable(s)
    ensures Count(s.pre.queue, id) + Count(Running(s.waiters), id) + CountSettled(s.pre.settled, id)
         == if id < s.pre.created then 1 else 0
    ensures |s.pre.queue| + s.pre.active + |s.pre.settled| == s.pre.created
  {
    ReachableClientInv(s);
    assert InOnePlace(s, [], id);
  }

  /** Draining without the epoch test. */
  function DrainUnchecked(s: Client, visible: bool): Client
    decreases |s.pre.queue|
  {
    if s.pre.active >= s.pre.limit || s.pre.queue == [] then s
    else if !visible then DrainUnchecked(RejectHead(s), visible)
    else DrainUnchecked(StartHead(s), visible)
  }

  lemma {:induction false} SameDrain(s: Client, visible: bool)
    requires QueueCurrent(s)
    ensures Drain(s, visible) == DrainUnchecked(s, visible)
    decreases |s.pre.queue|
  {
    if s.pre.active >= s.pre.limit || s.pre.queue == [] {
    } else if !visible {
      SameDrain(RejectHead(s), visible);
    } else {
      SameDrain(StartHead(s), visible);
    }
  }

  /** The epoch test inside the drain loop never fires: enqueueing in a reachable state and
      draining does the same without it. */
  lemma EpochTestUnreachable(s: Client, key: QueryKey, visible: bool)
    requires Reachable(s)
    ensures Drain(Enqueue(s, key), visible) == DrainUnchecked(Enqueue(s, key), visible)
  {
    ReachableClientInv(s);
    SameDrain(Enqueue(s, key), visible);
  }

  /** Running continuations with neither the epoch test nor the clamp at zero. */
  ghost function ResumePlain(s: Client, ready: seq<Waiter>, result: Outcome, visible: bool): Client
    requires TaskInv(s, ready) && WorkConserving(s)
    decreases |ready|
  {
    if ready == [] then s
    else
      ResumeOneTasks(s, ready, result, visible);
      if ready[0].cont.PrefetchTask? then
        FinishTasks(s, ready, result.Delivered?);
        var f := FinishTask(s, ready[0].cont.task, result.Delivered?);
        SameDrain(f, visible);
        ResumePlain(DrainUnchecked(f.(pre := f.pre.(active := s.pre.active - 1)), visible), ready[1..], result, visible)
      else
        ResumePlain(ResumeOne(s, ready[0], result, visible), ready[1..], result, visible)
  }

  lemma {:induction false} ResumeIsPlain(s: Client, ready: seq<Waiter>, result: Outcome, visible: bool)
    requires TaskInv(s, ready) && WorkConserving(s)
    ensures Resume(s, ready, result, visible) == ResumePlain(s, ready, result, visible)
    decreases |ready|
  {
    if ready != [] {
      ResumeOneTasks(s, ready, result, visible);
      if ready[0].cont.PrefetchTask? {
        FinishTasks(s, ready, result.Delivered?);
        SameDrain(FinishTask(s, ready[0].cont.task, result.Delivered?), visible);
      }
      ResumeIsPlain(ResumeOne(s, ready[0], result, visible), ready[1..], result, visible);
    }
  }

  /** Delivery neither meets a queued task of an old epoch nor clamps the active count. */
  lemma DeliveryNeedsNoGuards(s: Client, r: nat, outcome: Outcome, now: int, visible: bool)
    requires Reachable(s) && Open(s.core, r)
    ensures var t := s.(core := Settle(s.core, r, outcome, now), waiters := ForOthers(s.waiters, r));
      var ready, result := ForRequest(s.waiters, r), Verdict(s.core, r, outcome);
      && TaskInv(t, ready) && WorkConserving(t)
      && Deliver(s, r, outcome, now, visible) == ResumePlain(t, ready, result, visible)
  {
    ReachableClientInv(s);
    var t := s.(core := Settle(s.core, r, outcome, now), waiters := ForOthers(s.waiters, r));
    SplitTaskInv(s, r, t.core);
    ResumeIsPlain(t, ForRequest(s.waiters, r), Verdict(s.core, r, outcome), visible);
  }

  function Work(s: Client): nat { |s.pre.queue| + s.pre.active }

  /** Termination: without new prefetches the outstanding work never grows, it shrinks by exactly
      what gets settled, and settling a request that carries prefetches shrinks it. */
  lemma PrefetchWorkShrinks(s: Client, a: Call)
    requires Reachable(s) && !a.DoPrefetch?
    ensures Work(Do(s, a)) <= Work(s)
    ensures |Do(s, a).pre.settled| - |s.pre.settled| == Work(s) - Work(Do(s, a))
    ensures a.DoDeliver? && Open(s.core, a.request)
      ==> Work(Do(s, a)) + |Running(ForRequest(s.waiters, a.request))| <= Work(s)
  {
    ReachableClientInv(s);
    DoKeepsScheduler(s, a);
    if a.DoDeliver? && Open(s.core, a.request) {
      DeliverKeepsScheduler(s, a.request, a.outcome, a.now, a.visible);
    }
  }

  /** A prefetch asks the network only when it must and may: for a first page neither freshly
      cached nor in flight, in a visible document, with a slot free. In every other case it
      leaves requests and cache exactly as they were. */
  lemma PrefetchFetchesIffNeeded(s: Client, key: QueryKey, now: int, visible: bool)
    requires Reachable(s)
    ensures var needed := key.page == 1 && key !in s.core.inflight
        && (key in s.core.cache ==> IsStale(s.ttl, s.core.cache[key], now));
      Prefetch(s, key, now, visible).core
      == if needed && visible && s.pre.active < s.pre.limit then Fetch(s.core, key) else s.core
  {
    ReachableClientInv(s);
    var t := Enqueue(s, key);
    if s.pre.active < s.pre.limit {
      assert t.pre.queue == [t.pre.queue[0]];
      if visible { assert Drain(StartHead(t), visible) == StartHead(t); }
      else { assert Drain(RejectHead(t), visible) == RejectHead(t); }
    }
  }

  lemma {:induction false} ResumeMarks(s: Client, ready: seq<Waiter>, result: Outcome, visible: bool, task: Task)
    requires result.Delivered?
    requires task.epoch == s.pre.epoch
    requires task.key in s.pre.marked || exists w :: w in ready && w.cont == PrefetchTask(task)
    ensures task.key in Resume(s, ready, result, visible).pre.marked
    decreases |ready|
  {
    if ready != [] {
      var t := ResumeOne(s, ready[0], result, visible);
      if ready[0].cont.PrefetchTask? {
        DrainOnlyPrefetches(FinishTask(s, ready[0].cont.task, true), visible);
      }
      if task.key !in t.pre.marked {
        var w :| w in ready && w.cont == PrefetchTask(task);
        assert w != ready[0];
        assert w in ready[1..];
      }
      ResumeMarks(t, ready[1..], result, visible, task);
    }
  }

  /** What prefetching is for: once the response of a current prefetch has arrived, entering that
      context is served from the cache with that very payload, and reported as a prefetch hit. */
  lemma PrefetchedContextIsServed(s: Client, r: nat, task: Task, payload: Payload, now: int, visible: bool)
    requires Reachable(s) && Open(s.core, r) && Accepted(s.core, r, Delivered(payload))
    requires Waiter(r, PrefetchTask(task)) in s.waiters && task.epoch == s.pre.epoch
    ensures var t := Deliver(s, r, Delivered(payload), now, visible);
      Swr(t, task.key).outputs
      == t.outputs + [Lifecycle(t.calls, task.key, CacheHit(true)), Resolved(t.calls, payload, r)]
  {
    ReachableClientInv(s);
    var w := Waiter(r, PrefetchTask(task));
    var i :| 0 <= i < |s.waiters| && s.waiters[i] == w;
    assert Waits(s.core, s.waiters[i]);
    SplitMembers(s.waiters, r);
    var t := s.(core := Settle(s.core, r, Delivered(payload), now), waiters := ForOthers(s.waiters, r));
    ResumeMarks(t, ForRequest(s.waiters, r), Delivered(payload), visible, task);
    ResumeOutputs(t, ForRequest(s.waiters, r), Delivered(payload), visible);
  }

  // ----- Context switch -----

  ghost predicate EarnedFrom(settled: seq<Settlement>, from: nat, key: QueryKey) {
    exists i: nat :: from <= i < |settled| && settled[i].ok && settled[i].task.key == key
  }

  /** Successful settlements from position `from` on belong to epoch `epoch` or later, and every
      marked key was in `base` or was earned by one of them. */
  ghost predicate OnlyFrom(s: Client, from: nat, epoch: nat, base: set<QueryKey>) {
    && s.pre.epoch >= epoch
    && from <= |s.pre.settled|
    && (forall i: nat :: from <= i < |s.pre.settled| && s.pre.settled[i].ok ==> s.pre.settled[i].task.epoch >= epoch)
    && (forall k :: k in s.pre.marked ==> k in base || EarnedFrom(s.pre.settled, from, k))
  }

  lemma OnlyFromCarries(s: Client, t: Client, from: nat, epoch: nat, base: set<QueryKey>)
    requires OnlyFrom(s, from, epoch, base)
    requires s.pre.settled <= t.pre.settled && s.pre.epoch <= t.pre.epoch
    requires forall i: nat :: |s.pre.settled| <= i < |t.pre.settled| && t.pre.settled[i].ok ==>
      t.pre.settled[i].task.epoch >= epoch
    requires forall k :: k in t.pre.marked ==> k in s.pre.marked || EarnedFrom(t.pre.settled, from, k)
    ensures OnlyFrom(t, from, epoch, base)
  {
    forall k | k in t.pre.marked ensures k in base || EarnedFrom(t.pre.settled, from, k) {
      if k in s.pre.marked && k !in base {
        var i: nat :| from <= i < |s.pre.settled| && s.pre.settled[i].ok && s.pre.settled[i].task.key == k;
        assert t.pre.settled[i] == s.pre.settled[i];
      }
    }
  }

  lemma {:induction false} DrainOnlyFrom(s: Client, visible: bool, from: nat, epoch: nat, base: set<QueryKey>)
    requires OnlyFrom(s, from, epoch, base)
    ensures OnlyFrom(Drain(s, visible), from, epoch, base)
    decreases |s.pre.queue|
  {
    if s.pre.active >= s.pre.limit || s.pre.queue == [] {
    } else if s.pre.queue[0].epoch != s.pre.epoch || !visible {
      OnlyFromCarries(s, RejectHead(s), from, epoch, base);
      DrainOnlyFrom(RejectHead(s), visible, from, epoch, base);
    } else {
      DrainOnlyFrom(StartHead(s), visible, from, epoch, base);
    }
  }

  lemma FinishOnlyFrom(s: Client, task: Task, delivered: bool, from: nat, epoch: nat, base: set<QueryKey>)
    requires OnlyFrom(s, from, epoch, base)
    ensures OnlyFrom(FinishTask(s, task, delivered), from, epoch, base)
  {
    var t := FinishTask(s, task, delivered);
    assert t.pre.settled[|s.pre.settled|] == Settlement(task, delivered && task.epoch == s.pre.epoch);
    OnlyFromCarries(s, t, from, epoch, base);
  }

  lemma {:induction false} ResumeOnlyFrom(
    s: Client, ready: seq<Waiter>, result: Outcome, visible: bool, from: nat, epoch: nat, base: set<QueryKey>)
    requires OnlyFrom(s, from, epoch, base)
    ensures OnlyFrom(Resume(s, ready, result, visible), from, epoch, base)
    decreases |ready|
  {
    if ready != [] {
      if ready[0].cont.PrefetchTask? {
        FinishOnlyFrom(s, ready[0].cont.task, result.Delivered?, from, epoch, base);
        DrainOnlyFrom(FinishTask(s, ready[0].cont.task, result.Delivered?), visible, from, epoch, base);
      }
      ResumeOnlyFrom(ResumeOne(s, ready[0], result, visible), ready[1..], result, visible, from, epoch, base);
    }
  }

  lemma DoOnlyFrom(s: Client, a: Call, from: nat, epoch: nat, base: set<QueryKey>)
    requires OnlyFrom(s, from, epoch, base)
    ensures OnlyFrom(Do(s, a), from, epoch, base)
  {
    match a {
      case DoPrefetch(key, now, visible) => DrainOnlyFrom(Enqueue(s, key), visible, from, epoch, base);
      case DoDeliver(r, outcome, now, visible) =>
        if Open(s.core, r) {
          ResumeOnlyFrom(s.(core := Settle(s.core, r, outcome, now), waiters := ForOthers(s.waiters, r)),
                         ForRequest(s.waiters, r), Verdict(s.core, r, outcome), visible, from, epoch, base);
        }
      case _ => OnlyFromCarries(s, Do(s, a), from, epoch, base);
    }
  }

  lemma {:induction false} DoAllOnlyFrom(s: Client, calls: seq<Call>, from: nat, epoch: nat, base: set<QueryKey>)
    requires OnlyFrom(s, from, epoch, base)
    ensures OnlyFrom(DoAll(s, calls), from, epoch, base)
    decreases |calls|
  {
    if calls != [] {
      DoOnlyFrom(s, calls[0], from, epoch, base);
      DoAllOnlyFrom(Do(s, calls[0]), calls[1..], from, epoch, base);
    }
  }

  lemma SwitchedOnlyFrom(s: Client, keep: QueryKey, calls: seq<Call>)
    ensures OnlyFrom(DoAll(AbortAllExcept(s, keep), calls), |s.pre.settled|, s.pre.epoch + 1, s.pre.marked)
  {
    var t := AbortAllExcept(s, keep);
    assert OnlyFrom(t, |s.pre.settled|, s.pre.epoch + 1, s.pre.marked);
    DoAllOnlyFrom(t, calls, |s.pre.settled|, s.pre.epoch + 1, s.pre.marked);
  }

  /** Switching context empties the prefetch queue and leaves at most the kept key in flight;
      every other pending request is aborted. A request already under way for the kept key is
      adopted by the next load of it, with no new request. */
  lemma ContextSwitch(s: Client, keep: QueryKey)
    requires Reachable(s)
    ensures var t := AbortAllExcept(s, keep);
      && t.pre.queue == []
      && t.core.inflight.Keys <= {keep}
      && (forall r: nat :: Open(t.core, r) && t.core.requests[r].key != keep ==> t.core.requests[r].aborted)
      && (keep in s.core.inflight ==>
            && Load(t, keep).core == t.core
            && Fetched(t.core, keep) == s.core.inflight[keep])
  {
    ReachableClientInv(s);
    var t := AbortAllExcept(s, keep);
    StepKeepsInv(s.core, DoAbort(s.core.controllers.Keys - {keep}));
    forall r: nat | Open(t.core, r) && t.core.requests[r].key != keep ensures t.core.requests[r].aborted {
      assert RequestOk(t.core, r);
    }
  }

  /** A prefetch running when the context switches is never reported as completed afterwards,
      whatever happens next: its own promise can only be rejected. */
  lemma SwitchRejectsRunningPrefetches(s: Client, keep: QueryKey, task: Task, calls: seq<Call>)
    requires Reachable(s)
    requires exists w :: w in s.waiters && w.cont == PrefetchTask(task)
    ensures var later := DoAll(AbortAllExcept(s, keep), calls);
      forall i: nat :: |s.pre.settled| <= i < |later.pre.settled| ==> later.pre.settled[i] != Settlement(task, true)
  {
    ReachableClientInv(s);
    SwitchedOnlyFrom(s, keep, calls);
  }

  /** Nor does it ever mark its key: what is marked after a switch was marked before, or was earned
      by a prefetch queued and completed after the switch. */
  lemma MarksAfterSwitchAreNew(s: Client, keep: QueryKey, calls: seq<Call>, key: QueryKey)
    requires key in DoAll(AbortAllExcept(s, keep), calls).pre.marked
    ensures key in s.pre.marked
      || exists i: nat ::
           var settled := DoAll(AbortAllExcept(s, keep), calls).pre.settled;
           |s.pre.settled| <= i < |settled| && settled[i].ok && settled[i].task.key == key
           && settled[i].task.epoch > s.pre.epoch
  {
    SwitchedOnlyFrom(s, keep, calls);
    var settled := DoAll(AbortAllExcept(s, keep), calls).pre.settled;
    if key !in s.pre.marked {
      var i: nat :| |s.pre.settled| <= i < |settled| && settled[i].ok && settled[i].task.key == key;
    }
  }

  // ----- Calls -----

  /** Lifecycle grammar: each call shows one cache hit, or a cold start followed by nothing while
      its load is pending and by exactly one of success, error and aborted once it has settled. */
  lemma LifecycleGrammar(s: Client, call: nat)
    requires Reachable(s) && call < s.calls
    ensures var ph := Phases(s.outputs, call);
      || (|ph| == 1 && ph[0].CacheHit? && Colds(s.waiters, call) == 0)
      || (ph == [ColdStart] && Colds(s.waiters, call) == 1)
      || (|ph| == 2 && ph[0] == ColdStart && Terminal(ph[1]) && Colds(s.waiters, call) == 0)
  {
    ReachableClientInv(s);
    assert CallOk(s, call);
  }

  lemma {:induction false} ColdIsCounted(waiters: seq<Waiter>, w: Waiter)
    requires w in waiters && w.cont.ColdCall?
    ensures Colds(ForRequest(waiters, w.request), w.cont.call) >= 1
  {
    var rest := ForRequest(waiters[1..], w.request);
    assert ([waiters[0]] + rest)[1..] == rest && [] + rest == rest;
    if waiters[0] != w { ColdIsCounted(waiters[1..], w); }
  }

  /** The outcome is the right one: a cold call awaiting a request ends in success exactly when the
      response is delivered and still current, and a delivered response that is no longer current
      counts as an abort. */
  lemma ColdCallOutcome(s: Client, w: Waiter, outcome: Outcome, now: int, visible: bool)
    requires Reachable(s) && w in s.waiters && w.cont.ColdCall? && Open(s.core, w.request)
    ensures Phases(Deliver(s, w.request, outcome, now, visible).outputs, w.cont.call)
      == [ColdStart,
          if outcome.Delivered? && Quiet(s.core, w.request) then Success
          else if outcome.Delivered? || outcome.isAbort then Aborted
          else Error]
  {
    ReachableClientInv(s);
    assert CallOk(s, w.cont.call) && StartOk(s.core, w.request);
    ColdIsCounted(s.waiters, w);
    DeliverAdds(s, w.request, outcome, now, visible, w.cont.call);
  }

  /** Prefetch accounting: hits reported as prefetched plus keys still marked never exceed the
      prefetches completed in their own epoch, and each marked key is cached and was earned by one. */
  lemma PrefetchHitsAreEarned(s: Client)
    requires Reachable(s)
    ensures PrefetchHits(s.outputs) + |s.pre.marked| <= Oks(s.pre.settled)
    ensures s.pre.marked <= s.core.cache.Keys
    ensures forall k :: k in s.pre.marked ==> Earned(s.pre.settled, k)
  {
    ReachableClientInv(s);
  }
}
