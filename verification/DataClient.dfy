/** ProcurementDataClient as a step system: the request core together with the promise
    continuations waiting on requests, the prefetch scheduler, and the lifecycle outputs of
    stale-while-revalidate calls. Settling a request runs all its continuations in one step. */
module DataClient {
  import opened Text
  import opened QueryContext
  import opened RequestCore

  datatype Task = Task(id: nat, key: QueryKey, epoch: nat)

  /** What is attached to the promise of a request. */
  datatype Continuation =
    | PrefetchTask(task: Task)
    | ColdCall(call: nat, callKey: QueryKey)
    | RefreshCall(call: nat, callKey: QueryKey)
  {
    function Key(): QueryKey { if PrefetchTask? then task.key else callKey }
  }

  datatype Waiter = Waiter(request: nat, cont: Continuation)

  datatype Settlement = Settlement(task: Task, ok: bool)

  datatype Prefetcher = Prefetcher(
    limit: nat, queue: seq<Task>, active: nat, epoch: nat,
    created: nat, settled: seq<Settlement>, marked: set<QueryKey>)

  datatype Phase = ColdStart | CacheHit(prefetched: bool) | Success | Error | Aborted

  /** What a stale-while-revalidate call shows its surroundings: lifecycle events, the value its
      promise resolves to, and the value handed to `onRefresh`. */
  datatype Output =
    | Lifecycle(call: nat, key: QueryKey, phase: Phase)
    | Resolved(call: nat, payload: Payload, writer: nat)
    | Refreshed(call: nat, payload: Payload, writer: nat)

  datatype Client = Client(
    ttl: int, core: Core, waiters: seq<Waiter>, pre: Prefetcher, calls: nat, outputs: seq<Output>)

  /** `Math.min(2, Math.max(1, concurrency))` */
  function Clamp(concurrency: int): nat {
    if concurrency < 1 then 1 else if concurrency > 2 then 2 else concurrency
  }

  function Fresh(ttl: int, concurrency: int): Client {
    Client(ttl, EMPTY, [], Prefetcher(Clamp(concurrency), [], 0, 0, 0, [], {}), 0, [])
  }

  predicate IsStale(ttl: int, entry: CacheEntry, now: int) { now - entry.fetchedAt > ttl }

  // ----- Prefetch scheduler -----

  function RejectHead(s: Client): Client
    requires s.pre.queue != []
  {
    s.(pre := s.pre.(queue := s.pre.queue[1..], settled := s.pre.settled + [Settlement(s.pre.queue[0], false)]))
  }

  function StartHead(s: Client): Client
    requires s.pre.queue != []
  {
    var task := s.pre.queue[0];
    s.(pre := s.pre.(queue := s.pre.queue[1..], active := s.pre.active + 1),
       core := Fetch(s.core, task.key),
       waiters := s.waiters + [Waiter(Fetched(s.core, task.key), PrefetchTask(task))])
  }

  function Drain(s: Client, visible: bool): Client
    decreases |s.pre.queue|
  {
    if s.pre.active >= s.pre.limit || s.pre.queue == [] then s
    else if s.pre.queue[0].epoch != s.pre.epoch then Drain(RejectHead(s), visible)
    else if !visible then Drain(RejectHead(s), visible)
    else Drain(StartHead(s), visible)
  }

  function FinishTask(s: Client, task: Task, delivered: bool): Client {
    var ok := delivered && task.epoch == s.pre.epoch;
    s.(pre := s.pre.(
         settled := s.pre.settled + [Settlement(task, ok)],
         marked := if ok then s.pre.marked + {task.key} else s.pre.marked,
         active := if s.pre.active == 0 then 0 else s.pre.active - 1))
  }

  function Enqueue(s: Client, key: QueryKey): Client {
    s.(pre := s.pre.(queue := s.pre.queue + [Task(s.pre.created, key, s.pre.epoch)], created := s.pre.created + 1))
  }

  function Prefetch(s: Client, key: QueryKey, now: int, visible: bool): Client {
    if key.page != 1 then s
    else if key in s.core.cache && !IsStale(s.ttl, s.core.cache[key], now) then s
    else if key in s.core.inflight then s
    else Drain(Enqueue(s, key), visible)
  }

  function Rejections(tasks: seq<Task>): seq<Settlement> {
    seq(|tasks|, i requires 0 <= i < |tasks| => Settlement(tasks[i], false))
  }

  function CancelQueued(s: Client): Client {
    s.(pre := s.pre.(epoch := s.pre.epoch + 1, queue := [], settled := s.pre.settled + Rejections(s.pre.queue)))
  }

  // ----- Calls -----

  function Load(s: Client, key: QueryKey): Client { s.(core := Fetch(s.core, key)) }

  function Swr(s: Client, key: QueryKey): Client {
    var call := s.calls;
    var request := Fetched(s.core, key);
    if key !in s.core.cache then
      s.(core := Fetch(s.core, key),
         waiters := s.waiters + [Waiter(request, ColdCall(call, key))],
         calls := call + 1,
         outputs := s.outputs + [Lifecycle(call, key, ColdStart)])
    else
      var entry := s.core.cache[key];
      s.(core := Fetch(s.core, key),
         waiters := s.waiters + [Waiter(request, RefreshCall(call, key))],
         pre := s.pre.(marked := s.pre.marked - {key}),
         calls := call + 1,
         outputs := s.outputs + [Lifecycle(call, key, CacheHit(key in s.pre.marked)),
                                 Resolved(call, entry.payload, entry.writer)])
  }

  function AbortKey(s: Client, key: QueryKey): Client { s.(core := Abort(s.core, {key})) }

  function AbortAllExcept(s: Client, keep: QueryKey): Client {
    CancelQueued(s).(core := Abort(s.core, s.core.controllers.Keys - {keep}))
  }

  function InvalidateKeys(s: Client, keys: set<QueryKey>): Client {
    s.(core := Invalidate(s.core, keys), pre := s.pre.(marked := s.pre.marked - keys))
  }

  /** `invalidate()` without a predicate. */
  function InvalidateAll(s: Client): Client {
    s.(core := Invalidate(s.core, s.core.cache.Keys), pre := s.pre.(marked := {}))
  }

  /** Context labels as a revision names them: trimmed, blanks dropped. */
  function CleanContexts(values: seq<string>): set<string> {
    set v | v in values && Trim(v) != "" :: Trim(v)
  }

  function AffectedKeys(cache: map<QueryKey, CacheEntry>, contexts: set<string>): set<QueryKey> {
    set k | k in cache && ContextId(k) in contexts
  }

  /** Exactly the cached keys that one of the labels names are affected. */
  lemma AffectedIffLabelled(cache: map<QueryKey, CacheEntry>, texts: seq<string>, key: QueryKey)
    requires key in cache
    ensures key in AffectedKeys(cache, CleanContexts(texts)) <==> LabelledIn(texts, key)
  {
    if LabelledIn(texts, key) {
      var i :| 0 <= i < |texts| && Labels(texts[i], key);
      LabelIsContextId(texts[i], key);
      assert texts[i] in texts && Trim(texts[i]) != "";
    }
    if ContextId(key) in CleanContexts(texts) {
      var v :| v in texts && Trim(v) == ContextId(key);
      LabelIsContextId(v, key);
      var i :| 0 <= i < |texts| && texts[i] == v;
    }
  }

  // ----- Delivery -----

  function ForRequest(waiters: seq<Waiter>, r: nat): seq<Waiter> {
    if waiters == [] then []
    else (if waiters[0].request == r then [waiters[0]] else []) + ForRequest(waiters[1..], r)
  }

  function ForOthers(waiters: seq<Waiter>, r: nat): seq<Waiter> {
    if waiters == [] then []
    else (if waiters[0].request == r then [] else [waiters[0]]) + ForOthers(waiters[1..], r)
  }

  /** What a call's continuation shows once its request has settled. */
  function Emit(w: Waiter, result: Outcome): seq<Output> {
    match w.cont
    case PrefetchTask(_) => []
    case ColdCall(call, key) =>
      if result.Delivered? then [Lifecycle(call, key, Success), Resolved(call, result.payload, w.request)]
      else [Lifecycle(call, key, if result.isAbort then Aborted else Error)]
    case RefreshCall(call, key) =>
      if result.Delivered? then [Refreshed(call, result.payload, w.request)] else []
  }

  function ResumeOne(s: Client, w: Waiter, result: Outcome, visible: bool): Client {
    match w.cont
    case PrefetchTask(task) => Drain(FinishTask(s, task, result.Delivered?), visible)
    case ColdCall(_, _) => s.(outputs := s.outputs + Emit(w, result))
    case RefreshCall(_, _) => s.(outputs := s.outputs + Emit(w, result))
  }

  function Resume(s: Client, ready: seq<Waiter>, result: Outcome, visible: bool): Client
    decreases |ready|
  {
    if ready == [] then s else Resume(ResumeOne(s, ready[0], result, visible), ready[1..], result, visible)
  }

  /** What the tracked promise settles to: a response that fails the generation check is
      discarded as an abort. */
  function Verdict(c: Core, r: nat, outcome: Outcome): Outcome
    requires r < |c.requests|
  {
    if outcome.Delivered? && !Accepted(c, r, outcome) then Failed(true) else outcome
  }

  function Deliver(s: Client, r: nat, outcome: Outcome, now: int, visible: bool): Client
    requires Open(s.core, r)
  {
    Resume(s.(core := Settle(s.core, r, outcome, now), waiters := ForOthers(s.waiters, r)),
           ForRequest(s.waiters, r), Verdict(s.core, r, outcome), visible)
  }

  // ----- Runs -----

  datatype Call =
    | DoLoad(key: QueryKey)
    | DoSwr(key: QueryKey)
    | DoPrefetch(key: QueryKey, now: int, visible: bool)
    | DoAbortKey(key: QueryKey)
    | DoAbortAllExcept(key: QueryKey)
    | DoInvalidateKeys(keys: set<QueryKey>)
    | DoInvalidateAll
    | DoDeliver(request: nat, outcome: Outcome, now: int, visible: bool)

  function Do(s: Client, a: Call): Client {
    match a
    case DoLoad(key) => Load(s, key)
    case DoSwr(key) => Swr(s, key)
    case DoPrefetch(key, now, visible) => Prefetch(s, key, now, visible)
    case DoAbortKey(key) => AbortKey(s, key)
    case DoAbortAllExcept(key) => AbortAllExcept(s, key)
    case DoInvalidateKeys(keys) => InvalidateKeys(s, keys)
    case DoInvalidateAll => InvalidateAll(s)
    case DoDeliver(r, outcome, now, visible) => if Open(s.core, r) then Deliver(s, r, outcome, now, visible) else s
  }

  function DoAll(s: Client, calls: seq<Call>): Client
    decreases |calls|
  {
    if calls == [] then s else DoAll(Do(s, calls[0]), calls[1..])
  }
}
