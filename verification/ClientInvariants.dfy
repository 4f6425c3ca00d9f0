/** The invariants of the data client and their preservation by every step. */
module ClientInvariants {
  import opened QueryContext
  import opened RequestCore
  import opened DataClient

  // ----- Every step is a run of the request core -----

  lemma {:induction false} DrainLeads(s: Client, visible: bool)
    ensures Leads(s.core, Drain(s, visible).core)
    ensures Drain(s, visible).core.cache == s.core.cache
    decreases |s.pre.queue|
  {
    if s.pre.active >= s.pre.limit || s.pre.queue == [] {
      LeadsSelf(s.core);
    } else if s.pre.queue[0].epoch != s.pre.epoch || !visible {
      DrainLeads(RejectHead(s), visible);
    } else {
      LeadsStep(s.core, DoFetch(s.pre.queue[0].key));
      DrainLeads(StartHead(s), visible);
      LeadsThrough(s.core, StartHead(s).core, Drain(s, visible).core);
    }
  }

  lemma {:induction false} ResumeLeads(s: Client, ready: seq<Waiter>, result: Outcome, visible: bool)
    ensures Leads(s.core, Resume(s, ready, result, visible).core)
    decreases |ready|
  {
    if ready == [] {
      LeadsSelf(s.core);
    } else {
      var t := ResumeOne(s, ready[0], result, visible);
      if ready[0].cont.PrefetchTask? {
        DrainLeads(FinishTask(s, ready[0].cont.task, result.Delivered?), visible);
      } else {
        LeadsSelf(s.core);
      }
      ResumeLeads(t, ready[1..], result, visible);
      LeadsThrough(s.core, t.core, Resume(s, ready, result, visible).core);
    }
  }

  lemma DoLeads(s: Client, a: Call)
    ensures Leads(s.core, Do(s, a).core)
  {
    match a {
      case DoLoad(key) => LeadsStep(s.core, DoFetch(key));
      case DoSwr(key) => LeadsStep(s.core, DoFetch(key));
      case DoPrefetch(key, now, visible) =>
        LeadsSelf(s.core);
        DrainLeads(Enqueue(s, key), visible);
      case DoAbortKey(key) => LeadsStep(s.core, DoAbort({key}));
      case DoAbortAllExcept(key) => LeadsStep(s.core, DoAbort(s.core.controllers.Keys - {key}));
      case DoInvalidateKeys(keys) => LeadsStep(s.core, DoInvalidate(keys));
      case DoInvalidateAll => LeadsStep(s.core, DoInvalidate(s.core.cache.Keys));
      case DoDeliver(r, outcome, now, visible) =>
        LeadsSelf(s.core);
        if Open(s.core, r) {
          LeadsStep(s.core, DoSettle(r, outcome, now));
          var t := s.(core := Settle(s.core, r, outcome, now), waiters := ForOthers(s.waiters, r));
          ResumeLeads(t, ForRequest(s.waiters, r), Verdict(s.core, r, outcome), visible);
          LeadsThrough(s.core, t.core, Deliver(s, r, outcome, now, visible).core);
        }
    }
  }

  lemma {:induction false} DoAllLeads(s: Client, calls: seq<Call>)
    ensures Leads(s.core, DoAll(s, calls).core)
    decreases |calls|
  {
    if calls == [] {
      LeadsSelf(s.core);
    } else {
      DoLeads(s, calls[0]);
      DoAllLeads(Do(s, calls[0]), calls[1..]);
      LeadsThrough(s.core, Do(s, calls[0]).core, DoAll(s, calls).core);
    }
  }

  // ----- Waiters -----

  ghost predicate Waits(c: Core, w: Waiter) {
    Open(c, w.request) && c.requests[w.request].key == w.cont.Key()
  }

  /** Every continuation waits on an open request for its own key. */
  ghost predicate WaitInv(s: Client) {
    CoreInv(s.core) && forall i :: 0 <= i < |s.waiters| ==> Waits(s.core, s.waiters[i])
  }

  lemma FetchKeepsWaits(s: Client, key: QueryKey, cont: Continuation)
    requires WaitInv(s) && cont.Key() == key
    ensures WaitInv(s.(core := Fetch(s.core, key), waiters := s.waiters + [Waiter(Fetched(s.core, key), cont)]))
  {
    StepKeepsInv(s.core, DoFetch(key));
    FetchKeepsFlight(s.core, key);
  }

  lemma {:induction false} DrainKeepsWaits(s: Client, visible: bool)
    requires WaitInv(s)
    ensures WaitInv(Drain(s, visible))
    decreases |s.pre.queue|
  {
    if s.pre.active >= s.pre.limit || s.pre.queue == [] {
    } else if s.pre.queue[0].epoch != s.pre.epoch || !visible {
      DrainKeepsWaits(RejectHead(s), visible);
    } else {
      FetchKeepsWaits(s, s.pre.queue[0].key, PrefetchTask(s.pre.queue[0]));
      DrainKeepsWaits(StartHead(s), visible);
    }
  }

  lemma {:induction false} ResumeKeepsWaits(s: Client, ready: seq<Waiter>, result: Outcome, visible: bool)
    requires WaitInv(s)
    ensures WaitInv(Resume(s, ready, result, visible))
    decreases |ready|
  {
    if ready != [] {
      if ready[0].cont.PrefetchTask? {
        DrainKeepsWaits(FinishTask(s, ready[0].cont.task, result.Delivered?), visible);
      }
      ResumeKeepsWaits(ResumeOne(s, ready[0], result, visible), ready[1..], result, visible);
    }
  }

  lemma {:induction false} SplitMembers(waiters: seq<Waiter>, r: nat)
    ensures forall w :: w in ForOthers(waiters, r) <==> w in waiters && w.request != r
    ensures forall w :: w in ForRequest(waiters, r) <==> w in waiters && w.request == r
  {
    if waiters != [] { SplitMembers(waiters[1..], r); }
  }

  lemma SettleKeepsWaits(s: Client, r: nat, outcome: Outcome, now: int)
    requires WaitInv(s) && Open(s.core, r)
    ensures WaitInv(s.(core := Settle(s.core, r, outcome, now), waiters := ForOthers(s.waiters, r)))
  {
    var t := s.(core := Settle(s.core, r, outcome, now), waiters := ForOthers(s.waiters, r));
    StepKeepsInv(s.core, DoSettle(r, outcome, now));
    SplitMembers(s.waiters, r);
    forall i | 0 <= i < |t.waiters| ensures Waits(t.core, t.waiters[i]) {
      assert t.waiters[i] in s.waiters;
    }
  }

  lemma DoKeepsWaits(s: Client, a: Call)
    requires WaitInv(s)
    ensures WaitInv(Do(s, a))
  {
    match a {
      case DoLoad(key) => StepKeepsInv(s.core, DoFetch(key));
      case DoSwr(key) =>
        FetchKeepsWaits(s, key, if key in s.core.cache then RefreshCall(s.calls, key) else ColdCall(s.calls, key));
      case DoPrefetch(key, now, visible) => DrainKeepsWaits(Enqueue(s, key), visible);
      case DoAbortKey(key) => StepKeepsInv(s.core, DoAbort({key}));
      case DoAbortAllExcept(key) => StepKeepsInv(s.core, DoAbort(s.core.controllers.Keys - {key}));
      case DoInvalidateKeys(keys) => StepKeepsInv(s.core, DoInvalidate(keys));
      case DoInvalidateAll => StepKeepsInv(s.core, DoInvalidate(s.core.cache.Keys));
      case DoDeliver(r, outcome, now, visible) =>
        if Open(s.core, r) {
          SettleKeepsWaits(s, r, outcome, now);
          ResumeKeepsWaits(s.(core := Settle(s.core, r, outcome, now), waiters := ForOthers(s.waiters, r)),
                           ForRequest(s.waiters, r), Verdict(s.core, r, outcome), visible);
        }
    }
  }

  // ----- Prefetch accounting -----

  function Running(waiters: seq<Waiter>): seq<Task> {
    if waiters == [] then []
    else (if waiters[0].cont.PrefetchTask? then [waiters[0].cont.task] else []) + Running(waiters[1..])
  }

  /** How often task `id` occurs. */
  function Count(tasks: seq<Task>, id: nat): nat {
    if tasks == [] then 0 else (if tasks[0].id == id then 1 else 0) + Count(tasks[1..], id)
  }

  function CountSettled(settled: seq<Settlement>, id: nat): nat {
    if settled == [] then 0
    else CountSettled(settled[..|settled| - 1], id) + (if settled[|settled| - 1].task.id == id then 1 else 0)
  }

  lemma {:induction false} RunningAppend(a: seq<Waiter>, b: seq<Waiter>)
    ensures Running(a + b) == Running(a) + Running(b)
  {
    if a == [] {
      assert [] + b == b;
    } else {
      RunningAppend(a[1..], b);
      assert (a + b)[1..] == a[1..] + b;
    }
  }

  lemma {:induction false} CountAppend(a: seq<Task>, b: seq<Task>, id: nat)
    ensures Count(a + b, id) == Count(a, id) + Count(b, id)
  {
    if a == [] {
      assert [] + b == b;
    } else {
      CountAppend(a[1..], b, id);
      assert (a + b)[1..] == a[1..] + b;
    }
  }

  lemma {:induction false} SettledMany(a: seq<Settlement>, tasks: seq<Task>, id: nat)
    ensures CountSettled(a + Rejections(tasks), id) == CountSettled(a, id) + Count(tasks, id)
    decreases |tasks|
  {
    if tasks == [] {
      assert a + Rejections(tasks) == a;
    } else {
      var head, rest := tasks[0], tasks[1..];
      SettledMany(a + [Settlement(head, false)], rest, id);
      assert a + Rejections(tasks) == a + [Settlement(head, false)] + Rejections(rest);
    }
  }

  lemma {:induction false} SplitRunning(waiters: seq<Waiter>, r: nat, id: nat)
    ensures |Running(waiters)| == |Running(ForOthers(waiters, r))| + |Running(ForRequest(waiters, r))|
    ensures Count(Running(waiters), id)
         == Count(Running(ForOthers(waiters, r)), id) + Count(Running(ForRequest(waiters, r)), id)
  {
    if waiters != [] {
      var w, rest := waiters[0], waiters[1..];
      SplitRunning(rest, r, id);
      var mine, others := ForRequest(rest, r), ForOthers(rest, r);
      var here := if w.cont.PrefetchTask? then [w.cont.task] else [];
      assert Running(waiters) == here + Running(rest);
      CountAppend(here, Running(rest), id);
      if w.request == r {
        assert ForRequest(waiters, r) == [w] + mine && ForOthers(waiters, r) == others;
        assert Running([w] + mine) == here + Running(mine) by { assert ([w] + mine)[1..] == mine; }
        CountAppend(here, Running(mine), id);
      } else {
        assert ForRequest(waiters, r) == mine && ForOthers(waiters, r) == [w] + others;
        assert Running([w] + others) == here + Running(others) by { assert ([w] + others)[1..] == others; }
        CountAppend(here, Running(others), id);
      }
    }
  }

  ghost predicate InOnePlace(s: Client, ready: seq<Waiter>, id: nat) {
    Count(s.pre.queue, id) + Count(Running(s.waiters), id) + Count(Running(ready), id)
      + CountSettled(s.pre.settled, id) == if id < s.pre.created then 1 else 0
  }

  /** Bookkeeping of the scheduler while the continuations `ready` are still to run: the counter
      counts running tasks, and every prefetch ever queued is in exactly one place. */
  ghost predicate TaskInv(s: Client, ready: seq<Waiter>) {
    && 1 <= s.pre.limit <= 2
    && s.pre.active == |Running(s.waiters)| + |Running(ready)| <= s.pre.limit
    && (forall id: nat :: InOnePlace(s, ready, id))
    && |s.pre.queue| + s.pre.active + |s.pre.settled| == s.pre.created
    && (forall i :: 0 <= i < |s.pre.queue| ==> s.pre.queue[i].epoch == s.pre.epoch)
  }

  ghost predicate WorkConserving(s: Client) {
    s.pre.queue != [] ==> s.pre.active == s.pre.limit
  }

  lemma RejectHeadTasks(s: Client, ready: seq<Waiter>)
    requires TaskInv(s, ready) && s.pre.queue != []
    ensures TaskInv(RejectHead(s), ready)
  {
    forall id: nat ensures InOnePlace(RejectHead(s), ready, id) {
      assert InOnePlace(s, ready, id);
    }
  }

  lemma StartHeadTasks(s: Client, ready: seq<Waiter>)
    requires TaskInv(s, ready) && s.pre.queue != [] && s.pre.active < s.pre.limit
    ensures TaskInv(StartHead(s), ready)
  {
    var task := s.pre.queue[0];
    var w := Waiter(Fetched(s.core, task.key), PrefetchTask(task));
    RunningAppend(s.waiters, [w]);
    assert Running([w]) == [task];
    forall id: nat ensures InOnePlace(StartHead(s), ready, id) {
      assert InOnePlace(s, ready, id);
      CountAppend(Running(s.waiters), [task], id);
    }
  }

  lemma {:induction false} DrainTasks(s: Client, visible: bool, ready: seq<Waiter>)
    requires TaskInv(s, ready)
    ensures TaskInv(Drain(s, visible), ready) && WorkConserving(Drain(s, visible))
    ensures Drain(s, visible).pre.epoch == s.pre.epoch && Drain(s, visible).pre.created == s.pre.created
    ensures Drain(s, visible).outputs == s.outputs && Drain(s, visible).calls == s.calls
    ensures Drain(s, visible).pre.marked == s.pre.marked
    ensures |Drain(s, visible).pre.queue| + Drain(s, visible).pre.active <= |s.pre.queue| + s.pre.active
    decreases |s.pre.queue|
  {
    if s.pre.active >= s.pre.limit || s.pre.queue == [] {
    } else if s.pre.queue[0].epoch != s.pre.epoch || !visible {
      RejectHeadTasks(s, ready);
      DrainTasks(RejectHead(s), visible, ready);
    } else {
      StartHeadTasks(s, ready);
      DrainTasks(StartHead(s), visible, ready);
    }
  }

  lemma FinishTasks(s: Client, ready: seq<Waiter>, delivered: bool)
    requires ready != [] && ready[0].cont.PrefetchTask?
    requires TaskInv(s, ready)
    ensures s.pre.active > 0
    ensures TaskInv(FinishTask(s, ready[0].cont.task, delivered), ready[1..])
  {
    var task := ready[0].cont.task;
    var t := FinishTask(s, task, delivered);
    assert Running(ready) == [task] + Running(ready[1..]);
    forall id: nat ensures InOnePlace(t, ready[1..], id) {
      assert InOnePlace(s, ready, id);
    }
  }

  lemma SkipTasks(s: Client, t: Client, ready: seq<Waiter>)
    requires TaskInv(s, ready) && ready != [] && !ready[0].cont.PrefetchTask?
    requires t.pre == s.pre && t.waiters == s.waiters
    ensures TaskInv(t, ready[1..])
  {
    assert Running(ready) == Running(ready[1..]);
    forall id: nat ensures InOnePlace(t, ready[1..], id) { assert InOnePlace(s, ready, id); }
  }

  lemma ResumeOneTasks(s: Client, ready: seq<Waiter>, result: Outcome, visible: bool)
    requires ready != [] && TaskInv(s, ready) && WorkConserving(s)
    ensures var t := ResumeOne(s, ready[0], result, visible);
      && TaskInv(t, ready[1..]) && WorkConserving(t) && t.pre.epoch == s.pre.epoch && t.pre.created == s.pre.created
      && |t.pre.queue| + t.pre.active + (if ready[0].cont.PrefetchTask? then 1 else 0)
           <= |s.pre.queue| + s.pre.active
  {
    if ready[0].cont.PrefetchTask? {
      FinishTasks(s, ready, result.Delivered?);
      DrainTasks(FinishTask(s, ready[0].cont.task, result.Delivered?), visible, ready[1..]);
    } else {
      SkipTasks(s, ResumeOne(s, ready[0], result, visible), ready);
    }
  }

  /** Each settled prefetch lowers queue length plus active count. */
  lemma {:induction false} ResumeTasks(s: Client, ready: seq<Waiter>, result: Outcome, visible: bool)
    requires TaskInv(s, ready) && WorkConserving(s)
    ensures var t := Resume(s, ready, result, visible);
      && TaskInv(t, []) && WorkConserving(t) && t.pre.epoch == s.pre.epoch && t.pre.created == s.pre.created
      && |t.pre.queue| + t.pre.active + |Running(ready)| <= |s.pre.queue| + s.pre.active
    decreases |ready|
  {
    if ready != [] {
      ResumeOneTasks(s, ready, result, visible);
      ResumeTasks(ResumeOne(s, ready[0], result, visible), ready[1..], result, visible);
    }
  }

  ghost predicate SchedulerInv(s: Client) { TaskInv(s, []) && WorkConserving(s) }

  lemma SplitTaskInv(s: Client, r: nat, core: Core)
    requires SchedulerInv(s)
    ensures TaskInv(s.(core := core, waiters := ForOthers(s.waiters, r)), ForRequest(s.waiters, r))
  {
    SplitRunning(s.waiters, r, 0);
    forall id: nat
      ensures InOnePlace(s.(core := core, waiters := ForOthers(s.waiters, r)), ForRequest(s.waiters, r), id)
    {
      assert InOnePlace(s, [], id);
      SplitRunning(s.waiters, r, id);
    }
  }

  /** Steps that leave queue, running tasks and settlements alone. */
  lemma SameTasks(s: Client, t: Client)
    requires SchedulerInv(s)
    requires t.pre == s.pre.(marked := t.pre.marked) && Running(t.waiters) == Running(s.waiters)
    ensures SchedulerInv(t)
  {
    forall id: nat ensures InOnePlace(t, [], id) { assert InOnePlace(s, [], id); }
  }

  lemma CallTasks(s: Client, key: QueryKey)
    ensures Running(Swr(s, key).waiters) == Running(s.waiters)
  {
    var t := Swr(s, key);
    var w := t.waiters[|s.waiters|];
    RunningAppend(s.waiters, [w]);
    assert Running([w]) == [];
  }

  lemma EnqueueTasks(s: Client, key: QueryKey)
    requires TaskInv(s, [])
    ensures TaskInv(Enqueue(s, key), [])
  {
    var task := Task(s.pre.created, key, s.pre.epoch);
    forall id: nat ensures InOnePlace(Enqueue(s, key), [], id) {
      assert InOnePlace(s, [], id);
      CountAppend(s.pre.queue, [task], id);
    }
  }

  lemma CancelTasks(s: Client)
    requires TaskInv(s, [])
    ensures TaskInv(CancelQueued(s), [])
  {
    forall id: nat ensures InOnePlace(CancelQueued(s), [], id) {
      assert InOnePlace(s, [], id);
      SettledMany(s.pre.settled, s.pre.queue, id);
    }
  }

  lemma DeliverKeepsScheduler(s: Client, r: nat, outcome: Outcome, now: int, visible: bool)
    requires SchedulerInv(s) && Open(s.core, r)
    ensures var t := Deliver(s, r, outcome, now, visible);
      && SchedulerInv(t) && t.pre.epoch == s.pre.epoch && t.pre.created == s.pre.created
      && |t.pre.queue| + t.pre.active + |Running(ForRequest(s.waiters, r))| <= |s.pre.queue| + s.pre.active
  {
    var core := Settle(s.core, r, outcome, now);
    SplitTaskInv(s, r, core);
    ResumeTasks(s.(core := core, waiters := ForOthers(s.waiters, r)),
                ForRequest(s.waiters, r), Verdict(s.core, r, outcome), visible);
  }

  lemma DoKeepsScheduler(s: Client, a: Call)
    requires SchedulerInv(s)
    ensures SchedulerInv(Do(s, a))
    ensures Do(s, a).pre.epoch >= s.pre.epoch
    ensures !a.DoPrefetch? ==>
      && Do(s, a).pre.created == s.pre.created
      && |Do(s, a).pre.queue| + Do(s, a).pre.active <= |s.pre.queue| + s.pre.active
  {
    match a {
      case DoSwr(key) =>
        CallTasks(s, key);
        SameTasks(s, Swr(s, key));
      case DoPrefetch(key, now, visible) =>
        EnqueueTasks(s, key);
        DrainTasks(Enqueue(s, key), visible, []);
      case DoAbortAllExcept(key) =>
        CancelTasks(s);
        SameTasks(CancelQueued(s), AbortAllExcept(s, key));
      case DoDeliver(r, outcome, now, visible) =>
        if Open(s.core, r) { DeliverKeepsScheduler(s, r, outcome, now, visible); }
      case _ => SameTasks(s, Do(s, a));
    }
  }
}
