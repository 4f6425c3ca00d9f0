/** The lifecycle grammar of stale-while-revalidate calls and the accounting of prefetch hits. */
module ClientCalls {
  import opened Text
  import opened QueryContext
  import opened RequestCore
  import opened DataClient
  import opened ClientInvariants

  // ----- What draining and resuming leave alone -----

  function CallWaiters(waiters: seq<Waiter>): seq<Waiter> {
    if waiters == [] then []
    else (if waiters[0].cont.PrefetchTask? then [] else [waiters[0]]) + CallWaiters(waiters[1..])
  }

  lemma {:induction false} CallWaitersAppend(a: seq<Waiter>, b: seq<Waiter>)
    ensures CallWaiters(a + b) == CallWaiters(a) + CallWaiters(b)
  {
    if a == [] {
      assert [] + b == b;
    } else {
      CallWaitersAppend(a[1..], b);
      assert (a + b)[1..] == a[1..] + b;
      Reassociate(if a[0].cont.PrefetchTask? then [] else [a[0]], CallWaiters(a[1..]), CallWaiters(b));
    }
  }

  /** Draining starts or rejects prefetches and does nothing else a call could see. */
  ghost predicate OnlyPrefetching(s: Client, t: Client) {
    && CallWaiters(t.waiters) == CallWaiters(s.waiters)
    && t.outputs == s.outputs
    && t.calls == s.calls
    && t.core.cache == s.core.cache
    && t.pre.marked == s.pre.marked
    && Oks(t.pre.settled) == Oks(s.pre.settled)
    && s.pre.settled <= t.pre.settled
    && t.pre.epoch == s.pre.epoch
    && t.ttl == s.ttl
  }

  function Oks(settled: seq<Settlement>): nat {
    if settled == [] then 0 else Oks(settled[..|settled| - 1]) + (if settled[|settled| - 1].ok then 1 else 0)
  }

  lemma {:induction false} OksMany(a: seq<Settlement>, tasks: seq<Task>)
    ensures Oks(a + Rejections(tasks)) == Oks(a)
    decreases |tasks|
  {
    if tasks == [] {
      assert a + Rejections(tasks) == a;
    } else {
      OksMany(a + [Settlement(tasks[0], false)], tasks[1..]);
      assert a + Rejections(tasks) == a + [Settlement(tasks[0], false)] + Rejections(tasks[1..]);
    }
  }

  lemma {:induction false} DrainOnlyPrefetches(s: Client, visible: bool)
    ensures OnlyPrefetching(s, Drain(s, visible))
    decreases |s.pre.queue|
  {
    if s.pre.active >= s.pre.limit || s.pre.queue == [] {
    } else if s.pre.queue[0].epoch != s.pre.epoch || !visible {
      DrainOnlyPrefetches(RejectHead(s), visible);
    } else {
      var w := Waiter(Fetched(s.core, s.pre.queue[0].key), PrefetchTask(s.pre.queue[0]));
      CallWaitersAppend(s.waiters, [w]);
      assert CallWaiters([w]) == [];
      DrainOnlyPrefetches(StartHead(s), visible);
    }
  }

  function EmitAll(ready: seq<Waiter>, result: Outcome): seq<Output> {
    if ready == [] then [] else Emit(ready[0], result) + EmitAll(ready[1..], result)
  }

  lemma {:induction false} ResumeOutputs(s: Client, ready: seq<Waiter>, result: Outcome, visible: bool)
    ensures var t := Resume(s, ready, result, visible);
      && t.outputs == s.outputs + EmitAll(ready, result)
      && t.calls == s.calls
      && CallWaiters(t.waiters) == CallWaiters(s.waiters)
      && t.core.cache == s.core.cache
    decreases |ready|
  {
    if ready != [] {
      var t := ResumeOne(s, ready[0], result, visible);
      if ready[0].cont.PrefetchTask? {
        DrainOnlyPrefetches(FinishTask(s, ready[0].cont.task, result.Delivered?), visible);
      }
      assert t.outputs == s.outputs + Emit(ready[0], result);
      ResumeOutputs(t, ready[1..], result, visible);
    }
  }

  // ----- Lifecycle grammar -----

  /** The lifecycle phases call number `call` has shown, in order. */
  function Phases(outputs: seq<Output>, call: nat): seq<Phase> {
    if outputs == [] then []
    else
      var last := outputs[|outputs| - 1];
      Phases(outputs[..|outputs| - 1], call) + (if last.Lifecycle? && last.call == call then [last.phase] else [])
  }

  /** How many cold continuations of `call` are waiting. */
  function Colds(waiters: seq<Waiter>, call: nat): nat {
    if waiters == [] then 0
    else (if waiters[0].cont.ColdCall? && waiters[0].cont.call == call then 1 else 0) + Colds(waiters[1..], call)
  }

  predicate Terminal(phase: Phase) { phase.Success? || phase.Error? || phase.Aborted? }

  /** One cache hit; or a cold start still waiting; or a cold start and one outcome. */
  ghost predicate CallOk(s: Client, call: nat) {
    var ph, waiting := Phases(s.outputs, call), Colds(s.waiters, call);
    if call >= s.calls then ph == [] && waiting == 0
    else
      || (|ph| == 1 && ph[0].CacheHit? && waiting == 0)
      || (ph == [ColdStart] && waiting == 1)
      || (|ph| == 2 && ph[0] == ColdStart && Terminal(ph[1]) && waiting == 0)
  }

  ghost predicate CallInv(s: Client) { forall call: nat :: CallOk(s, call) }

  lemma {:induction false} ColdsAppend(a: seq<Waiter>, b: seq<Waiter>, call: nat)
    ensures Colds(a + b, call) == Colds(a, call) + Colds(b, call)
  {
    if a == [] {
      assert [] + b == b;
    } else {
      ColdsAppend(a[1..], b, call);
      assert (a + b)[1..] == a[1..] + b;
    }
  }

  lemma {:induction false} ColdsOfCalls(waiters: seq<Waiter>, call: nat)
    ensures Colds(CallWaiters(waiters), call) == Colds(waiters, call)
  {
    if waiters != [] {
      ColdsOfCalls(waiters[1..], call);
      var rest := CallWaiters(waiters[1..]);
      assert [] + rest == rest && ([waiters[0]] + rest)[1..] == rest;
    }
  }

  lemma {:induction false} SplitColds(waiters: seq<Waiter>, r: nat, call: nat)
    ensures Colds(waiters, call) == Colds(ForOthers(waiters, r), call) + Colds(ForRequest(waiters, r), call)
  {
    if waiters != [] {
      SplitColds(waiters[1..], r, call);
      var mine, others := ForRequest(waiters[1..], r), ForOthers(waiters[1..], r);
      assert [] + mine == mine && [] + others == others;
      assert ([waiters[0]] + mine)[1..] == mine && ([waiters[0]] + others)[1..] == others;
    }
  }

  /** The event a cold call shows when its load settles. */
  function OutcomePhase(result: Outcome): Phase {
    if result.Delivered? then Success else if result.isAbort then Aborted else Error
  }

  /** `after` is `before` and `n` times `last`. */
  ghost predicate Ended(before: seq<Phase>, after: seq<Phase>, n: nat, last: Phase) {
    && |after| == |before| + n
    && before <= after
    && forall i :: |before| <= i < |after| ==> after[i] == last
  }

  lemma EmitPhases(outputs: seq<Output>, w: Waiter, result: Outcome, call: nat)
    ensures Ended(Phases(outputs, call), Phases(outputs + Emit(w, result), call),
                  if w.cont.ColdCall? && w.cont.call == call then 1 else 0, OutcomePhase(result))
  {
    var out := Emit(w, result);
    if |out| == 0 {
      assert outputs + out == outputs;
    } else if |out| == 1 {
      assert outputs + out == outputs + [out[0]];
    } else {
      assert outputs + out == outputs + [out[0]] + [out[1]];
    }
  }

  /** Each cold continuation that runs adds exactly one outcome to its own call. */
  lemma {:induction false} EmitAllPhases(outputs: seq<Output>, ready: seq<Waiter>, result: Outcome, call: nat)
    ensures Ended(Phases(outputs, call), Phases(outputs + EmitAll(ready, result), call),
                  Colds(ready, call), OutcomePhase(result))
    decreases |ready|
  {
    if ready == [] {
      assert outputs + EmitAll(ready, result) == outputs;
    } else {
      var mid := outputs + Emit(ready[0], result);
      EmitPhases(outputs, ready[0], result, call);
      EmitAllPhases(mid, ready[1..], result, call);
      Reassociate(outputs, Emit(ready[0], result), EmitAll(ready[1..], result));
    }
  }

  /** A delivery adds one outcome per cold continuation that awaited it. */
  lemma DeliverAdds(s: Client, r: nat, outcome: Outcome, now: int, visible: bool, call: nat)
    requires Open(s.core, r)
    ensures var t := Deliver(s, r, outcome, now, visible);
      && Ended(Phases(s.outputs, call), Phases(t.outputs, call),
               Colds(ForRequest(s.waiters, r), call), OutcomePhase(Verdict(s.core, r, outcome)))
      && Colds(s.waiters, call) == Colds(t.waiters, call) + Colds(ForRequest(s.waiters, r), call)
      && t.calls == s.calls
  {
    var t := s.(core := Settle(s.core, r, outcome, now), waiters := ForOthers(s.waiters, r));
    var ready, result := ForRequest(s.waiters, r), Verdict(s.core, r, outcome);
    var u := Resume(t, ready, result, visible);
    ResumeOutputs(t, ready, result, visible);
    SplitColds(s.waiters, r, call);
    ColdsOfCalls(t.waiters, call);
    ColdsOfCalls(u.waiters, call);
    EmitAllPhases(s.outputs, ready, result, call);
  }

  lemma DeliverKeepsCall(s: Client, r: nat, outcome: Outcome, now: int, visible: bool, call: nat)
    requires CallOk(s, call) && Open(s.core, r)
    ensures CallOk(Deliver(s, r, outcome, now, visible), call)
  {
    DeliverAdds(s, r, outcome, now, visible, call);
  }

  lemma ColdsOne(waiters: seq<Waiter>, w: Waiter, call: nat)
    ensures Colds(waiters + [w], call)
         == Colds(waiters, call) + (if w.cont.ColdCall? && w.cont.call == call then 1 else 0)
  {
    ColdsAppend(waiters, [w], call);
    assert Colds([w][1..], call) == 0;
  }

  /** What one new stale-while-revalidate call adds. */
  lemma SwrAdds(s: Client, key: QueryKey, call: nat)
    ensures var t, cold := Swr(s, key), key !in s.core.cache;
      && Phases(t.outputs, call) == Phases(s.outputs, call)
        + (if call == s.calls then [if cold then ColdStart else CacheHit(key in s.pre.marked)] else [])
      && Colds(t.waiters, call) == Colds(s.waiters, call) + (if call == s.calls && cold then 1 else 0)
  {
    var t := Swr(s, key);
    ColdsOne(s.waiters, t.waiters[|s.waiters|], call);
    var first := t.outputs[|s.outputs|];
    if key in s.core.cache {
      var second := t.outputs[|s.outputs| + 1];
      assert t.outputs == s.outputs + [first] + [second];
    } else {
      assert t.outputs == s.outputs + [first];
    }
  }

  lemma SwrKeepsCall(s: Client, key: QueryKey, call: nat)
    requires CallOk(s, call)
    ensures CallOk(Swr(s, key), call)
  {
    SwrAdds(s, key, call);
  }

  lemma DoKeepsCall(s: Client, a: Call, call: nat)
    requires CallOk(s, call)
    ensures CallOk(Do(s, a), call)
  {
    match a {
      case DoSwr(key) => SwrKeepsCall(s, key, call);
      case DoPrefetch(key, now, visible) =>
        DrainOnlyPrefetches(Enqueue(s, key), visible);
        ColdsOfCalls(s.waiters, call);
        ColdsOfCalls(Do(s, a).waiters, call);
      case DoDeliver(r, outcome, now, visible) =>
        if Open(s.core, r) { DeliverKeepsCall(s, r, outcome, now, visible, call); }
      case _ =>
    }
  }

  // ----- Prefetch hits -----

  /** How many cache hits were reported as coming from a prefetch. */
  function PrefetchHits(outputs: seq<Output>): nat {
    if outputs == [] then 0
    else
      var last := outputs[|outputs| - 1];
      PrefetchHits(outputs[..|outputs| - 1]) + (if last.Lifecycle? && last.phase == CacheHit(true) then 1 else 0)
  }

  ghost predicate Earned(settled: seq<Settlement>, key: QueryKey) {
    exists i: nat :: i < |settled| && settled[i].ok && settled[i].task.key == key
  }

  /** Marked keys are cached, each was earned by a completed prefetch of the epoch it ran in, and
      reported hits plus marks never exceed completed prefetches. */
  ghost predicate MarkInv(s: Client) {
    && s.pre.marked <= s.core.cache.Keys
    && (forall k :: k in s.pre.marked ==> Earned(s.pre.settled, k))
    && PrefetchHits(s.outputs) + |s.pre.marked| <= Oks(s.pre.settled)
  }

  lemma EarnedCarries(a: seq<Settlement>, b: seq<Settlement>, key: QueryKey)
    requires Earned(a, key) && a <= b
    ensures Earned(b, key)
  {
    var i: nat :| i < |a| && a[i].ok && a[i].task.key == key;
    assert b[i] == a[i];
  }

  lemma EmitNoHits(outputs: seq<Output>, w: Waiter, result: Outcome)
    ensures PrefetchHits(outputs + Emit(w, result)) == PrefetchHits(outputs)
  {
    var out := Emit(w, result);
    if |out| == 0 {
      assert outputs + out == outputs;
    } else if |out| == 1 {
      assert outputs + out == outputs + [out[0]];
    } else {
      assert outputs + out == outputs + [out[0]] + [out[1]];
    }
  }

  lemma FinishKeepsMarks(s: Client, task: Task, delivered: bool)
    requires MarkInv(s) && (delivered ==> task.key in s.core.cache)
    ensures MarkInv(FinishTask(s, task, delivered))
  {
    var t := FinishTask(s, task, delivered);
    var x := t.pre.settled[|s.pre.settled|];
    forall k | k in t.pre.marked ensures Earned(t.pre.settled, k) {
      if k in s.pre.marked { EarnedCarries(s.pre.settled, t.pre.settled, k); }
      else { assert t.pre.settled[|s.pre.settled|].task.key == k; }
    }
  }

  lemma {:induction false} ResumeKeepsMarks(s: Client, ready: seq<Waiter>, result: Outcome, visible: bool)
    requires MarkInv(s)
    requires result.Delivered? ==> forall i :: 0 <= i < |ready| ==> ready[i].cont.Key() in s.core.cache
    ensures MarkInv(Resume(s, ready, result, visible))
    decreases |ready|
  {
    if ready != [] {
      var w, t := ready[0], ResumeOne(s, ready[0], result, visible);
      if w.cont.PrefetchTask? {
        var f := FinishTask(s, w.cont.task, result.Delivered?);
        FinishKeepsMarks(s, w.cont.task, result.Delivered?);
        DrainOnlyPrefetches(f, visible);
      } else {
        EmitNoHits(s.outputs, w, result);
      }
      ResumeKeepsMarks(t, ready[1..], result, visible);
    }
  }

  lemma DeliverKeepsMarks(s: Client, r: nat, outcome: Outcome, now: int, visible: bool)
    requires WaitInv(s) && MarkInv(s) && Open(s.core, r)
    ensures MarkInv(Deliver(s, r, outcome, now, visible))
  {
    var t := s.(core := Settle(s.core, r, outcome, now), waiters := ForOthers(s.waiters, r));
    var ready, result := ForRequest(s.waiters, r), Verdict(s.core, r, outcome);
    SplitMembers(s.waiters, r);
    forall i | 0 <= i < |ready| ensures ready[i].cont.Key() == s.core.requests[r].key {
      assert ready[i] in s.waiters;
    }
    ResumeKeepsMarks(t, ready, result, visible);
  }

  lemma SwrKeepsMarks(s: Client, key: QueryKey)
    requires MarkInv(s)
    ensures MarkInv(Swr(s, key))
  {
    var t := Swr(s, key);
    var first := t.outputs[|s.outputs|];
    if key in s.core.cache {
      assert t.outputs == s.outputs + [first] + [t.outputs[|s.outputs| + 1]];
      if key in s.pre.marked {
        assert s.pre.marked == t.pre.marked + {key};
      } else {
        assert t.pre.marked == s.pre.marked;
      }
    } else {
      assert t.outputs == s.outputs + [first];
    }
  }

  lemma FewerMarks(s: Client, t: Client)
    requires MarkInv(s)
    requires t.pre.marked <= s.pre.marked && t.pre.marked <= t.core.cache.Keys
    requires t.outputs == s.outputs && s.pre.settled <= t.pre.settled && Oks(t.pre.settled) == Oks(s.pre.settled)
    ensures MarkInv(t)
  {
    forall k | k in t.pre.marked ensures Earned(t.pre.settled, k) {
      EarnedCarries(s.pre.settled, t.pre.settled, k);
    }
    SubsetSize(t.pre.marked, s.pre.marked);
  }

  lemma SubsetSize<T>(a: set<T>, b: set<T>)
    requires a <= b
    ensures |a| <= |b|
  {
    assert b == a + (b - a);
  }

  lemma DoKeepsMarks(s: Client, a: Call)
    requires WaitInv(s) && MarkInv(s)
    ensures MarkInv(Do(s, a))
  {
    match a {
      case DoSwr(key) => SwrKeepsMarks(s, key);
      case DoPrefetch(key, now, visible) =>
        DrainOnlyPrefetches(Enqueue(s, key), visible);
      case DoAbortAllExcept(key) =>
        OksMany(s.pre.settled, s.pre.queue);
        FewerMarks(s, AbortAllExcept(s, key));
      case DoDeliver(r, outcome, now, visible) =>
        if Open(s.core, r) { DeliverKeepsMarks(s, r, outcome, now, visible); }
      case _ => FewerMarks(s, Do(s, a));
    }
  }
}
