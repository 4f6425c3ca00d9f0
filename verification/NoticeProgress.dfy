/** What the notice list brings about: a context entered is asked for and shown, refreshed rows and
    failures reach the screen. */
module NoticeProgress {
  import opened Text
  import opened QueryContext
  import opened RequestCore
  import opened DataClient
  import opened ClientInvariants
  import opened ClientCalls
  import opened ClientTheorems
  import opened RenderGuard
  import opened NoticeView

  /** How many continuations of this kind are waiting. */
  function Waiting(waiters: seq<Waiter>, cont: Continuation): nat {
    if waiters == [] then 0
    else
      var last := if waiters[|waiters| - 1].cont == cont then 1 else 0;
      Waiting(waiters[..|waiters| - 1], cont) + last
  }

  lemma {:induction false} NoneWaiting(waiters: seq<Waiter>, cont: Continuation)
    requires forall x :: x in waiters ==> x.cont != cont
    ensures Waiting(waiters, cont) == 0
  {
    if waiters != [] {
      assert waiters[|waiters| - 1] in waiters;
      NoneWaiting(waiters[..|waiters| - 1], cont);
    }
  }

  // ----- Entering -----

  /** The client once the former context has been left and the others aborted. */
  function Idle(w: World, key: QueryKey): Client { AbortAllExcept(Leave(w).client, key) }

  lemma IdleIs(w: World, key: QueryKey)
    ensures Idle(w, key).calls == w.client.calls && Idle(w, key).outputs == w.client.outputs
    ensures Idle(w, key).core.cache == w.client.core.cache && Idle(w, key).waiters == w.client.waiters
  {
  }

  /** Entering a cached context, step by step. */
  lemma EnterCached(w: World, key: QueryKey)
    requires key in w.client.core.cache
    ensures var s, e, v := Idle(w, key), w.client.core.cache[key], Enter(w, key);
      && v.client == Swr(s, key)
      && v.effect == Some(Effect(w.client.calls, key))
      && v.guard.pending.None? && v.guard.pendingKey.None?
      && v.rows == Some(Rows(w.client.calls, key, e.payload, e.writer))
  {
    IdleIs(w, key);
    var s, next := Idle(w, key), Swr(Idle(w, key), key);
    var e := s.core.cache[key];
    var hit, shown := Lifecycle(s.calls, key, CacheHit(key in s.pre.marked)), Resolved(s.calls, e.payload, e.writer);
    assert next.outputs[|s.outputs|..] == [hit, shown];
    var moved := Leave(w).(client := next, effect := Some(Effect(s.calls, key)));
    ObservePair(moved, hit, shown);
    assert Enter(w, key) == ObserveAll(moved, [hit, shown]);
  }

  /** Entering a context that is not cached. */
  lemma EnterCold(w: World, key: QueryKey)
    requires key !in w.client.core.cache
    ensures var s, v := Idle(w, key), Enter(w, key);
      && v.client == Swr(s, key)
      && v.effect == Some(Effect(w.client.calls, key))
      && v.guard.pending == Some(Pending(key, false)) && v.guard.pendingKey == Some(key)
  {
    IdleIs(w, key);
    var s, next := Idle(w, key), Swr(Idle(w, key), key);
    var cold := Lifecycle(s.calls, key, ColdStart);
    assert next.outputs[|s.outputs|..] == [cold];
    var moved := Leave(w).(client := next, effect := Some(Effect(s.calls, key)));
    ObserveOne(moved, cold);
    assert Enter(w, key) == ObserveAll(moved, [cold]);
  }

  /** The continuation the entered context leaves behind. */
  lemma EnteredWaits(w: World, key: QueryKey)
    requires WorldInv(w)
    ensures var s, call := Idle(w, key), w.client.calls;
      var cont := if key in w.client.core.cache then RefreshCall(call, key) else ColdCall(call, key);
      var v, x := Swr(s, key), Waiter(Fetched(s.core, key), cont);
      && v.waiters == w.client.waiters + [x]
      && Waiting(v.waiters, cont) == 1
      && Open(v.core, x.request) && v.core.requests[x.request].key == key
      && (forall y :: y in w.client.waiters && !y.cont.PrefetchTask? ==> y.cont.call != call)
  {
    IdleIs(w, key);
    var s, call := Idle(w, key), w.client.calls;
    var cont := if key in w.client.core.cache then RefreshCall(call, key) else ColdCall(call, key);
    assert FlightInv(s.core) by {
      LeaveKeepsWorld(w);
      SwitchKeepsWorld(Leave(w), key);
    }
    FetchKeepsFlight(s.core, key);
    forall y | y in w.client.waiters && !y.cont.PrefetchTask? ensures y.cont.call != call {
      assert ContinuationOk(w, y);
    }
    NoneWaiting(w.client.waiters, cont);
    var x := Waiter(Fetched(s.core, key), cont);
    assert (w.client.waiters + [x])[..|w.client.waiters|] == w.client.waiters;
  }

  lemma OnlyEnteredInFlight(w: World, key: QueryKey)
    requires WorldInv(w)
    ensures Swr(Idle(w, key), key).core.inflight.Keys == {key} && Swr(Idle(w, key), key).pre.queue == []
  {
    LeaveKeepsWorld(w);
    SwitchKeepsWorld(Leave(w), key);
    assert Leave(w).client.core.inflight == Leave(w).client.core.controllers;
  }

  /** Entering a context, after any history. If it is cached, what is cached is shown at once with
      the guard down, and exactly one refresh of the new call is waiting; if not, the guard is up for
      it, loading, and exactly one cold continuation is waiting. Either awaits an open request for
      the context, which is the only one in flight, and no prefetch is left in the queue. */
  lemma EnteringAsksAndShows(ttl: int, concurrency: int, hs: seq<Happening>, key: QueryKey)
    ensures var w := HappenAll(Start(ttl, concurrency), hs);
      var v, call, cached := Happen(w, Entering(key)), w.client.calls, key in w.client.core.cache;
      var cont := if cached then RefreshCall(call, key) else ColdCall(call, key);
      && v.effect == Some(Effect(call, key))
      && Waiting(v.client.waiters, cont) == 1
      && (exists x :: x in v.client.waiters && x.cont == cont && Open(v.client.core, x.request)
            && v.client.core.requests[x.request].key == key)
      && v.client.core.inflight.Keys == {key} && v.client.pre.queue == []
    ensures var w := HappenAll(Start(ttl, concurrency), hs);
      var v := Happen(w, Entering(key));
      if key in w.client.core.cache then
        var e := w.client.core.cache[key];
        v.guard.pending.None? && v.rows == Some(Rows(w.client.calls, key, e.payload, e.writer))
      else v.guard.pending == Some(Pending(key, false))
  {
    var w := HappenAll(Start(ttl, concurrency), hs);
    ReachableWorld(ttl, concurrency, hs);
    EnteredWaits(w, key);
    OnlyEnteredInFlight(w, key);
    var v := Enter(w, key);
    if key in w.client.core.cache { EnterCached(w, key); } else { EnterCold(w, key); }
    assert v.client.waiters[|w.client.waiters|] in v.client.waiters;
  }

  // ----- Refreshing -----

  /** While a refresh of the running instance is waiting, no cold start of it is, and the guard
      waits for nothing. */
  ghost predicate RefreshInv(w: World) {
    w.effect.Some? ==> forall x :: x in w.client.waiters ==> RefreshOk(w, x)
  }

  ghost predicate RefreshOk(w: World, x: Waiter)
    requires w.effect.Some?
  {
    x.cont.RefreshCall? && x.cont.call == w.effect.value.call ==>
      w.guard.pendingKey.None? && Colds(w.client.waiters, w.effect.value.call) == 0
  }

  lemma EnterKeepsRefresh(w: World, key: QueryKey)
    requires WorldInv(w)
    ensures RefreshInv(Enter(w, key))
  {
    var v, call := Enter(w, key), w.client.calls;
    EnteredWaits(w, key);
    if key in w.client.core.cache {
      EnterCached(w, key);
      ColdsOne(w.client.waiters, v.client.waiters[|w.client.waiters|], call);
      assert CallOk(w.client, call);
    } else {
      EnterCold(w, key);
    }
    forall x | x in v.client.waiters ensures RefreshOk(v, x) { }
  }

  lemma DeliverKeepsRefresh(w: World, r: nat, outcome: Outcome, now: int, visible: bool)
    requires WorldInv(w) && RefreshInv(w) && Open(w.client.core, r)
    ensures RefreshInv(Advance(w, Deliver(w.client, r, outcome, now, visible)))
  {
    var s, next := w.client, Deliver(w.client, r, outcome, now, visible);
    var moved, ready := w.(client := next), ForRequest(s.waiters, r);
    DeliverMoves(w, r, outcome, now, visible);
    DeliverShows(w, r, outcome, now, visible, moved);
    DeliveredClient(s, r, outcome, now, visible);
    assert next.outputs[|s.outputs|..] == EmitAll(ready, Verdict(s.core, r, outcome));
    var v := Advance(w, next);
    if v.effect.Some? {
      forall x | x in v.client.waiters ensures RefreshOk(v, x) {
        if x.cont.RefreshCall? && x.cont.call == v.effect.value.call { assert RefreshOk(w, x); }
      }
    }
  }

  lemma QuietKeepsRefresh(w: World, a: Call)
    requires WorldInv(w) && RefreshInv(w) && InBackground(a) && (a.DoDeliver? ==> !Open(w.client.core, a.request))
    ensures RefreshInv(Advance(w, Do(w.client, a)))
  {
    var s, next := w.client, Do(w.client, a);
    if a.DoPrefetch? { DrainOnlyPrefetches(Enqueue(s, a.key), a.visible); }
    assert next.outputs[|s.outputs|..] == [];
    CallWaitersMembers(s.waiters);
    CallWaitersMembers(next.waiters);
    if w.effect.Some? {
      ColdsOfCalls(s.waiters, w.effect.value.call);
      ColdsOfCalls(next.waiters, w.effect.value.call);
      forall x | x in next.waiters ensures RefreshOk(Advance(w, next), x) {
        if x.cont.RefreshCall? { assert x in CallWaiters(next.waiters); assert RefreshOk(w, x); }
      }
    }
  }

  lemma HappenKeepsRefresh(w: World, h: Happening)
    requires WorldInv(w) && RefreshInv(w)
    ensures RefreshInv(Happen(w, h))
  {
    match h {
      case Entering(key) => EnterKeepsRefresh(w, key);
      case Leaving =>
      case Background(a) =>
        if InBackground(a) {
          if a.DoDeliver? && Open(w.client.core, a.request) {
            DeliverKeepsRefresh(w, a.request, a.outcome, a.now, a.visible);
          } else {
            QuietKeepsRefresh(w, a);
          }
        }
      case FrameFires(id) =>
        var v := Happen(w, h);
        if w.effect.Some? {
          forall x | x in v.client.waiters ensures RefreshOk(v, x) { assert RefreshOk(w, x); }
        }
    }
  }

  lemma {:induction false} HappenAllKeepsRefresh(w: World, hs: seq<Happening>)
    requires WorldInv(w) && RefreshInv(w)
    ensures RefreshInv(HappenAll(w, hs))
    decreases |hs|
  {
    if hs != [] {
      HappenKeepsWorld(w, hs[0]);
      HappenKeepsRefresh(w, hs[0]);
      HappenAllKeepsRefresh(Happen(w, hs[0]), hs[1..]);
    }
  }

  lemma {:induction false} ObserveRefreshed(w: World, ready: seq<Waiter>, r: nat, payload: Payload)
    requires w.effect.Some? && AllFor(ready, r, w.effect.value) && Colds(ready, w.effect.value.call) == 0
    requires forall x :: x in ready && !x.cont.PrefetchTask? ==> x.cont.call == w.effect.value.call
    ensures var v, rows := ObserveAll(w, EmitAll(ready, Delivered(payload))),
          Some(Rows(w.effect.value.call, w.effect.value.key, payload, r));
      && v.guard == w.guard && v.effect == w.effect
      && (w.rows == rows || (exists x :: x in ready && x.cont.RefreshCall?) ==> v.rows == rows)
    decreases |ready|
  {
    if ready != [] {
      var out := Emit(ready[0], Delivered(payload));
      ObserveAppend(w, out, EmitAll(ready[1..], Delivered(payload)));
      var v := ObserveAll(w, out);
      if ready[0].cont.RefreshCall? {
        ObserveOne(w, out[0]);
      } else {
        assert ready[0].cont.PrefetchTask?;
        assert v == w;
      }
      ObserveRefreshed(v, ready[1..], r, payload);
    }
  }

  lemma DeliverRefreshes(w: World, x: Waiter, payload: Payload, now: int, visible: bool)
    requires WorldInv(w) && RefreshInv(w) && w.effect.Some?
    requires x in w.client.waiters && x.cont.RefreshCall? && x.cont.call == w.effect.value.call
    requires Open(w.client.core, x.request) && Accepted(w.client.core, x.request, Delivered(payload))
    ensures var v := Advance(w, Deliver(w.client, x.request, Delivered(payload), now, visible));
      && v.rows == Some(Rows(w.effect.value.call, w.effect.value.key, payload, x.request))
      && v.guard == w.guard && v.guard.pending.None?
  {
    var s, r := w.client, x.request;
    var ready, next := ForRequest(s.waiters, r), Deliver(s, r, Delivered(payload), now, visible);
    var moved := w.(client := next);
    assert x in ready by { SplitMembers(s.waiters, r); }
    AcceptedIsActive(w, r, Delivered(payload));
    assert RefreshOk(w, x);
    SplitColds(s.waiters, r, w.effect.value.call);
    forall y | y in ready && !y.cont.PrefetchTask? ensures y.cont.call == w.effect.value.call {
      var i :| 0 <= i < |ready| && ready[i] == y;
    }
    ObserveRefreshed(moved, ready, r, payload);
    DeliveredClient(s, r, Delivered(payload), now, visible);
    assert next.outputs[|s.outputs|..] == EmitAll(ready, Delivered(payload));
  }

  /** Revalidated rows reach the screen: after any history, when a current response reaches a refresh
      of the running effect, its payload replaces the rows, and the guard is and stays down. */
  lemma RefreshedRowsAreShown(
    ttl: int, concurrency: int, hs: seq<Happening>, x: Waiter, payload: Payload, now: int, visible: bool)
    requires var w := HappenAll(Start(ttl, concurrency), hs);
      && w.effect.Some? && x in w.client.waiters && x.cont.RefreshCall? && x.cont.call == w.effect.value.call
      && Open(w.client.core, x.request) && Accepted(w.client.core, x.request, Delivered(payload))
    ensures var w := HappenAll(Start(ttl, concurrency), hs);
      var v := Happen(w, Background(DoDeliver(x.request, Delivered(payload), now, visible)));
      && v.rows == Some(Rows(w.effect.value.call, w.effect.value.key, payload, x.request))
      && v.guard == w.guard && v.guard.pending.None?
  {
    var w := HappenAll(Start(ttl, concurrency), hs);
    ReachableWorld(ttl, concurrency, hs);
    ReachableWorld(ttl, concurrency, []);
    HappenAllKeepsRefresh(Start(ttl, concurrency), hs);
    HappenRefreshes(w, x, payload, now, visible);
  }

  lemma HappenRefreshes(w: World, x: Waiter, payload: Payload, now: int, visible: bool)
    requires WorldInv(w) && RefreshInv(w) && w.effect.Some?
    requires x in w.client.waiters && x.cont.RefreshCall? && x.cont.call == w.effect.value.call
    requires Open(w.client.core, x.request) && Accepted(w.client.core, x.request, Delivered(payload))
    ensures var v := Happen(w, Background(DoDeliver(x.request, Delivered(payload), now, visible)));
      && v.rows == Some(Rows(w.effect.value.call, w.effect.value.key, payload, x.request))
      && v.guard == w.guard && v.guard.pending.None?
  {
    DeliverRefreshes(w, x, payload, now, visible);
    assert Happen(w, Background(DoDeliver(x.request, Delivered(payload), now, visible)))
        == Advance(w, Deliver(w.client, x.request, Delivered(payload), now, visible));
  }

  // ----- Failing -----

  lemma {:induction false} ObserveErrors(w: World, ready: seq<Waiter>, key: QueryKey)
    requires w.guard.pendingKey == Some(key)
    requires forall x :: x in ready && x.cont.ColdCall? ==> x.cont.callKey == key
    ensures var v := ObserveAll(w, EmitAll(ready, Failed(false)));
      && v.rows == w.rows && v.guard.pendingKey == Some(key)
      && (w.guard.pending == Some(Pending(key, true)) || (exists x :: x in ready && x.cont.ColdCall?)
          ==> v.guard.pending == Some(Pending(key, true)))
    decreases |ready|
  {
    if ready != [] {
      var out := Emit(ready[0], Failed(false));
      ObserveAppend(w, out, EmitAll(ready[1..], Failed(false)));
      var v := ObserveAll(w, out);
      if ready[0].cont.ColdCall? { ObserveOne(w, out[0]); } else { assert v == w; }
      ObserveErrors(v, ready[1..], key);
    }
  }

  lemma DeliverFails(w: World, x: Waiter, now: int, visible: bool)
    requires WorldInv(w) && w.effect.Some?
    requires x in w.client.waiters && x.cont.ColdCall? && x.cont.call == w.effect.value.call
    requires Open(w.client.core, x.request)
    ensures var v := Advance(w, Deliver(w.client, x.request, Failed(false), now, visible));
      v.guard.pending == Some(Pending(w.effect.value.key, true)) && v.rows == w.rows
  {
    var s, r, key := w.client, x.request, w.effect.value.key;
    var ready, next := ForRequest(s.waiters, r), Deliver(s, r, Failed(false), now, visible);
    var moved := w.(client := next);
    SplitMembers(s.waiters, r);
    assert x in ready;
    assert ContinuationOk(w, x) && x.cont.callKey == key;
    ReadyKeys(s, x);
    ColdIsCounted(s.waiters, x);
    SplitColds(s.waiters, r, x.cont.call);
    ObserveErrors(moved, ready, key);
    DeliveredClient(s, r, Failed(false), now, visible);
    assert next.outputs[|s.outputs|..] == EmitAll(ready, Failed(false));
  }

  /** All continuations awaiting one request are for one key. */
  lemma ReadyKeys(s: Client, x: Waiter)
    requires WaitInv(s) && x in s.waiters
    ensures forall y :: y in ForRequest(s.waiters, x.request) ==> y.cont.Key() == x.cont.Key()
  {
    SplitMembers(s.waiters, x.request);
    var j :| 0 <= j < |s.waiters| && s.waiters[j] == x;
    assert Waits(s.core, s.waiters[j]);
    forall y | y in ForRequest(s.waiters, x.request) ensures y.cont.Key() == x.cont.Key() {
      var i :| 0 <= i < |s.waiters| && s.waiters[i] == y;
      assert Waits(s.core, s.waiters[i]);
    }
  }

  /** A failure is said, not hidden: when the request a cold start of the running effect awaits
      fails, the guard stays up for its context with the error, over the rows as they were. */
  lemma FailureIsShown(ttl: int, concurrency: int, hs: seq<Happening>, x: Waiter, now: int, visible: bool)
    requires var w := HappenAll(Start(ttl, concurrency), hs);
      && w.effect.Some? && x in w.client.waiters && x.cont.ColdCall? && x.cont.call == w.effect.value.call
      && Open(w.client.core, x.request)
    ensures var w := HappenAll(Start(ttl, concurrency), hs);
      var v := Happen(w, Background(DoDeliver(x.request, Failed(false), now, visible)));
      v.guard.pending == Some(Pending(w.effect.value.key, true)) && v.rows == w.rows
  {
    ReachableWorld(ttl, concurrency, hs);
    HappenFails(HappenAll(Start(ttl, concurrency), hs), x, now, visible);
  }

  lemma HappenFails(w: World, x: Waiter, now: int, visible: bool)
    requires WorldInv(w) && w.effect.Some?
    requires x in w.client.waiters && x.cont.ColdCall? && x.cont.call == w.effect.value.call
    requires Open(w.client.core, x.request)
    ensures var v := Happen(w, Background(DoDeliver(x.request, Failed(false), now, visible)));
      v.guard.pending == Some(Pending(w.effect.value.key, true)) && v.rows == w.rows
  {
    DeliverFails(w, x, now, visible);
    assert Happen(w, Background(DoDeliver(x.request, Failed(false), now, visible)))
        == Advance(w, Deliver(w.client, x.request, Failed(false), now, visible));
  }
}
