/** The notice list as a whole: the data client, the render guard listening to its lifecycle
    events, and the workspace effect that asks for a context and shows the rows it is given. */
module NoticeView {
  import opened Text
  import opened QueryContext
  import opened RequestCore
  import opened DataClient
  import opened ClientInvariants
  import opened ClientCalls
  import opened ClientTheorems
  import opened RenderGuard

  /** The running effect instance: the call it made and the context it made it for. */
  datatype Effect = Effect(call: nat, key: QueryKey)

  /** The rows on screen, the call that set them and the request that answered with them. */
  datatype Rows = Rows(call: nat, key: QueryKey, payload: Payload, writer: nat)

  datatype World = World(client: Client, guard: Guard, effect: Option<Effect>, rows: Option<Rows>)

  predicate IsActive(w: World, call: nat) { w.effect.Some? && w.effect.value.call == call }

  function Show(w: World, call: nat, payload: Payload, writer: nat): World {
    if IsActive(w, call) then w.(rows := Some(Rows(call, w.effect.value.key, payload, writer))) else w
  }

  function Observe(w: World, o: Output): World {
    match o
    case Lifecycle(call, key, phase) => w.(guard := OnLifecycle(w.guard, key, phase))
    case Resolved(call, payload, writer) => Show(w, call, payload, writer)
    case Refreshed(call, payload, writer) => Show(w, call, payload, writer)
  }

  function ObserveAll(w: World, outputs: seq<Output>): World
    decreases |outputs|
  {
    if outputs == [] then w else ObserveAll(Observe(w, outputs[0]), outputs[1..])
  }

  /** The client moves from `w.client` to `next`; its new outputs reach guard and workspace. */
  function Advance(w: World, next: Client): World {
    if |w.client.outputs| <= |next.outputs|
    then ObserveAll(w.(client := next), next.outputs[|w.client.outputs|..])
    else w.(client := next)
  }

  /** Cleanup of the running effect instance. */
  function Leave(w: World): World {
    match w.effect
    case None => w
    case Some(e) => w.(client := AbortKey(w.client, e.key), effect := None)
  }

  /** Cleanup, then a new effect instance for `key`. */
  function Enter(w: World, key: QueryKey): World {
    var left := Leave(w);
    var switched := left.(client := AbortAllExcept(left.client, key));
    Advance(switched.(effect := Some(Effect(switched.client.calls, key))), Swr(switched.client, key))
  }

  /** Everything else that happens around the effect. */
  predicate InBackground(a: Call) {
    a.DoPrefetch? || a.DoInvalidateKeys? || a.DoInvalidateAll? || a.DoDeliver?
  }

  datatype Happening =
    | Entering(key: QueryKey)
    | Leaving
    | Background(call: Call)
    | FrameFires(id: nat)

  function Happen(w: World, h: Happening): World {
    match h
    case Entering(key) => Enter(w, key)
    case Leaving => Leave(w)
    case Background(a) => if InBackground(a) then Advance(w, Do(w.client, a)) else w
    case FrameFires(id) => w.(guard := OnFrame(w.guard, id))
  }

  function HappenAll(w: World, hs: seq<Happening>): World
    decreases |hs|
  {
    if hs == [] then w else HappenAll(Happen(w, hs[0]), hs[1..])
  }

  function Start(ttl: int, concurrency: int): World {
    World(Fresh(ttl, concurrency), QUIET, None, None)
  }

  // ----- Invariants -----

  /** The response this continuation awaits would be discarded. */
  ghost predicate Outdated(c: Core, r: nat) {
    r < |c.requests| && c.requests[r].gen < Gen(c, c.requests[r].key)
  }

  /** Continuations of calls belong to known calls; those of a former effect instance await
      outdated requests, those of the running one its own key. */
  ghost predicate ContinuationOk(w: World, x: Waiter) {
    !x.cont.PrefetchTask? ==>
      && x.cont.call < w.client.calls
      && (if IsActive(w, x.cont.call) then x.cont.callKey == w.effect.value.key
          else Outdated(w.client.core, x.request))
  }

  ghost predicate ContinuationInv(w: World) {
    && (forall x :: x in w.client.waiters ==> ContinuationOk(w, x))
    && (w.effect.Some? ==> w.effect.value.call < w.client.calls)
  }

  /** Guard, frames and rows fit the running effect instance. */
  ghost predicate ScreenInv(w: World) {
    var g := w.guard;
    && (g.pendingKey.None? <==> g.pending.None?)
    && (g.pending.Some? ==> g.pendingKey == Some(g.pending.value.key))
    && g.frames.Keys <= {g.revealFrame} && g.revealFrame < g.nextFrame
    && (w.rows.Some? ==> Genuine(w.client.core, w.rows.value))
    && (w.effect.Some? ==>
          && (g.pendingKey.Some? ==> g.pendingKey.value == w.effect.value.key)
          && (forall id :: id in g.frames ==> g.frames[id] == w.effect.value.key && g.pendingKey.Some?)
          && (g.pending.None? || g.frames != map[] ==> Shown(w)))
  }

  /** The rows are what a request for their key was answered with. */
  ghost predicate Genuine(c: Core, rows: Rows) {
    && rows.writer < |c.requests|
    && c.requests[rows.writer].key == rows.key
    && c.requests[rows.writer].reply == Answered(rows.payload)
  }

  /** The rows were set by the running effect instance, for its key. */
  ghost predicate Shown(w: World)
    requires w.effect.Some?
  {
    w.rows.Some? && w.rows.value.call == w.effect.value.call && w.rows.value.key == w.effect.value.key
  }

  /** While the running instance's cold call is pending, the guard is up for it with no frame due. */
  ghost predicate PendingInv(w: World) {
    (w.effect.Some? && Colds(w.client.waiters, w.effect.value.call) > 0)
    ==> w.guard.frames == map[] && w.guard.pendingKey == Some(w.effect.value.key)
  }

  ghost predicate WorldInv(w: World) {
    ClientInv(w.client) && ContinuationInv(w) && ScreenInv(w) && PendingInv(w)
  }

  // ----- Delivery -----

  ghost predicate AllFor(ready: seq<Waiter>, r: nat, e: Effect) {
    forall i :: 0 <= i < |ready| && !ready[i].cont.PrefetchTask? ==>
      ready[i].request == r && ready[i].cont.call == e.call && ready[i].cont.callKey == e.key
  }

  lemma {:induction false} ObserveAppend(w: World, a: seq<Output>, b: seq<Output>)
    ensures ObserveAll(w, a + b) == ObserveAll(ObserveAll(w, a), b)
    decreases |a|
  {
    if a == [] {
      assert a + b == b;
    } else {
      assert (a + b)[1..] == a[1..] + b;
      ObserveAppend(Observe(w, a[0]), a[1..], b);
    }
  }

  lemma ObserveOne(w: World, o: Output)
    ensures ObserveAll(w, [o]) == Observe(w, o)
  {
    assert [o][1..] == [];
  }

  lemma ObservePair(w: World, o: Output, p: Output)
    ensures ObserveAll(w, [o, p]) == Observe(Observe(w, o), p)
  {
    assert [o, p][1..] == [p];
    ObserveOne(Observe(w, o), p);
  }

  /** An accepted response reaches only the running instance: its rows are set, and if its cold
      call was waiting, one reveal frame is scheduled. */
  lemma {:induction false} ObserveAccepted(w: World, ready: seq<Waiter>, r: nat, payload: Payload)
    requires ScreenInv(w) && w.effect.Some? && AllFor(ready, r, w.effect.value)
    requires Genuine(w.client.core, Rows(w.effect.value.call, w.effect.value.key, payload, r))
    requires Colds(ready, w.effect.value.call) <= 1
    requires Colds(ready, w.effect.value.call) == 1
      ==> w.guard.frames == map[] && w.guard.pendingKey == Some(w.effect.value.key)
    ensures var v := ObserveAll(w, EmitAll(ready, Delivered(payload)));
      && ScreenInv(v) && v.client == w.client && v.effect == w.effect
      && (Colds(ready, w.effect.value.call) == 0 ==> v.guard == w.guard)
      && (Colds(ready, w.effect.value.call) == 1 ==>
            v.guard.revealFrame in v.guard.frames && v.guard.pendingKey == w.guard.pendingKey)
      && (var rows := Rows(w.effect.value.call, w.effect.value.key, payload, r);
          Colds(ready, w.effect.value.call) == 1 || w.rows == Some(rows) ==> v.rows == Some(rows))
    decreases |ready|
  {
    if ready != [] {
      var out := Emit(ready[0], Delivered(payload));
      ObserveAppend(w, out, EmitAll(ready[1..], Delivered(payload)));
      var v := ObserveAll(w, out);
      if ready[0].cont.ColdCall? {
        var u := Observe(w, out[0]);
        ObservePair(w, out[0], out[1]);
        assert u.guard.frames.Keys == {u.guard.revealFrame};
      } else if ready[0].cont.RefreshCall? {
        ObserveOne(w, out[0]);
      } else {
        assert v == w;
      }
      ObserveAccepted(v, ready[1..], r, payload);
    }
  }

  /** A failure shows nothing new: at most the guard turns to its error message. */
  lemma {:induction false} ObserveFailed(w: World, ready: seq<Waiter>, isAbort: bool)
    requires ScreenInv(w)
    ensures var v := ObserveAll(w, EmitAll(ready, Failed(isAbort)));
      && ScreenInv(v) && v.client == w.client && v.effect == w.effect
      && v.guard.frames == w.guard.frames && v.guard.pendingKey == w.guard.pendingKey
    decreases |ready|
  {
    if ready != [] {
      var out := Emit(ready[0], Failed(isAbort));
      ObserveAppend(w, out, EmitAll(ready[1..], Failed(isAbort)));
      var v := ObserveAll(w, out);
      if ready[0].cont.ColdCall? {
        ObserveOne(w, out[0]);
      } else {
        assert v == w;
      }
      ObserveFailed(v, ready[1..], isAbort);
    }
  }

  lemma {:induction false} CallWaitersMembers(waiters: seq<Waiter>)
    ensures forall x :: x in CallWaiters(waiters) <==> x in waiters && !x.cont.PrefetchTask?
  {
    if waiters != [] { CallWaitersMembers(waiters[1..]); }
  }

  lemma CoreGrows(s: Client, a: Call)
    requires ClientInv(s)
    ensures Extends(s.core, Do(s, a).core)
  {
    DoLeads(s, a);
    LeadsKeepsInv(s.core, Do(s, a).core);
  }

  lemma GenuineCarries(c: Core, d: Core, rows: Rows)
    requires Genuine(c, rows) && Extends(c, d)
    ensures Genuine(d, rows)
  {
    assert SameRequest(c.requests[rows.writer], d.requests[rows.writer]);
  }

  /** Moving the client on keeps the screen invariant as long as nothing is shown. */
  lemma ScreenCarries(w: World, next: Client)
    requires ScreenInv(w) && Extends(w.client.core, next.core)
    ensures ScreenInv(w.(client := next))
  {
    if w.rows.Some? { GenuineCarries(w.client.core, next.core, w.rows.value); }
  }

  /** Continuations stay in order when none is added for a call and generations only grow. */
  lemma ContinuationsCarry(w: World, next: Client)
    requires ContinuationInv(w) && ClientInv(w.client) && Extends(w.client.core, next.core)
    requires next.calls >= w.client.calls
    requires forall x :: x in next.waiters && !x.cont.PrefetchTask? ==> x in w.client.waiters
    ensures ContinuationInv(w.(client := next))
  {
    forall x | x in next.waiters ensures ContinuationOk(w.(client := next), x) {
      if !x.cont.PrefetchTask? {
        assert ContinuationOk(w, x);
        var i :| 0 <= i < |w.client.waiters| && w.client.waiters[i] == x;
        assert Waits(w.client.core, w.client.waiters[i]);
        assert SameRequest(w.client.core.requests[x.request], next.core.requests[x.request]);
      }
    }
  }

  lemma DeliveredClient(s: Client, r: nat, outcome: Outcome, now: int, visible: bool)
    requires Open(s.core, r)
    ensures var next := Deliver(s, r, outcome, now, visible);
      var ready := ForRequest(s.waiters, r);
      && next.outputs == s.outputs + EmitAll(ready, Verdict(s.core, r, outcome))
      && next.calls == s.calls
      && (forall x :: x in next.waiters && !x.cont.PrefetchTask? ==> x in s.waiters)
      && (forall call :: Colds(next.waiters, call) == Colds(s.waiters, call) - Colds(ready, call))
  {
    var t := s.(core := Settle(s.core, r, outcome, now), waiters := ForOthers(s.waiters, r));
    var ready := ForRequest(s.waiters, r);
    var next := Deliver(s, r, outcome, now, visible);
    ResumeOutputs(t, ready, Verdict(s.core, r, outcome), visible);
    CallWaitersMembers(next.waiters);
    CallWaitersMembers(t.waiters);
    SplitMembers(s.waiters, r);
    forall call ensures Colds(next.waiters, call) == Colds(s.waiters, call) - Colds(ready, call) {
      SplitColds(s.waiters, r, call);
      ColdsOfCalls(next.waiters, call);
      ColdsOfCalls(t.waiters, call);
    }
  }

  lemma AcceptedIsActive(w: World, r: nat, outcome: Outcome)
    requires ClientInv(w.client) && ContinuationInv(w) && Open(w.client.core, r)
    requires Accepted(w.client.core, r, outcome)
    requires exists x :: x in ForRequest(w.client.waiters, r) && !x.cont.PrefetchTask?
    ensures w.effect.Some? && AllFor(ForRequest(w.client.waiters, r), r, w.effect.value)
    ensures w.client.core.requests[r].key == w.effect.value.key
  {
    var ready := ForRequest(w.client.waiters, r);
    SplitMembers(w.client.waiters, r);
    var x :| x in ready && !x.cont.PrefetchTask?;
    assert ContinuationOk(w, x);
    forall i | 0 <= i < |ready| && !ready[i].cont.PrefetchTask?
      ensures ready[i].request == r && ready[i].cont.call == w.effect.value.call
        && ready[i].cont.callKey == w.effect.value.key
    {
      assert ready[i] in w.client.waiters && ContinuationOk(w, ready[i]);
    }
    var j :| 0 <= j < |w.client.waiters| && w.client.waiters[j] == x;
    assert Waits(w.client.core, w.client.waiters[j]);
  }

  lemma {:induction false} NoCallsNoOutputs(ready: seq<Waiter>, result: Outcome)
    requires forall x :: x in ready ==> x.cont.PrefetchTask?
    ensures EmitAll(ready, result) == []
    ensures forall call :: Colds(ready, call) == 0
  {
    if ready != [] { NoCallsNoOutputs(ready[1..], result); }
  }

  lemma {:induction false} ColdsAreMembers(waiters: seq<Waiter>, call: nat)
    requires Colds(waiters, call) > 0
    ensures exists x :: x in waiters && x.cont.ColdCall? && x.cont.call == call
  {
    if waiters[0].cont.ColdCall? && waiters[0].cont.call == call {
      assert waiters[0] in waiters;
    } else {
      ColdsAreMembers(waiters[1..], call);
      var x :| x in waiters[1..] && x.cont.ColdCall? && x.cont.call == call;
      assert x in waiters;
    }
  }

  /** How the outputs of one delivery change guard and rows. */
  lemma DeliverShows(w: World, r: nat, outcome: Outcome, now: int, visible: bool, moved: World)
    requires WorldInv(w) && Open(w.client.core, r)
    requires moved == w.(client := Deliver(w.client, r, outcome, now, visible)) && ScreenInv(moved)
    ensures var ready := ForRequest(w.client.waiters, r);
      var v := ObserveAll(moved, EmitAll(ready, Verdict(w.client.core, r, outcome)));
      && v.client == moved.client && v.effect == w.effect && ScreenInv(v)
      && (w.effect.Some? && (outcome.Failed? || Colds(ready, w.effect.value.call) == 0) ==>
            v.guard.frames == w.guard.frames && v.guard.pendingKey == w.guard.pendingKey)
  {
    var s := w.client;
    var ready, result := ForRequest(s.waiters, r), Verdict(s.core, r, outcome);
    if result.Failed? {
      ObserveFailed(moved, ready, result.isAbort);
    } else if forall x :: x in ready ==> x.cont.PrefetchTask? {
      NoCallsNoOutputs(ready, result);
    } else {
      AcceptedIsActive(w, r, outcome);
      var e := w.effect.value;
      assert CallOk(s, e.call);
      SplitColds(s.waiters, r, e.call);
      AnsweredNow(s, r, outcome, now, visible);
      ObserveAccepted(moved, ready, r, outcome.payload);
    }
  }

  lemma DeliverKeepsWorld(w: World, r: nat, outcome: Outcome, now: int, visible: bool)
    requires WorldInv(w) && Open(w.client.core, r)
    ensures WorldInv(Advance(w, Deliver(w.client, r, outcome, now, visible)))
  {
    var s, next := w.client, Deliver(w.client, r, outcome, now, visible);
    var moved := w.(client := next);
    var ready := ForRequest(s.waiters, r);
    DeliverMoves(w, r, outcome, now, visible);
    DeliverShows(w, r, outcome, now, visible, moved);
    var v := ObserveAll(moved, EmitAll(ready, Verdict(s.core, r, outcome)));
    assert Advance(w, next) == v by {
      DeliveredClient(s, r, outcome, now, visible);
      assert next.outputs[|s.outputs|..] == EmitAll(ready, Verdict(s.core, r, outcome));
    }
    assert ContinuationInv(v) by {
      forall x | x in v.client.waiters ensures ContinuationOk(v, x) { assert ContinuationOk(moved, x); }
    }
    assert PendingInv(v) by { DeliverKeepsPending(w, r, outcome, now, visible, v); }
  }

  /** What the client's move alone keeps, before its outputs are seen. */
  lemma DeliverMoves(w: World, r: nat, outcome: Outcome, now: int, visible: bool)
    requires WorldInv(w) && Open(w.client.core, r)
    ensures var moved := w.(client := Deliver(w.client, r, outcome, now, visible));
      ClientInv(moved.client) && ScreenInv(moved) && ContinuationInv(moved)
  {
    var next := Deliver(w.client, r, outcome, now, visible);
    assert Do(w.client, DoDeliver(r, outcome, now, visible)) == next;
    DoKeepsInv(w.client, DoDeliver(r, outcome, now, visible));
    CoreGrows(w.client, DoDeliver(r, outcome, now, visible));
    DeliveredClient(w.client, r, outcome, now, visible);
    ScreenCarries(w, next);
    ContinuationsCarry(w, next);
  }

  lemma DeliverKeepsPending(w: World, r: nat, outcome: Outcome, now: int, visible: bool, v: World)
    requires ClientInv(w.client) && PendingInv(w) && Open(w.client.core, r)
    requires v.client == Deliver(w.client, r, outcome, now, visible) && v.effect == w.effect
    requires (w.effect.Some?
              && (outcome.Failed? || Colds(ForRequest(w.client.waiters, r), w.effect.value.call) == 0))
      ==> v.guard.frames == w.guard.frames && v.guard.pendingKey == w.guard.pendingKey
    ensures PendingInv(v)
  {
    DeliveredClient(w.client, r, outcome, now, visible);
    if w.effect.Some? { assert CallOk(w.client, w.effect.value.call); }
  }

  lemma AnsweredNow(s: Client, r: nat, outcome: Outcome, now: int, visible: bool)
    requires ClientInv(s) && Open(s.core, r) && outcome.Delivered?
    ensures var c := Deliver(s, r, outcome, now, visible).core;
      && r < |c.requests|
      && c.requests[r].key == s.core.requests[r].key
      && c.requests[r].reply == Answered(outcome.payload)
  {
    var t := s.(core := Settle(s.core, r, outcome, now), waiters := ForOthers(s.waiters, r));
    StepKeepsInv(s.core, DoSettle(r, outcome, now));
    ResumeLeads(t, ForRequest(s.waiters, r), Verdict(s.core, r, outcome), visible);
    LeadsKeepsInv(t.core, Deliver(s, r, outcome, now, visible).core);
    assert SameRequest(t.core.requests[r], Deliver(s, r, outcome, now, visible).core.requests[r]);
  }

  // ----- The effect -----

  lemma LeaveKeepsWorld(w: World)
    requires WorldInv(w)
    ensures WorldInv(Leave(w)) && Leave(w).effect.None?
  {
    if w.effect.Some? {
      var e, v := w.effect.value, Leave(w);
      DoKeepsInv(w.client, DoAbortKey(e.key));
      CoreGrows(w.client, DoAbortKey(e.key));
      ScreenCarries(w, v.client);
      assert ScreenInv(v);
      forall x | x in v.client.waiters ensures ContinuationOk(v, x) { LeftBehind(w, v, x); }
    }
  }

  /** After the clean-up the continuations of the former instance await outdated requests. */
  lemma LeftBehind(w: World, v: World, x: Waiter)
    requires ClientInv(w.client) && ContinuationInv(w) && x in w.client.waiters && w.effect.Some?
    requires v == Leave(w) && Extends(w.client.core, v.client.core)
    ensures ContinuationOk(v, x)
  {
    assert ContinuationOk(w, x);
    var i :| 0 <= i < |w.client.waiters| && w.client.waiters[i] == x;
    assert Waits(w.client.core, w.client.waiters[i]) && RequestOk(w.client.core, x.request);
    assert SameRequest(w.client.core.requests[x.request], v.client.core.requests[x.request]);
  }

  lemma SwitchKeepsWorld(w: World, key: QueryKey)
    requires WorldInv(w) && w.effect.None?
    ensures WorldInv(w.(client := AbortAllExcept(w.client, key)))
  {
    DoKeepsInv(w.client, DoAbortAllExcept(key));
    CoreGrows(w.client, DoAbortAllExcept(key));
    ScreenCarries(w, AbortAllExcept(w.client, key));
    ContinuationsCarry(w, AbortAllExcept(w.client, key));
  }

  lemma EnterKeepsWorld(w: World, key: QueryKey)
    requires WorldInv(w)
    ensures WorldInv(Enter(w, key))
    ensures Enter(w, key).effect.Some? && Enter(w, key).effect.value.key == key
  {
    LeaveKeepsWorld(w);
    var left := Leave(w);
    SwitchKeepsWorld(left, key);
    var idle := left.(client := AbortAllExcept(left.client, key));
    AskKeepsWorld(idle, key);
  }

  lemma CacheHitShows(w: World, call: nat, key: QueryKey, prefetched: bool, payload: Payload, writer: nat)
    requires ScreenInv(w.(effect := None)) && w.effect == Some(Effect(call, key))
    requires Genuine(w.client.core, Rows(call, key, payload, writer))
    ensures var v := ObserveAll(w, [Lifecycle(call, key, CacheHit(prefetched)), Resolved(call, payload, writer)]);
      ScreenInv(v) && v.client == w.client && v.effect == w.effect
  {
    ObservePair(w, Lifecycle(call, key, CacheHit(prefetched)), Resolved(call, payload, writer));
    assert w.guard.frames - {w.guard.revealFrame} == map[];
  }

  /** A fresh call starts by raising the guard for its key, or by showing what is cached for it. */
  lemma AskShows(w: World, key: QueryKey, moved: World)
    requires WorldInv(w) && w.effect.None? && Extends(w.client.core, Swr(w.client, key).core)
    requires moved == w.(client := Swr(w.client, key), effect := Some(Effect(w.client.calls, key)))
    ensures var v := ObserveAll(moved, moved.client.outputs[|w.client.outputs|..]);
      && ScreenInv(v) && v.client == moved.client && v.effect == moved.effect
      && (key !in w.client.core.cache ==> v.guard.frames == map[] && v.guard.pendingKey == Some(key))
  {
    var s, next := w.client, moved.client;
    var out := next.outputs[|s.outputs|..];
    ScreenCarries(w, next);
    assert moved.(effect := None) == w.(client := next);
    if key in s.core.cache {
      var e, prefetched := s.core.cache[key], key in s.pre.marked;
      assert out == [Lifecycle(s.calls, key, CacheHit(prefetched)), Resolved(s.calls, e.payload, e.writer)];
      CacheHitShows(moved, s.calls, key, prefetched, e.payload, e.writer);
    } else {
      assert out == [Lifecycle(s.calls, key, ColdStart)];
    }
  }

  lemma AskContinuations(w: World, key: QueryKey, v: World)
    requires WorldInv(w) && w.effect.None? && Extends(w.client.core, Swr(w.client, key).core)
    requires v.client == Swr(w.client, key) && v.effect == Some(Effect(w.client.calls, key))
    ensures ContinuationInv(v)
    ensures key in w.client.core.cache ==> Colds(v.client.waiters, w.client.calls) == 0
  {
    var s, next := w.client, v.client;
    forall x | x in next.waiters ensures ContinuationOk(v, x) {
      if x in s.waiters {
        assert ContinuationOk(w, x);
        var i :| 0 <= i < |s.waiters| && s.waiters[i] == x;
        assert Waits(s.core, s.waiters[i]) && SameRequest(s.core.requests[x.request], next.core.requests[x.request]);
      }
    }
    assert CallOk(s, s.calls);
    ColdsOne(s.waiters, next.waiters[|s.waiters|], s.calls);
  }

  /** A new effect instance asks for `key` once the old one is gone. */
  lemma AskKeepsWorld(w: World, key: QueryKey)
    requires WorldInv(w) && w.effect.None?
    ensures var v := Advance(w.(effect := Some(Effect(w.client.calls, key))), Swr(w.client, key));
      WorldInv(v) && v.effect == Some(Effect(w.client.calls, key))
  {
    var next := Swr(w.client, key);
    assert ClientInv(next) && Extends(w.client.core, next.core) by {
      DoKeepsInv(w.client, DoSwr(key));
      CoreGrows(w.client, DoSwr(key));
    }
    var moved := w.(client := next, effect := Some(Effect(w.client.calls, key)));
    AskShows(w, key, moved);
    AskContinuations(w, key, ObserveAll(moved, next.outputs[|w.client.outputs|..]));
  }

  // ----- Background -----

  lemma BackgroundKeepsWorld(w: World, a: Call)
    requires WorldInv(w) && InBackground(a)
    ensures WorldInv(Advance(w, Do(w.client, a)))
  {
    if a.DoDeliver? && Open(w.client.core, a.request) {
      DeliverKeepsWorld(w, a.request, a.outcome, a.now, a.visible);
    } else {
      var s, next := w.client, Do(w.client, a);
      DoKeepsInv(s, a);
      CoreGrows(s, a);
      if a.DoPrefetch? { DrainOnlyPrefetches(Enqueue(s, a.key), a.visible); }
      assert next.outputs == s.outputs && CallWaiters(next.waiters) == CallWaiters(s.waiters);
      CallWaitersMembers(s.waiters);
      CallWaitersMembers(next.waiters);
      ScreenCarries(w, next);
      ContinuationsCarry(w, next);
      assert next.outputs[|s.outputs|..] == [];
      if w.effect.Some? {
        ColdsOfCalls(s.waiters, w.effect.value.call);
        ColdsOfCalls(next.waiters, w.effect.value.call);
      }
    }
  }

  lemma HappenKeepsWorld(w: World, h: Happening)
    requires WorldInv(w)
    ensures WorldInv(Happen(w, h))
  {
    match h {
      case Entering(key) => EnterKeepsWorld(w, key);
      case Leaving => LeaveKeepsWorld(w);
      case Background(a) => if InBackground(a) { BackgroundKeepsWorld(w, a); }
      case FrameFires(_) =>
    }
  }

  lemma {:induction false} HappenAllKeepsWorld(w: World, hs: seq<Happening>)
    requires WorldInv(w)
    ensures WorldInv(HappenAll(w, hs))
    decreases |hs|
  {
    if hs != [] {
      HappenKeepsWorld(w, hs[0]);
      HappenAllKeepsWorld(Happen(w, hs[0]), hs[1..]);
    }
  }

  lemma ReachableWorld(ttl: int, concurrency: int, hs: seq<Happening>)
    ensures WorldInv(HappenAll(Start(ttl, concurrency), hs))
  {
    HappenAllKeepsWorld(Start(ttl, concurrency), hs);
  }

  // ----- What the user sees -----

  /** Display safety. After any history of context switches, prefetches, invalidations, deliveries
      (late ones of aborted requests included) and animation frames: if a context is requested and
      the guard is down, the rows on screen were put there for the latest request of a context, and
      are what the server answered to a request for exactly that context. */
  lemma DisplaySafety(ttl: int, concurrency: int, hs: seq<Happening>)
    ensures var w := HappenAll(Start(ttl, concurrency), hs);
      w.effect.Some? && w.guard.pending.None? ==>
        && w.rows.Some?
        && w.rows.value.call == w.effect.value.call
        && w.rows.value.key == w.effect.value.key
        && w.rows.value.writer < |w.client.core.requests|
        && w.client.core.requests[w.rows.value.writer].key == w.effect.value.key
        && w.client.core.requests[w.rows.value.writer].reply == Answered(w.rows.value.payload)
  {
    ReachableWorld(ttl, concurrency, hs);
  }

  /** The guard does come down: when a current response reaches the cold call of the requested
      context, its payload is put on screen and a reveal frame is due; when that frame fires, the
      rows are visible. */
  lemma AcceptedResponseReveals(
    ttl: int, concurrency: int, hs: seq<Happening>, x: Waiter, payload: Payload, now: int, visible: bool)
    requires var s := HappenAll(Start(ttl, concurrency), hs).client;
      && x in s.waiters && x.cont.ColdCall? && Open(s.core, x.request)
      && Accepted(s.core, x.request, Delivered(payload))
    ensures var w := HappenAll(Start(ttl, concurrency), hs);
      var v := Happen(w, Background(DoDeliver(x.request, Delivered(payload), now, visible)));
      var u := Happen(v, FrameFires(v.guard.revealFrame));
      && w.effect.Some?
      && v.rows == Some(Rows(w.effect.value.call, w.effect.value.key, payload, x.request))
      && u.guard.pending.None? && u.rows == v.rows
  {
    var w := HappenAll(Start(ttl, concurrency), hs);
    ReachableWorld(ttl, concurrency, hs);
    HappenReveals(w, x, payload, now, visible);
  }

  lemma HappenReveals(w: World, x: Waiter, payload: Payload, now: int, visible: bool)
    requires WorldInv(w) && x in w.client.waiters && x.cont.ColdCall? && Open(w.client.core, x.request)
    requires Accepted(w.client.core, x.request, Delivered(payload))
    ensures var v := Happen(w, Background(DoDeliver(x.request, Delivered(payload), now, visible)));
      var u := Happen(v, FrameFires(v.guard.revealFrame));
      && w.effect.Some?
      && v.rows == Some(Rows(w.effect.value.call, w.effect.value.key, payload, x.request))
      && u.guard.pending.None? && u.rows == v.rows
  {
    DeliverReveals(w, x, payload, now, visible);
    var v := Advance(w, Deliver(w.client, x.request, Delivered(payload), now, visible));
    assert Happen(w, Background(DoDeliver(x.request, Delivered(payload), now, visible))) == v;
  }

  /** An accepted response with a cold call waiting is awaited by exactly one cold call, the
      running instance's. */
  lemma OneColdCall(w: World, x: Waiter, payload: Payload)
    requires WorldInv(w) && x in w.client.waiters && x.cont.ColdCall? && Open(w.client.core, x.request)
    requires Accepted(w.client.core, x.request, Delivered(payload))
    ensures w.effect.Some? && AllFor(ForRequest(w.client.waiters, x.request), x.request, w.effect.value)
    ensures w.client.core.requests[x.request].key == w.effect.value.key
    ensures Colds(ForRequest(w.client.waiters, x.request), w.effect.value.call) == 1
    ensures Colds(w.client.waiters, w.effect.value.call) == 1
  {
    var s, r := w.client, x.request;
    var ready := ForRequest(s.waiters, r);
    assert x in ready by { SplitMembers(s.waiters, r); }
    AcceptedIsActive(w, r, Delivered(payload));
    var i :| 0 <= i < |ready| && ready[i] == x;
    assert ready[i].cont.call == w.effect.value.call;
    assert Colds(s.waiters, w.effect.value.call) <= 1 by { assert CallOk(s, w.effect.value.call); }
    SplitColds(s.waiters, r, w.effect.value.call);
    ColdIsCounted(s.waiters, x);
  }

  /** After the client has moved, before its outputs are seen: the payload is there to be shown. */
  lemma ReadyToShow(w: World, r: nat, payload: Payload, now: int, visible: bool)
    requires WorldInv(w) && Open(w.client.core, r) && w.effect.Some?
    requires w.client.core.requests[r].key == w.effect.value.key
    ensures var next := Deliver(w.client, r, Delivered(payload), now, visible);
      && ScreenInv(w.(client := next))
      && Genuine(next.core, Rows(w.effect.value.call, w.effect.value.key, payload, r))
  {
    CoreGrows(w.client, DoDeliver(r, Delivered(payload), now, visible));
    ScreenCarries(w, Deliver(w.client, r, Delivered(payload), now, visible));
    AnsweredNow(w.client, r, Delivered(payload), now, visible);
  }

  lemma DeliverReveals(w: World, x: Waiter, payload: Payload, now: int, visible: bool)
    requires WorldInv(w) && x in w.client.waiters && x.cont.ColdCall? && Open(w.client.core, x.request)
    requires Accepted(w.client.core, x.request, Delivered(payload))
    ensures var v := Advance(w, Deliver(w.client, x.request, Delivered(payload), now, visible));
      && w.effect.Some?
      && v.rows == Some(Rows(w.effect.value.call, w.effect.value.key, payload, x.request))
      && OnFrame(v.guard, v.guard.revealFrame).pending.None?
  {
    var s, r := w.client, x.request;
    var ready, next := ForRequest(s.waiters, r), Deliver(s, r, Delivered(payload), now, visible);
    var moved := w.(client := next);
    OneColdCall(w, x, payload);
    ReadyToShow(w, r, payload, now, visible);
    var v := ObserveAll(moved, EmitAll(ready, Delivered(payload)));
    ObserveAccepted(moved, ready, r, payload);
    assert Advance(w, next) == v by {
      DeliveredClient(s, r, Delivered(payload), now, visible);
      assert next.outputs[|s.outputs|..] == EmitAll(ready, Delivered(payload));
    }
  }

  /** While the guard is up it covers the section of the requested context, at most one reveal
      frame is ever due, and the frame that is due takes the guard down. */
  lemma GuardCoversItsContext(ttl: int, concurrency: int, hs: seq<Happening>)
    ensures var w := HappenAll(Start(ttl, concurrency), hs);
      && w.guard.frames.Keys <= {w.guard.revealFrame}
      && (w.effect.Some? && w.guard.pending.Some? ==> w.guard.pending.value.key == w.effect.value.key)
      && (w.effect.Some? ==> forall id :: id in w.guard.frames ==>
            w.guard.pending.Some? && OnFrame(w.guard, id).pending.None?)
  {
    ReachableWorld(ttl, concurrency, hs);
  }
}
