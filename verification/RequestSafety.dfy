/** What the request core guarantees over every interleaving of fetches, aborts, invalidations
    and late deliveries. */
module RequestSafety {
  import opened QueryContext
  import opened RequestCore

  lemma ReachableInv(actions: seq<Action>)
    ensures CoreInv(Run(EMPTY, actions))
  {
    RunKeepsInv(EMPTY, actions);
  }

  /** No stale write: whatever the network delivers and however late, every write to the cache
      came from a request started earlier whose key was neither aborted nor requested again in
      between, and successive writers of one key have strictly increasing generations. */
  lemma NoStaleWrite(actions: seq<Action>, i: nat)
    requires i < |Run(EMPTY, actions).log| && Run(EMPTY, actions).log[i].Wrote?
    ensures var c := Run(EMPTY, actions);
      var r := c.log[i].request;
      && r < |c.requests|
      && (exists s: nat :: s < i && c.log[s] == Started(r)
            && forall m: nat :: s < m < i ==> !Touches(c, c.log[m], c.requests[r].key))
      && (forall j: nat :: j < i && c.log[j].Wrote? && c.log[j].request < |c.requests|
            && c.requests[c.log[j].request].key == c.requests[r].key
            ==> c.requests[c.log[j].request].gen < c.requests[r].gen)
  {
    ReachableInv(actions);
    var c := Run(EMPTY, actions);
    var r := c.log[i].request;
    assert WriteOk(c, i);
    var s := c.requests[r].startedAt;
    assert s < i && c.log[s] == Started(r);
    forall m: nat | s < m < i ensures !Touches(c, c.log[m], c.requests[r].key) {
      assert QuietBetween(c, c.requests[r].key, s + 1, i);
    }
    forall j: nat | j < i && c.log[j].Wrote? && c.log[j].request < |c.requests|
      && c.requests[c.log[j].request].key == c.requests[r].key
      ensures c.requests[c.log[j].request].gen < c.requests[r].gen
    {
      assert LaterWriter(c, j, i);
    }
  }

  /** The generation check is exact: a delivered response enters the cache if and only if its key
      has been left alone since the request started. */
  lemma WritesIffQuiet(c: Core, r: nat, payload: Payload, now: int)
    requires CoreInv(c) && Open(c, r)
    ensures var d := Settle(c, r, Delivered(payload), now);
      var key := c.requests[r].key;
      && (Quiet(c, r) <==> d.log == c.log + [Wrote(r)])
      && (Quiet(c, r) ==> key in d.cache && d.cache[key].payload == payload && d.cache[key].writer == r)
      && (!Quiet(c, r) ==> d.cache == c.cache && d.log == c.log)
  {
    assert StartOk(c, r);
  }

  /** Single flight: both tables pair one pending, unaborted request of the current generation
      with its key, and every pending unaborted request is the one its key is paired with. */
  lemma SingleFlight(actions: seq<Action>)
    ensures var c := Run(EMPTY, actions);
      && c.inflight == c.controllers
      && (forall k :: k in c.inflight ==>
            var r := c.inflight[k];
            Open(c, r) && c.requests[r].key == k && !c.requests[r].aborted && c.requests[r].gen == Gen(c, k))
      && (forall q: nat, r: nat ::
            Open(c, q) && Open(c, r) && !c.requests[q].aborted && !c.requests[r].aborted
            && c.requests[q].key == c.requests[r].key
            ==> q == r)
  {
    ReachableInv(actions);
    var c := Run(EMPTY, actions);
    forall k | k in c.inflight
      ensures var r := c.inflight[k];
        Open(c, r) && c.requests[r].key == k && !c.requests[r].aborted && c.requests[r].gen == Gen(c, k)
    {
      assert FlightOk(c, k);
    }
    forall q: nat, r: nat | Open(c, q) && Open(c, r) && !c.requests[q].aborted && !c.requests[r].aborted
      && c.requests[q].key == c.requests[r].key
      ensures q == r
    {
      assert RequestOk(c, q) && RequestOk(c, r);
    }
  }

  /** The late settlement of an aborted request leaves its successor's entries in place and
      touches the cache of no key. */
  lemma LateCleanupSparesSuccessor(c: Core, r: nat, outcome: Outcome, now: int)
    requires CoreInv(c) && Open(c, r) && c.requests[r].aborted
    ensures var d := Settle(c, r, outcome, now);
      d.inflight == c.inflight && d.controllers == c.controllers && d.cache == c.cache
  {
    assert RequestOk(c, r);
    var key := c.requests[r].key;
    if key in c.inflight { assert FlightOk(c, key); }
  }

  // ----- Freshness -----

  /** Nothing older than request `since` is cached under `keys`, nor can it still be. */
  ghost predicate FreshFrom(c: Core, keys: set<QueryKey>, since: nat) {
    && (forall k :: k in keys && k in c.cache ==> c.cache[k].writer >= since)
    && (forall r: nat :: r < since && r < |c.requests| ==> CannotWrite(c, keys, r))
  }

  ghost predicate CannotWrite(c: Core, keys: set<QueryKey>, r: nat)
    requires r < |c.requests|
  {
    c.requests[r].key in keys ==> !c.requests[r].reply.Waiting? || c.requests[r].gen < Gen(c, c.requests[r].key)
  }

  lemma StepKeepsFresh(c: Core, a: Action, keys: set<QueryKey>, since: nat)
    requires FreshFrom(c, keys, since) && since <= |c.requests|
    ensures FreshFrom(Step(c, a), keys, since)
  {
    var d := Step(c, a);
    StepExtends(c, a);
    forall r: nat | r < since && r < |d.requests| ensures CannotWrite(d, keys, r) {
      assert CannotWrite(c, keys, r) && SameRequest(c.requests[r], d.requests[r]);
    }
    forall k | k in keys && k in d.cache ensures d.cache[k].writer >= since {
      if a.DoSettle? && a.request < since && Open(c, a.request) {
        assert CannotWrite(c, keys, a.request);
      }
    }
  }

  lemma {:induction false} RunKeepsFresh(c: Core, actions: seq<Action>, keys: set<QueryKey>, since: nat)
    requires FreshFrom(c, keys, since) && since <= |c.requests|
    ensures FreshFrom(Run(c, actions), keys, since)
    decreases |actions|
  {
    if actions != [] {
      StepKeepsFresh(c, actions[0], keys, since);
      StepExtends(c, actions[0]);
      RunKeepsFresh(Step(c, actions[0]), actions[1..], keys, since);
    }
  }

  lemma NothingInFlight(c: Core, keys: set<QueryKey>)
    requires CoreInv(c)
    requires forall k :: k in keys ==> k !in c.cache && k !in c.inflight
    ensures FreshFrom(c, keys, |c.requests|)
  {
    forall r: nat | r < |c.requests| ensures CannotWrite(c, keys, r) {
      assert RequestOk(c, r);
    }
  }

  /** Freshness after invalidation plus abort: whatever happens next, a payload cached under one
      of those keys was requested afterwards. */
  lemma FreshAfterInvalidateAndAbort(c: Core, keys: set<QueryKey>, later: Core)
    requires CoreInv(c)
    requires Leads(Abort(Invalidate(c, keys), keys), later)
    ensures forall k :: k in keys && k in later.cache ==> later.cache[k].writer >= |c.requests|
  {
    var d := Abort(Invalidate(c, keys), keys);
    StepKeepsInv(c, DoInvalidate(keys));
    StepKeepsInv(Invalidate(c, keys), DoAbort(keys));
    NothingInFlight(d, keys);
    var actions :| Run(d, actions) == later;
    RunKeepsFresh(d, actions, keys, |c.requests|);
  }

  /** Invalidation alone does not bump generations, so it is fresh exactly for the keys with no
      request in flight: a response already under way can put back what was invalidated. */
  lemma RepopulatedIffInFlight(c: Core, key: QueryKey)
    requires CoreInv(c)
    ensures key in c.inflight <==>
      exists later :: Leads(Invalidate(c, {key}), later) && key in later.cache
        && later.cache[key].writer < |c.requests|
  {
    var d := Invalidate(c, {key});
    StepKeepsInv(c, DoInvalidate({key}));
    if key in c.inflight {
      assert FlightOk(d, key);
      var r := d.inflight[key];
      var settle := DoSettle(r, Delivered(Payload(0, [])), 0);
      LeadsStep(d, settle);
      assert Step(d, settle).cache[key].writer == r;
    } else {
      NothingInFlight(d, {key});
      forall later | Leads(d, later) && key in later.cache ensures later.cache[key].writer >= |c.requests| {
        var actions :| Run(d, actions) == later;
        RunKeepsFresh(d, actions, {key}, |c.requests|);
      }
    }
  }
}
