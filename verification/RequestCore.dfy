/** The part of ProcurementDataClient that owns requests: the response cache, single-flight
    table, abort controllers and per-key generations, as a step system over values.
    A request number stands for the request's promise and for its AbortController. */
module RequestCore {
  import opened QueryContext

  datatype Payload = Payload(count: nat, results: seq<nat>)

  /** What the network finally did with a request. Nothing says that an aborted request fails. */
  datatype Outcome = Delivered(payload: Payload) | Failed(isAbort: bool)

  datatype Reply = Waiting | Answered(payload: Payload) | Broken

  datatype Request = Request(key: QueryKey, gen: nat, startedAt: nat, aborted: bool, reply: Reply)

  /** `writer` and `writtenAt` record which request wrote the entry, and when. */
  datatype CacheEntry = CacheEntry(payload: Payload, fetchedAt: int, writer: nat, writtenAt: nat)

  datatype Event =
    | Started(request: nat)
    | AbortedKeys(keys: set<QueryKey>)
    | Wrote(request: nat)
    | Invalidated(keys: set<QueryKey>)

  datatype Core = Core(
    cache: map<QueryKey, CacheEntry>,
    inflight: map<QueryKey, nat>,
    controllers: map<QueryKey, nat>,
    generation: map<QueryKey, nat>,
    requests: seq<Request>,
    log: seq<Event>)

  const EMPTY := Core(map[], map[], map[], map[], [], [])

  function Gen(c: Core, key: QueryKey): nat {
    if key in c.generation then c.generation[key] else 0
  }

  // ----- Steps -----

  function Fetch(c: Core, key: QueryKey): Core {
    if key in c.inflight then c
    else
      var r := |c.requests|;
      c.(generation := c.generation[key := Gen(c, key) + 1],
         controllers := c.controllers[key := r],
         inflight := c.inflight[key := r],
         requests := c.requests + [Request(key, Gen(c, key) + 1, |c.log|, false, Waiting)],
         log := c.log + [Started(r)])
  }

  /** The request a `Fetch` of `key` hands back. */
  function Fetched(c: Core, key: QueryKey): nat {
    if key in c.inflight then c.inflight[key] else |c.requests|
  }

  function AbortRequest(c: Core, keys: set<QueryKey>, r: nat): Request
    requires r < |c.requests|
  {
    var q := c.requests[r];
    if q.key in keys && q.key in c.controllers && c.controllers[q.key] == r then q.(aborted := true) else q
  }

  function Abort(c: Core, keys: set<QueryKey>): Core {
    c.(requests := seq(|c.requests|, r requires 0 <= r < |c.requests| => AbortRequest(c, keys, r)),
       controllers := c.controllers - keys,
       inflight := c.inflight - keys,
       generation := map k | k in c.generation.Keys + keys :: if k in keys then Gen(c, k) + 1 else c.generation[k],
       log := c.log + [AbortedKeys(keys)])
  }

  predicate Open(c: Core, r: nat) { r < |c.requests| && c.requests[r].reply.Waiting? }

  /** Whether the response of `r` passes the generation check. */
  predicate Accepted(c: Core, r: nat, outcome: Outcome)
    requires r < |c.requests|
  {
    outcome.Delivered? && Gen(c, c.requests[r].key) == c.requests[r].gen
  }

  function Settle(c: Core, r: nat, outcome: Outcome, now: int): Core
    requires Open(c, r)
  {
    var q := c.requests[r];
    var reply := if outcome.Delivered? then Answered(outcome.payload) else Broken;
    var done := c.(
      requests := c.requests[r := q.(reply := reply)],
      inflight := if q.key in c.inflight && c.inflight[q.key] == r then c.inflight - {q.key} else c.inflight,
      controllers := if q.key in c.controllers && c.controllers[q.key] == r
                     then c.controllers - {q.key} else c.controllers);
    if Accepted(c, r, outcome) then
      done.(cache := c.cache[q.key := CacheEntry(outcome.payload, now, r, |c.log|)], log := c.log + [Wrote(r)])
    else done
  }

  function Invalidate(c: Core, keys: set<QueryKey>): Core {
    c.(cache := c.cache - keys, log := c.log + [Invalidated(keys)])
  }

  datatype Action =
    | DoFetch(key: QueryKey)
    | DoAbort(keys: set<QueryKey>)
    | DoSettle(request: nat, outcome: Outcome, now: int)
    | DoInvalidate(keys: set<QueryKey>)

  function Step(c: Core, a: Action): Core {
    match a
    case DoFetch(key) => Fetch(c, key)
    case DoAbort(keys) => Abort(c, keys)
    case DoSettle(r, outcome, now) => if Open(c, r) then Settle(c, r, outcome, now) else c
    case DoInvalidate(keys) => Invalidate(c, keys)
  }

  function Run(c: Core, actions: seq<Action>): Core
    decreases |actions|
  {
    if actions == [] then c else Run(Step(c, actions[0]), actions[1..])
  }

  lemma {:induction false} RunAppend(c: Core, a: seq<Action>, b: seq<Action>)
    ensures Run(c, a + b) == Run(Run(c, a), b)
    decreases |a|
  {
    if a == [] {
      assert [] + b == b;
    } else {
      assert (a + b)[0] == a[0] && (a + b)[1..] == a[1..] + b;
      RunAppend(Step(c, a[0]), a[1..], b);
    }
  }

  /** `d` is a later state of `c`. */
  ghost predicate Leads(c: Core, d: Core) {
    exists actions :: Run(c, actions) == d
  }

  lemma LeadsSelf(c: Core)
    ensures Leads(c, c)
  {
    assert Run(c, []) == c;
  }

  lemma LeadsStep(c: Core, a: Action)
    ensures Leads(c, Step(c, a))
  {
    assert Run(Step(c, a), []) == Step(c, a);
    assert [a][1..] == [];
    assert Run(c, [a]) == Step(c, a);
  }

  lemma LeadsThrough(c: Core, d: Core, e: Core)
    requires Leads(c, d) && Leads(d, e)
    ensures Leads(c, e)
  {
    var a :| Run(c, a) == d;
    var b :| Run(d, b) == e;
    RunAppend(c, a, b);
  }

  // ----- Single flight -----

  ghost predicate RequestOk(c: Core, r: nat)
    requires r < |c.requests|
  {
    var q := c.requests[r];
    && 1 <= q.gen <= Gen(c, q.key)
    && (q.aborted ==> q.gen < Gen(c, q.key))
    && (q.reply.Waiting? && !q.aborted ==> q.key in c.inflight && c.inflight[q.key] == r)
  }

  ghost predicate FlightOk(c: Core, key: QueryKey)
    requires key in c.inflight
  {
    var r := c.inflight[key];
    && Open(c, r)
    && c.requests[r].key == key
    && !c.requests[r].aborted
    && c.requests[r].gen == Gen(c, key)
  }

  ghost predicate FlightInv(c: Core) {
    && c.inflight == c.controllers
    && (forall r: nat :: r < |c.requests| ==> RequestOk(c, r))
    && (forall k :: k in c.inflight ==> FlightOk(c, k))
  }

  ghost predicate LaterGen(c: Core, q: nat, r: nat)
    requires q < |c.requests| && r < |c.requests|
  {
    c.requests[q].key == c.requests[r].key ==> c.requests[q].gen < c.requests[r].gen
  }

  ghost predicate GensIncrease(c: Core) {
    forall q: nat, r: nat :: q < r < |c.requests| ==> LaterGen(c, q, r)
  }

  lemma FetchKeepsFlight(c: Core, key: QueryKey)
    requires FlightInv(c)
    ensures FlightInv(Fetch(c, key))
    ensures Open(Fetch(c, key), Fetched(c, key)) && Fetch(c, key).requests[Fetched(c, key)].key == key
  {
    if key in c.inflight {
      assert FlightOk(c, key);
    } else {
      var d := Fetch(c, key);
      forall r: nat | r < |d.requests| ensures RequestOk(d, r) {
        if r < |c.requests| { assert RequestOk(c, r); }
      }
      forall k | k in d.inflight ensures FlightOk(d, k) {
        if k != key { assert FlightOk(c, k); }
      }
    }
  }

  lemma AbortKeepsFlight(c: Core, keys: set<QueryKey>)
    requires FlightInv(c)
    ensures FlightInv(Abort(c, keys))
  {
    var d := Abort(c, keys);
    forall r: nat | r < |d.requests| ensures RequestOk(d, r) {
      assert RequestOk(c, r);
      assert d.requests[r] == AbortRequest(c, keys, r);
    }
    forall k | k in d.inflight ensures FlightOk(d, k) {
      assert FlightOk(c, k);
      assert d.requests[c.inflight[k]] == AbortRequest(c, keys, c.inflight[k]);
    }
  }

  lemma SettleKeepsFlight(c: Core, r: nat, outcome: Outcome, now: int)
    requires FlightInv(c) && Open(c, r)
    ensures FlightInv(Settle(c, r, outcome, now))
  {
    var d := Settle(c, r, outcome, now);
    forall s: nat | s < |d.requests| ensures RequestOk(d, s) {
      assert RequestOk(c, s);
    }
    forall k | k in d.inflight ensures FlightOk(d, k) {
      assert FlightOk(c, k);
    }
  }

  // ----- Time only moves forward -----

  ghost predicate SameRequest(p: Request, q: Request) {
    && p.key == q.key && p.gen == q.gen && p.startedAt == q.startedAt
    && (p.aborted ==> q.aborted)
    && (p.reply != Waiting ==> q.reply == p.reply)
  }

  /** Requests keep their key, generation, start and answer; generations and the log only grow. */
  ghost predicate Extends(c: Core, d: Core) {
    && |c.requests| <= |d.requests|
    && (forall r: nat :: r < |c.requests| ==> SameRequest(c.requests[r], d.requests[r]))
    && c.log <= d.log
    && (forall k :: Gen(c, k) <= Gen(d, k))
  }

  lemma StepExtends(c: Core, a: Action)
    ensures Extends(c, Step(c, a))
  {
  }

  lemma {:induction false} RunExtends(c: Core, actions: seq<Action>)
    ensures Extends(c, Run(c, actions))
    decreases |actions|
  {
    if actions != [] {
      StepExtends(c, actions[0]);
      RunExtends(Step(c, actions[0]), actions[1..]);
    }
  }

  lemma StepKeepsFlight(c: Core, a: Action)
    requires FlightInv(c)
    ensures FlightInv(Step(c, a))
  {
    match a {
      case DoFetch(key) => FetchKeepsFlight(c, key);
      case DoAbort(keys) => AbortKeepsFlight(c, keys);
      case DoSettle(r, outcome, now) => if Open(c, r) { SettleKeepsFlight(c, r, outcome, now); }
      case DoInvalidate(keys) =>
        var d := Invalidate(c, keys);
        forall r: nat | r < |d.requests| ensures RequestOk(d, r) { assert RequestOk(c, r); }
        forall k | k in d.inflight ensures FlightOk(d, k) { assert FlightOk(c, k); }
    }
  }

  lemma StepKeepsGens(c: Core, a: Action)
    requires FlightInv(c) && GensIncrease(c)
    ensures GensIncrease(Step(c, a))
  {
    var d := Step(c, a);
    StepExtends(c, a);
    forall q: nat, r: nat | q < r < |d.requests| ensures LaterGen(d, q, r) {
      assert SameRequest(c.requests[q], d.requests[q]);
      if r < |c.requests| {
        assert SameRequest(c.requests[r], d.requests[r]);
        assert LaterGen(c, q, r);
      } else {
        assert RequestOk(c, q);
      }
    }
  }

  // ----- What the log says -----

  predicate Touches(c: Core, e: Event, key: QueryKey) {
    match e
    case Started(r) => r < |c.requests| && c.requests[r].key == key
    case AbortedKeys(keys) => key in keys
    case Wrote(_) => false
    case Invalidated(_) => false
  }

  /** Between two moments `key` was neither aborted nor requested anew. */
  ghost predicate QuietBetween(c: Core, key: QueryKey, lo: nat, hi: nat)
    requires hi <= |c.log|
  {
    forall i: nat :: lo <= i < hi ==> !Touches(c, c.log[i], key)
  }

  ghost predicate Quiet(c: Core, r: nat)
    requires r < |c.requests|
  {
    QuietBetween(c, c.requests[r].key, c.requests[r].startedAt + 1, |c.log|)
  }

  ghost predicate StartOk(c: Core, r: nat)
    requires r < |c.requests|
  {
    && c.requests[r].startedAt < |c.log|
    && c.log[c.requests[r].startedAt] == Started(r)
    && (c.requests[r].gen == Gen(c, c.requests[r].key) <==> Quiet(c, r))
  }

  ghost predicate StartInv(c: Core) {
    && (forall i: nat :: i < |c.log| && c.log[i].Started? ==> c.log[i].request < |c.requests|)
    && (forall r: nat :: r < |c.requests| ==> StartOk(c, r))
  }

  /** The write logged at `i` came from a request whose key stayed quiet from its start to the write. */
  ghost predicate WriteOk(c: Core, i: nat)
    requires i < |c.log| && c.log[i].Wrote?
  {
    var r := c.log[i].request;
    && r < |c.requests|
    && c.requests[r].reply.Answered?
    && c.requests[r].startedAt < i
    && c.log[c.requests[r].startedAt] == Started(r)
    && QuietBetween(c, c.requests[r].key, c.requests[r].startedAt + 1, i)
  }

  ghost predicate WriteInv(c: Core) {
    && (forall i: nat :: i < |c.log| && c.log[i].Wrote? ==> WriteOk(c, i))
    && (forall i: nat, j: nat :: i < j < |c.log| && c.log[i].Wrote? && c.log[j].Wrote?
          ==> LaterWriter(c, i, j))
  }

  /** The writers of one key have increasing generations. */
  ghost predicate LaterWriter(c: Core, i: nat, j: nat)
    requires i < |c.log| && c.log[i].Wrote? && j < |c.log| && c.log[j].Wrote?
  {
    var q, r := c.log[i].request, c.log[j].request;
    q < |c.requests| && r < |c.requests| && LaterGen(c, q, r)
  }

  /** A cached payload is the answer of a request for that very key. */
  ghost predicate EntryOk(c: Core, key: QueryKey)
    requires key in c.cache
  {
    var e := c.cache[key];
    && e.writer < |c.requests|
    && c.requests[e.writer].key == key
    && c.requests[e.writer].reply == Answered(e.payload)
    && e.writtenAt < |c.log|
    && c.log[e.writtenAt] == Wrote(e.writer)
  }

  ghost predicate CacheInv(c: Core) {
    forall k :: k in c.cache ==> EntryOk(c, k)
  }

  ghost predicate CoreInv(c: Core) {
    FlightInv(c) && GensIncrease(c) && StartInv(c) && WriteInv(c) && CacheInv(c)
  }

  lemma StepLog(c: Core, a: Action)
    ensures var d := Step(c, a); d.log == c.log || d.log == c.log + [d.log[|c.log|]]
  {
  }

  lemma StepKeepsStart(c: Core, a: Action, r: nat)
    requires FlightInv(c) && StartInv(c) && r < |c.requests|
    requires Extends(c, Step(c, a))
    ensures StartOk(Step(c, a), r)
  {
    var d := Step(c, a);
    var key, lo := c.requests[r].key, c.requests[r].startedAt + 1;
    assert StartOk(c, r) && RequestOk(c, r) && SameRequest(c.requests[r], d.requests[r]);
    StepLog(c, a);
    if d.log != c.log {
      assert QuietBetween(d, key, lo, |d.log|)
        <==> QuietBetween(d, key, lo, |c.log|) && !Touches(d, d.log[|c.log|], key);
      assert Touches(d, d.log[|c.log|], key) <==> Gen(d, key) == Gen(c, key) + 1;
      assert !Touches(d, d.log[|c.log|], key) ==> Gen(d, key) == Gen(c, key);
    }
  }

  lemma StepKeepsStarts(c: Core, a: Action)
    requires FlightInv(c) && StartInv(c)
    ensures StartInv(Step(c, a))
  {
    var d := Step(c, a);
    StepExtends(c, a);
    StepLog(c, a);
    forall r: nat | r < |d.requests| ensures StartOk(d, r) {
      if r < |c.requests| { StepKeepsStart(c, a, r); }
    }
    forall i: nat | i < |d.log| && d.log[i].Started? ensures d.log[i].request < |d.requests| {
      if i < |c.log| { assert d.log[i] == c.log[i]; }
    }
  }

  lemma StepKeepsWrite(c: Core, a: Action, i: nat)
    requires FlightInv(c) && StartInv(c) && WriteInv(c) && Extends(c, Step(c, a))
    requires i < |Step(c, a).log| && Step(c, a).log[i].Wrote?
    ensures WriteOk(Step(c, a), i)
  {
    var d := Step(c, a);
    var r := d.log[i].request;
    StepLog(c, a);
    if i < |c.log| {
      assert c.log[i] == d.log[i] && WriteOk(c, i);
    } else {
      assert a.DoSettle? && r == a.request && StartOk(c, r);
    }
    assert SameRequest(c.requests[r], d.requests[r]);
  }

  lemma StepKeepsWriters(c: Core, a: Action, i: nat, j: nat)
    requires FlightInv(c) && GensIncrease(c) && WriteInv(c) && Extends(c, Step(c, a))
    requires i < j < |Step(c, a).log| && Step(c, a).log[i].Wrote? && Step(c, a).log[j].Wrote?
    ensures LaterWriter(Step(c, a), i, j)
  {
    var d := Step(c, a);
    StepLog(c, a);
    assert c.log[i] == d.log[i] && WriteOk(c, i);
    var q, r := d.log[i].request, d.log[j].request;
    assert SameRequest(c.requests[q], d.requests[q]);
    if j < |c.log| {
      assert c.log[j] == d.log[j] && WriteOk(c, j) && LaterWriter(c, i, j);
      assert SameRequest(c.requests[r], d.requests[r]);
    } else {
      assert a.DoSettle? && r == a.request && q != r;
      assert RequestOk(c, q) && SameRequest(c.requests[r], d.requests[r]);
      if q < r { assert LaterGen(c, q, r); } else { assert LaterGen(c, r, q); }
    }
  }

  lemma StepKeepsWrites(c: Core, a: Action)
    requires FlightInv(c) && GensIncrease(c) && StartInv(c) && WriteInv(c)
    ensures WriteInv(Step(c, a))
  {
    var d := Step(c, a);
    StepExtends(c, a);
    forall i: nat | i < |d.log| && d.log[i].Wrote? ensures WriteOk(d, i) {
      StepKeepsWrite(c, a, i);
    }
    forall i: nat, j: nat | i < j < |d.log| && d.log[i].Wrote? && d.log[j].Wrote? ensures LaterWriter(d, i, j) {
      StepKeepsWriters(c, a, i, j);
    }
  }

  lemma StepKeepsCache(c: Core, a: Action)
    requires CacheInv(c)
    ensures CacheInv(Step(c, a))
  {
    var d := Step(c, a);
    StepExtends(c, a);
    forall k | k in d.cache ensures EntryOk(d, k) {
      if k in c.cache && d.cache[k] == c.cache[k] {
        assert EntryOk(c, k);
        assert SameRequest(c.requests[c.cache[k].writer], d.requests[c.cache[k].writer]);
      }
    }
  }

  lemma StepKeepsInv(c: Core, a: Action)
    requires CoreInv(c)
    ensures CoreInv(Step(c, a))
  {
    StepKeepsFlight(c, a);
    StepKeepsGens(c, a);
    StepKeepsStarts(c, a);
    StepKeepsWrites(c, a);
    StepKeepsCache(c, a);
  }

  lemma {:induction false} RunKeepsInv(c: Core, actions: seq<Action>)
    requires CoreInv(c)
    ensures CoreInv(Run(c, actions))
    decreases |actions|
  {
    if actions != [] {
      StepKeepsInv(c, actions[0]);
      RunKeepsInv(Step(c, actions[0]), actions[1..]);
    }
  }

  lemma LeadsKeepsInv(c: Core, d: Core)
    requires CoreInv(c) && Leads(c, d)
    ensures CoreInv(d) && Extends(c, d)
  {
    var actions :| Run(c, actions) == d;
    RunKeepsInv(c, actions);
    RunExtends(c, actions);
  }
}
