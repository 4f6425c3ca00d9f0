/** What overlapping revision checks guarantee over whole runs, and exactly when. */
module RevisionSafety {
  import opened Text
  import opened QueryContext
  import opened RequestCore
  import opened DataClient
  import opened RevisionReconciliation

  /** One check finishing: everything up to its target is covered exactly when the effect is still
      mounted, or the list can be applied, or everything was covered already. */
  lemma FinishCoversIff(w: World, check: nat, listing: Option<seq<Listed>>, upTo: nat)
    requires Inv(w) && check < |w.checks| && w.checks[check].Reading? && upTo <= |w.changes|
    requires listing.Some? ==> listing.value == Listing(w.changes, w.checks[check].from, upTo)
    ensures var c := w.checks[check];
      CoveredTo(Finish(w, check, listing), c.target)
      <==> !w.cancelled || (listing.Some? && Scoped(listing.value, c.from, c.target)) || CoveredTo(w, c.target)
  {
    var v, c := Finish(w, check, listing), w.checks[check];
    assert CheckOk(w, check);
    CoveredCarries(w, v, c.from);
    if CoveredTo(w, c.target) {
      CoveredCarries(w, v, c.target);
    } else if !w.cancelled || (listing.Some? && Scoped(listing.value, c.from, c.target)) {
      forall j: nat | v.first.value <= j < c.target ensures Swept(v.client.core, v.changes[j]) {
        if j >= c.from { ReconcileSweeps(w, listing, c.from, c.target, upTo, w.cancelled, j); }
      }
    }
  }

  lemma FinishKeepsInvIff(w: World, check: nat, listing: Option<seq<Listed>>, upTo: nat)
    requires Inv(w) && check < |w.checks| && w.checks[check].Reading? && upTo <= |w.changes|
    requires listing.Some? ==> listing.value == Listing(w.changes, w.checks[check].from, upTo)
    ensures var c, v := w.checks[check], Finish(w, check, listing);
      && (Inv(v) <==> CoveredTo(v, c.target))
      && (Complete(v) <==> CoveredTo(v, c.target))
  {
    var v, c := Finish(w, check, listing), w.checks[check];
    assert CheckOk(w, check);
    ChecksCarry(w, v);
  }

  // ----- Runs -----

  /** The check an event finishes, and the change list it finishes with. */
  datatype Ending = Ending(check: nat, listing: Option<seq<Listed>>)

  function EndingOf(w: World, e: Happening): Option<Ending> {
    match e
    case ChangesFail(i) => if i < |w.checks| && w.checks[i].Reading? then Some(Ending(i, None)) else None
    case ChangesArrive(i, upTo) =>
      if i < |w.checks| && w.checks[i].Reading? && upTo <= |w.changes|
      then Some(Ending(i, Some(Listing(w.changes, w.checks[i].from, upTo)))) else None
    case _ => None
  }

  /** A check that finishes after the effect was cancelled gets a list that can be applied. */
  predicate Applicable(w: World, e: Happening) {
    match EndingOf(w, e)
    case None => true
    case Some(Ending(i, listing)) =>
      i < |w.checks| && w.checks[i].Reading? &&
      (!w.cancelled || (listing.Some? && Scoped(listing.value, w.checks[i].from, w.checks[i].target)))
  }

  predicate AllApplicable(w: World, es: seq<Happening>)
    decreases |es|
  {
    es != [] ==> Applicable(w, es[0]) && AllApplicable(Happen(w, es[0]), es[1..])
  }

  /** It gets such a list, or there is nothing left to reconcile up to its target. */
  ghost predicate Harmless(w: World, e: Happening) {
    Applicable(w, e)
    || (var i := EndingOf(w, e).value.check; i < |w.checks| && w.checks[i].Reading? && CoveredTo(w, w.checks[i].target))
  }

  ghost predicate AllHarmless(w: World, es: seq<Happening>)
    decreases |es|
  {
    es != [] ==> Harmless(w, es[0]) && AllHarmless(Happen(w, es[0]), es[1..])
  }

  /** At no moment of the run has a change at or below `lastRevision` been missed. */
  ghost predicate CompleteThroughout(w: World, es: seq<Happening>)
    decreases |es|
  {
    Complete(w) && (es != [] ==> CompleteThroughout(Happen(w, es[0]), es[1..]))
  }

  lemma EndingKeepsInvIff(w: World, e: Happening)
    requires Inv(w) && EndingOf(w, e).Some?
    ensures Inv(Happen(w, e)) <==> Harmless(w, e)
    ensures Complete(Happen(w, e)) <==> Harmless(w, e)
  {
    var i := EndingOf(w, e).value.check;
    var upTo := if e.ChangesArrive? then e.upTo else 0;
    FinishCoversIff(w, i, EndingOf(w, e).value.listing, upTo);
    FinishKeepsInvIff(w, i, EndingOf(w, e).value.listing, upTo);
  }

  lemma OtherKeepsInv(w: World, e: Happening)
    requires Inv(w) && EndingOf(w, e).None?
    ensures Inv(Happen(w, e))
  {
    match e {
      case ClientActs(a) => DoNewer(w.client, a); QuietKeepsInv(w, Happen(w, e));
      case RevisionArrives(i, revision) =>
        if i < |w.checks| && w.checks[i].Asking? && revision <= |w.changes| { LearnKeepsInv(w, i, revision); }
      case _ => QuietKeepsInv(w, Happen(w, e));
    }
  }

  lemma {:induction false} CompleteIffHarmless(w: World, es: seq<Happening>)
    requires Inv(w)
    ensures CompleteThroughout(w, es) <==> AllHarmless(w, es)
    ensures AllHarmless(w, es) ==> Inv(HappenAll(w, es))
    decreases |es|
  {
    if es != [] {
      if EndingOf(w, es[0]).Some? { EndingKeepsInvIff(w, es[0]); } else { OtherKeepsInv(w, es[0]); }
      if Harmless(w, es[0]) {
        CompleteIffHarmless(Happen(w, es[0]), es[1..]);
      } else {
        assert !CompleteThroughout(Happen(w, es[0]), es[1..]);
      }
    }
  }

  lemma {:induction false} ApplicableIsHarmless(w: World, es: seq<Happening>)
    requires AllApplicable(w, es)
    ensures AllHarmless(w, es)
    decreases |es|
  {
    if es != [] { ApplicableIsHarmless(Happen(w, es[0]), es[1..]); }
  }

  lemma {:induction false} MountedIsApplicable(w: World, es: seq<Happening>)
    requires !HappenAll(w, es).cancelled
    ensures !w.cancelled && AllApplicable(w, es)
    decreases |es|
  {
    if es != [] { MountedIsApplicable(Happen(w, es[0]), es[1..]); }
  }

  /** Exactly the runs that miss nothing: at every moment all changes after the first observed
      revision and up to `lastRevision` are swept, if and only if each check finishing after the
      effect was cancelled gets a list that can be applied or has nothing left to reconcile. */
  lemma NothingMissedIff(ttl: int, concurrency: int, es: seq<Happening>)
    ensures CompleteThroughout(Start(ttl, concurrency), es) <==> AllHarmless(Start(ttl, concurrency), es)
  {
    CompleteIffHarmless(Start(ttl, concurrency), es);
  }

  /** No missed change: with any number of overlapping checks finishing in any order, before or
      after the effect is cancelled, amid any client activity, every change with a revision after
      the first one observed and up to the last one reconciled has been swept from the cache by an
      invalidation later than the change, as long as the checks that finish after the cancellation
      get lists that can be applied. */
  lemma NoMissedChange(ttl: int, concurrency: int, es: seq<Happening>, rev: nat)
    requires AllApplicable(Start(ttl, concurrency), es)
    requires var w := HappenAll(Start(ttl, concurrency), es);
      w.last.Some? && w.first.Some? && w.first.value < rev <= w.last.value
    ensures var w := HappenAll(Start(ttl, concurrency), es);
      && rev <= |w.changes|
      && exists i: nat ::
           && w.changes[rev - 1].committedAt <= i < |w.client.core.log|
           && w.client.core.log[i].Invalidated?
           && forall k :: k in w.client.core.cache && Affects(w.changes[rev - 1], k)
                ==> w.client.core.cache[k].writtenAt > i
  {
    var w := HappenAll(Start(ttl, concurrency), es);
    ApplicableIsHarmless(Start(ttl, concurrency), es);
    CompleteIffHarmless(Start(ttl, concurrency), es);
    assert Swept(w.client.core, w.changes[rev - 1]);
    var i: nat :| SweptAt(w.client.core, w.changes[rev - 1], i);
  }

  /** While the effect is mounted nothing is asked of the change lists. */
  lemma NoMissedChangeWhileMounted(ttl: int, concurrency: int, es: seq<Happening>, rev: nat)
    requires var w := HappenAll(Start(ttl, concurrency), es);
      !w.cancelled && w.last.Some? && w.first.Some? && w.first.value < rev <= w.last.value
    ensures var w := HappenAll(Start(ttl, concurrency), es);
      rev <= |w.changes| && Swept(w.client.core, w.changes[rev - 1])
  {
    MountedIsApplicable(Start(ttl, concurrency), es);
    ApplicableIsHarmless(Start(ttl, concurrency), es);
    CompleteIffHarmless(Start(ttl, concurrency), es);
  }

  lemma Unroll(w: World, e: Happening, rest: seq<Happening>)
    ensures HappenAll(w, [e] + rest) == HappenAll(Happen(w, e), rest)
  {
    assert ([e] + rest)[1..] == rest;
  }

  /** `lastRevision` itself is not monotone: a check that read an older revision can finish later. */
  lemma LastRevisionCanRegress()
    ensures exists es, e ::
      var w := HappenAll(Start(60000, 2), es);
      w.last.Some? && Happen(w, e).last.Some? && Happen(w, e).last.value < w.last.value
  {
    var e0, e1, e2, e3 := Commit(["tender:recent"]), StartCheck, StartCheck, RevisionArrives(0, 1);
    var w0 := Start(60000, 2);
    var w1 := Happen(w0, e0);
    var w2 := Happen(w1, e1);
    var w3 := Happen(w2, e2);
    Unroll(w0, e0, [e1] + ([e2] + ([e3] + [])));
    Unroll(w1, e1, [e2] + ([e3] + []));
    Unroll(w2, e2, [e3] + []);
    Unroll(w3, e3, []);
    var w := HappenAll(w0, [e0] + ([e1] + ([e2] + ([e3] + []))));
    assert w == Happen(w3, e3) && w.last == Some(1);
    assert Happen(w, RevisionArrives(1, 0)).last == Some(0);
  }

  /** An answer older than what has been reconciled since. */
  predicate IsStaleAnswer(w: World, e: Happening) {
    w.last.Some? &&
    match e
    case RevisionArrives(i, revision) =>
      !w.cancelled && i < |w.checks| && w.checks[i].Asking? && revision <= |w.changes| && revision < w.last.value
    case ChangesFail(i) => i < |w.checks| && w.checks[i].Reading? && w.checks[i].target < w.last.value
    case ChangesArrive(i, upTo) =>
      upTo <= |w.changes| && i < |w.checks| && w.checks[i].Reading? && w.checks[i].target < w.last.value
    case _ => false
  }

  /** It goes back exactly when such an answer is taken, and what was reconciled stays reconciled. */
  lemma RegressesIffStaleAnswer(w: World, e: Happening)
    ensures w.last.Some? && Happen(w, e).last.Some? && Happen(w, e).last.value < w.last.value <==> IsStaleAnswer(w, e)
    ensures w.last.Some? && CoveredTo(w, w.last.value) ==> CoveredTo(Happen(w, e), w.last.value)
  {
    if w.last.Some? && CoveredTo(w, w.last.value) {
      HappenNewer(w, e);
      CoveredCarries(w, Happen(w, e), w.last.value);
    }
  }

  lemma HappenNewer(w: World, e: Happening)
    ensures NewerEntries(w.client.core, Happen(w, e).client.core)
  {
    if e.ClientActs? { DoNewer(w.client, e.call); }
  }

  /** Reconciling clears every entry the changes in question affect exactly when the effect is not
      cancelled, or the list can be applied, or there is nothing to clear. */
  lemma ReconcileClearsIff(
    s: Client, changes: seq<Change>, listing: Option<seq<Listed>>, from: nat, target: nat, upTo: nat, cancelled: bool)
    requires upTo <= |changes| && from < target <= |changes|
    requires listing.Some? ==> listing.value == Listing(changes, from, upTo)
    ensures NothingAffected(Reconcile(s, listing, from, target, cancelled).core.cache, changes, from, target)
      <==> !cancelled || (listing.Some? && Scoped(listing.value, from, target))
           || NothingAffected(s.core.cache, changes, from, target)
  {
    if listing.Some? && Scoped(listing.value, from, target) {
      forall j, k | from <= j < target && k in s.core.cache && Affects(changes[j], k)
        ensures k !in Reconcile(s, listing, from, target, cancelled).core.cache
      {
        ScopedCovers(changes, from, target, upTo, j, k);
      }
    }
  }

  /** When a listing can be applied: it is not empty, reaches the target, and names some context. The
      server lists the changes after `from` it held when asked, 500 at most. */
  lemma ScopedIff(changes: seq<Change>, from: nat, upTo: nat, target: nat)
    requires upTo <= |changes|
    ensures var end := if upTo > from + 500 then from + 500 else upTo;
      Scoped(Listing(changes, from, upTo), from, target)
      <==> from < end && target <= end && exists j :: from <= j < end && changes[j].contexts != []
  {
    var listing := Listing(changes, from, upTo);
    HighestOfListing(listing, from);
    ContextsEmptyIff(listing);
    if j :| 0 <= j < |listing| && listing[j].contexts != [] {
      assert changes[from + j].contexts != [];
    }
    if j :| from <= j < from + |listing| && changes[j].contexts != [] {
      assert listing[j - from].contexts != [];
    }
  }

  lemma {:induction false} ContextsEmptyIff(listing: seq<Listed>)
    ensures AllContexts(listing) != [] <==> exists j :: 0 <= j < |listing| && listing[j].contexts != []
  {
    if listing != [] {
      var short := listing[..|listing| - 1];
      ContextsEmptyIff(short);
      if j :| 0 <= j < |short| && short[j].contexts != [] { assert listing[j].contexts != []; }
    }
  }

  ghost predicate ListedFor(listing: seq<Listed>, key: QueryKey) {
    exists j :: 0 <= j < |listing| && LabelledIn(listing[j].contexts, key)
  }

  lemma ListedForOneMore(short: seq<Listed>, last: Listed, key: QueryKey)
    ensures ListedFor(short + [last], key) <==> ListedFor(short, key) || LabelledIn(last.contexts, key)
  {
    var all := short + [last];
    assert all[|short|] == last;
    if ListedFor(short, key) {
      var j :| 0 <= j < |short| && LabelledIn(short[j].contexts, key);
      assert LabelledIn(all[j].contexts, key);
    }
  }

  lemma {:induction false} LabelledInAll(listing: seq<Listed>, key: QueryKey)
    ensures LabelledIn(AllContexts(listing), key) <==> ListedFor(listing, key)
  {
    if listing != [] {
      var short, last := listing[..|listing| - 1], listing[|listing| - 1];
      LabelledInAll(short, key);
      assert listing == short + [last];
      assert AllContexts(listing) == AllContexts(short) + last.contexts;
      assert LabelledIn(AllContexts(listing), key)
        <==> LabelledIn(AllContexts(short), key) || LabelledIn(last.contexts, key)
        by { LabelledInBoth(AllContexts(short), last.contexts, key); }
      assert ListedFor(listing, key) <==> ListedFor(short, key) || LabelledIn(last.contexts, key)
        by { ListedForOneMore(short, last, key); }
    }
  }

  lemma LabelledInBoth(a: seq<string>, b: seq<string>, key: QueryKey)
    ensures LabelledIn(a + b, key) <==> LabelledIn(a, key) || LabelledIn(b, key)
  {
    if i :| 0 <= i < |a| && Labels(a[i], key) { assert (a + b)[i] == a[i]; }
    if i :| 0 <= i < |b| && Labels(b[i], key) { assert (a + b)[|a| + i] == b[i]; }
    if i :| 0 <= i < |a + b| && Labels((a + b)[i], key) {
      if i < |a| { assert Labels(a[i], key); } else { assert Labels(b[i - |a|], key); }
    }
  }

  /** Applying a listing removes no more and no less than the entries its changes affect. */
  lemma ScopedRemovesExactly(
    s: Client, changes: seq<Change>, from: nat, target: nat, upTo: nat, cancelled: bool, key: QueryKey)
    requires upTo <= |changes| && Scoped(Listing(changes, from, upTo), from, target)
    ensures var end := if upTo > from + 500 then from + 500 else upTo;
      key in Reconcile(s, Some(Listing(changes, from, upTo)), from, target, cancelled).core.cache
      <==> key in s.core.cache && forall j :: from <= j < end ==> !Affects(changes[j], key)
  {
    var listing := Listing(changes, from, upTo);
    if key in s.core.cache {
      AffectedIffLabelled(s.core.cache, AllContexts(listing), key);
      LabelledInAll(listing, key);
      ListedForIsAffected(changes, from, upTo, key);
    }
  }

  lemma ListedForIsAffected(changes: seq<Change>, from: nat, upTo: nat, key: QueryKey)
    requires upTo <= |changes|
    ensures var end := if upTo > from + 500 then from + 500 else upTo;
      ListedFor(Listing(changes, from, upTo), key) <==> exists j :: from <= j < end && Affects(changes[j], key)
  {
    var listing, end := Listing(changes, from, upTo), if upTo > from + 500 then from + 500 else upTo;
    forall j | 0 <= j < |listing| ensures LabelledIn(listing[j].contexts, key) <==> Affects(changes[from + j], key) {
      assert listing[j].contexts == changes[from + j].contexts;
    }
    if ListedFor(listing, key) {
      var j :| 0 <= j < |listing| && LabelledIn(listing[j].contexts, key);
      assert from <= from + j < end && Affects(changes[from + j], key);
    }
    forall j | from <= j < end && Affects(changes[j], key) ensures ListedFor(listing, key) {
      assert LabelledIn(listing[j - from].contexts, key);
    }
  }

  ghost predicate NothingAffected(cache: map<QueryKey, CacheEntry>, changes: seq<Change>, from: nat, target: nat)
    requires from <= target <= |changes|
  {
    forall j, k :: from <= j < target && k in cache ==> !Affects(changes[j], k)
  }

  lemma WorkflowEnds(workflow: string)
    requires workflow in WORKFLOWS
    ensures |workflow| > 0 && 'a' <= workflow[|workflow| - 1] <= 'z'
  {
  }

  /** The label of a context a caller asks for names it. */
  lemma LabelIsClean(context: Context)
    ensures LabelledIn([ContextId(KeyOf(context))], KeyOf(context))
  {
    var id, workflow := ContextId(KeyOf(context)), NormalWorkflow(context.workflow);
    WorkflowEnds(workflow);
    assert 'a' <= id[0] <= 'z';
    assert id[|id| - 1] == workflow[|workflow| - 1];
    LetterIsNoSpace(id[0]);
    LetterIsNoSpace(id[|id| - 1]);
    TrimmedStays(id);
    LabelIsContextId(id, KeyOf(context));
    assert [id][0] == id;
  }

  /** A loaded list is in the cache from the second journal entry on. */
  function LoadedOnce(key: QueryKey, payload: Payload): Client {
    Do(Do(Fresh(60000, 2), DoLoad(key)), DoDeliver(0, Delivered(payload), 0, true))
  }

  lemma LoadedOnceIs(key: QueryKey, payload: Payload)
    ensures var c := LoadedOnce(key, payload).core;
      |c.log| == 2 && key in c.cache && c.cache[key] == CacheEntry(payload, 0, 0, 1)
  {
    var s := Do(Fresh(60000, 2), DoLoad(key));
    assert Open(s.core, 0) && Accepted(s.core, 0, Delivered(payload));
    assert ForRequest(s.waiters, 0) == [];
  }

  /** The moment a second check waits for the revision: a list was loaded, then a change affecting
      it was committed, after the first check had seen revision 0. */
  function Awaiting(client: Client, change: Change): World {
    World(client, [change], Some(0), Some(0), [Over, Asking], false)
  }

  function Beginning(key: QueryKey, payload: Payload): seq<Happening> {
    [StartCheck, RevisionArrives(0, 0), ClientActs(DoLoad(key)), ClientActs(DoDeliver(0, Delivered(payload), 0, true)),
     Commit([ContextId(key)]), StartCheck]
  }

  lemma BeginningLeadsThere(key: QueryKey, payload: Payload)
    ensures HappenAll(Start(60000, 2), Beginning(key, payload))
         == Awaiting(LoadedOnce(key, payload), Change([ContextId(key)], 2))
  {
    var es := Beginning(key, payload);
    var w0 := Start(60000, 2);
    var w1 := w0.(checks := [Asking]);
    var w2 := w0.(last := Some(0), first := Some(0), checks := [Over]);
    var w3 := w2.(client := Do(w2.client, DoLoad(key)));
    var w4 := w2.(client := LoadedOnce(key, payload));
    var w5 := w4.(changes := [Change([ContextId(key)], 2)]);
    assert Happen(w0, es[0]) == w1 && Happen(w1, es[1]) == w2 && Happen(w2, es[2]) == w3 && Happen(w3, es[3]) == w4;
    assert Happen(w4, es[4]) == w5 by { LoadedOnceIs(key, payload); }
    HappenAllOnce(w0, es);
    HappenAllOnce(w1, es[1..]);
    HappenAllOnce(w2, es[2..]);
    HappenAllOnce(w3, es[3..]);
    HappenAllOnce(w4, es[4..]);
    HappenAllOnce(w5, es[5..]);
    assert es[6..] == [];
  }

  lemma HappenAllOnce(w: World, es: seq<Happening>)
    requires es != []
    ensures HappenAll(w, es) == HappenAll(Happen(w, es[0]), es[1..])
  {
  }

  lemma SecondCheckSkips(client: Client, change: Change)
    ensures HappenAll(Awaiting(client, change), [RevisionArrives(1, 1), Cancel, ChangesFail(1)])
         == Awaiting(client, change).(last := Some(1), checks := [Over, Over], cancelled := true)
  {
    var w := Awaiting(client, change);
    var reading := w.(checks := [Over, Reading(0, 1)]);
    Unroll(w, RevisionArrives(1, 1), [Cancel, ChangesFail(1)]);
    Unroll(reading, Cancel, [ChangesFail(1)]);
    Unroll(reading.(cancelled := true), ChangesFail(1), []);
    assert [RevisionArrives(1, 1)] + [Cancel, ChangesFail(1)] == [RevisionArrives(1, 1), Cancel, ChangesFail(1)];
    assert [Cancel] + [ChangesFail(1)] == [Cancel, ChangesFail(1)];
    assert [ChangesFail(1)] + [] == [ChangesFail(1)];
  }

  /** What goes wrong otherwise, for any context and payload: the list is loaded, a change
      affecting it is committed, a check learns of it, the effect is cancelled and the change list
      fails. `lastRevision` moves past the change and the outdated list is still cached. */
  lemma CancelledCheckCanSkip(context: Context, payload: Payload)
    ensures var es := Beginning(KeyOf(context), payload) + [RevisionArrives(1, 1), Cancel, ChangesFail(1)];
      var w, key := HappenAll(Start(60000, 2), es), KeyOf(context);
      && w.cancelled && w.first == Some(0) && w.last == Some(1) && |w.changes| == 1
      && Affects(w.changes[0], key)
      && key in w.client.core.cache && w.client.core.cache[key].payload == payload
      && w.client.core.cache[key].writtenAt < w.changes[0].committedAt
      && !Swept(w.client.core, w.changes[0])
  {
    var key := KeyOf(context);
    var client, change := LoadedOnce(key, payload), Change([ContextId(key)], 2);
    BeginningLeadsThere(key, payload);
    SecondCheckSkips(client, change);
    HappenAllAppend(Start(60000, 2), Beginning(key, payload), [RevisionArrives(1, 1), Cancel, ChangesFail(1)]);
    LoadedOnceIs(key, payload);
    LabelIsClean(context);
  }

  lemma {:induction false} HappenAllAppend(w: World, a: seq<Happening>, b: seq<Happening>)
    ensures HappenAll(w, a + b) == HappenAll(HappenAll(w, a), b)
    decreases |a|
  {
    if a == [] {
      assert a + b == b;
    } else {
      assert (a + b)[1..] == a[1..] + b;
      HappenAllAppend(Happen(w, a[0]), a[1..], b);
    }
  }
}
