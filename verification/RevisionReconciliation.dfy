/** Revision polling in the workspace: overlapping asynchronous checks compare the server's
    revision with the last one reconciled, and invalidate the contexts the journalled changes
    affect, or everything when the journal cannot account for all of them. */
module RevisionReconciliation {
  import opened Text
  import opened QueryContext
  import opened RequestCore
  import opened DataClient
  import opened ClientInvariants
  import opened ProcurementClient

  /** A committed change. Revision numbers count commits from 1; `committedAt` is the position the
      client's journal had reached. */
  datatype Change = Change(contexts: seq<string>, committedAt: nat)

  /** A change as the server lists it. */
  datatype Listed = Listed(revision: nat, contexts: seq<string>)

  /** One run of `checkRevision`: waiting for the revision, waiting for the change list, over. */
  datatype Check = Asking | Reading(from: nat, target: nat) | Over

  datatype World = World(
    client: Client, changes: seq<Change>, last: Option<nat>, first: Option<nat>, checks: seq<Check>, cancelled: bool)

  const PAGE_LIMIT := 500

  /** The server's answer to "changes since `from`", read when it held `upTo` changes: the oldest
      PAGE_LIMIT of them in revision order. */
  function Listing(changes: seq<Change>, from: nat, upTo: nat): seq<Listed>
    requires upTo <= |changes|
  {
    var end := if upTo > from + PAGE_LIMIT then from + PAGE_LIMIT else upTo;
    if end <= from then []
    else seq(end - from, i requires 0 <= i < end - from => Listed(from + i + 1, changes[from + i].contexts))
  }

  function Highest(listing: seq<Listed>, from: nat): nat {
    if listing == [] then from
    else
      var rest := Highest(listing[..|listing| - 1], from);
      if listing[|listing| - 1].revision > rest then listing[|listing| - 1].revision else rest
  }

  function AllContexts(listing: seq<Listed>): seq<string> {
    if listing == [] then [] else AllContexts(listing[..|listing| - 1]) + listing[|listing| - 1].contexts
  }

  /** Whether the listed changes can be applied context by context. */
  predicate Scoped(listing: seq<Listed>, from: nat, target: nat) {
    listing != [] && Highest(listing, from) >= target && AllContexts(listing) != []
  }

  function InvalidateContexts(s: Client, contexts: seq<string>): Client {
    InvalidateKeys(s, AffectedKeys(s.core.cache, CleanContexts(contexts)))
  }

  /** The client once the change list (none if the request failed) has been dealt with. */
  function Reconcile(s: Client, listing: Option<seq<Listed>>, from: nat, target: nat, cancelled: bool): Client {
    if listing.Some? && Scoped(listing.value, from, target) then InvalidateContexts(s, AllContexts(listing.value))
    else if cancelled then s
    else InvalidateAll(s)
  }

  datatype Happening =
    | ClientActs(call: Call)
    | Commit(contexts: seq<string>)
    | StartCheck
    | RevisionFails(check: nat)
    | RevisionArrives(check: nat, revision: nat)
    | ChangesFail(check: nat)
    | ChangesArrive(check: nat, upTo: nat)
    | Cancel

  function SetLast(w: World, revision: nat): World {
    w.(last := Some(revision), first := if w.first.Some? then w.first else Some(revision))
  }

  function Finish(w: World, check: nat, listing: Option<seq<Listed>>): World
    requires check < |w.checks| && w.checks[check].Reading?
  {
    var c := w.checks[check];
    SetLast(w.(client := Reconcile(w.client, listing, c.from, c.target, w.cancelled),
               checks := w.checks[check := Over]), c.target)
  }

  function Learn(w: World, check: nat, revision: nat): World
    requires check < |w.checks|
  {
    if w.cancelled then w.(checks := w.checks[check := Over])
    else if w.last.Some? && revision > w.last.value then
      w.(checks := w.checks[check := Reading(w.last.value, revision)])
    else SetLast(w.(checks := w.checks[check := Over]), revision)
  }

  function Happen(w: World, e: Happening): World {
    match e
    case ClientActs(a) => w.(client := Do(w.client, a))
    case Commit(contexts) => w.(changes := w.changes + [Change(contexts, |w.client.core.log|)])
    case StartCheck => if w.cancelled then w else w.(checks := w.checks + [Asking])
    case RevisionFails(i) =>
      if i < |w.checks| && w.checks[i].Asking? then w.(checks := w.checks[i := Over]) else w
    case RevisionArrives(i, revision) =>
      if i < |w.checks| && w.checks[i].Asking? && revision <= |w.changes| then Learn(w, i, revision) else w
    case ChangesFail(i) =>
      if i < |w.checks| && w.checks[i].Reading? then Finish(w, i, None) else w
    case ChangesArrive(i, upTo) =>
      if i < |w.checks| && w.checks[i].Reading? && upTo <= |w.changes|
      then Finish(w, i, Some(Listing(w.changes, w.checks[i].from, upTo))) else w
    case Cancel => w.(cancelled := true)
  }

  function HappenAll(w: World, es: seq<Happening>): World
    decreases |es|
  {
    if es == [] then w else HappenAll(Happen(w, es[0]), es[1..])
  }

  function Start(ttl: int, concurrency: int): World {
    World(Fresh(ttl, concurrency), [], None, None, [], false)
  }

  // ----- Sweeping -----

  ghost predicate Affects(change: Change, key: QueryKey) {
    LabelledIn(change.contexts, key)
  }

  /** An invalidation logged after the change was committed removed every entry it affects: what
      is cached for its contexts now was written later. */
  ghost predicate SweptAt(c: Core, change: Change, i: nat) {
    && change.committedAt <= i < |c.log|
    && c.log[i].Invalidated?
    && forall k :: k in c.cache && Affects(change, k) ==> c.cache[k].writtenAt > i
  }

  ghost predicate Swept(c: Core, change: Change) {
    exists i: nat :: SweptAt(c, change, i)
  }

  /** Entries of `d` are entries of `c` or newer than `c`'s journal. */
  ghost predicate NewerEntries(c: Core, d: Core) {
    && c.log <= d.log
    && forall k :: k in d.cache ==>
         (k in c.cache && d.cache[k].writtenAt == c.cache[k].writtenAt) || d.cache[k].writtenAt >= |c.log|
  }

  lemma {:induction false} RunNewer(c: Core, actions: seq<Action>)
    ensures NewerEntries(c, Run(c, actions))
    decreases |actions|
  {
    if actions != [] {
      assert NewerEntries(c, Step(c, actions[0]));
      RunNewer(Step(c, actions[0]), actions[1..]);
    }
  }

  lemma SweptCarries(c: Core, d: Core, change: Change)
    requires Swept(c, change) && NewerEntries(c, d)
    ensures Swept(d, change)
  {
    var i: nat :| SweptAt(c, change, i);
    assert SweptAt(d, change, i);
  }

  lemma DoNewer(s: Client, a: Call)
    ensures NewerEntries(s.core, Do(s, a).core)
  {
    DoLeads(s, a);
    var actions :| Run(s.core, actions) == Do(s, a).core;
    RunNewer(s.core, actions);
  }

  // ----- The change list -----

  lemma {:induction false} HighestOfListing(listing: seq<Listed>, from: nat)
    requires forall i :: 0 <= i < |listing| ==> listing[i].revision == from + i + 1
    ensures Highest(listing, from) == from + |listing|
  {
    if listing != [] { HighestOfListing(listing[..|listing| - 1], from); }
  }

  lemma {:induction false} ContextsIncluded(listing: seq<Listed>, i: nat, context: string)
    requires i < |listing| && context in listing[i].contexts
    ensures context in AllContexts(listing)
  {
    if i < |listing| - 1 { ContextsIncluded(listing[..|listing| - 1], i, context); }
  }

  /** A scoped application covers every change after `from` up to `target`. */
  lemma ScopedCovers(changes: seq<Change>, from: nat, target: nat, upTo: nat, j: nat, key: QueryKey)
    requires upTo <= |changes| && from <= j < target <= |changes|
    requires Scoped(Listing(changes, from, upTo), from, target)
    requires Affects(changes[j], key)
    ensures ContextId(key) in CleanContexts(AllContexts(Listing(changes, from, upTo)))
  {
    var listing := Listing(changes, from, upTo);
    assert j - from < |listing| by { HighestOfListing(listing, from); }
    assert listing[j - from].contexts == changes[j].contexts;
    var i :| 0 <= i < |changes[j].contexts| && Labels(changes[j].contexts[i], key);
    ContextsIncluded(listing, j - from, changes[j].contexts[i]);
    LabelIsContextId(changes[j].contexts[i], key);
  }

  // ----- Invariant -----

  /** Every change after the first observed revision and up to `n` has been swept; the change at
      index j has revision j + 1. */
  ghost predicate CoveredTo(w: World, n: nat) {
    w.first.Some? && n <= |w.changes|
    && forall j: nat :: w.first.value <= j < n ==> Swept(w.client.core, w.changes[j])
  }

  /** Nothing reconciled so far was missed. */
  ghost predicate Complete(w: World) {
    w.last.Some? ==> CoveredTo(w, w.last.value)
  }

  ghost predicate CheckOk(w: World, i: nat)
    requires i < |w.checks|
  {
    w.checks[i].Reading? ==> CoveredTo(w, w.checks[i].from) && w.checks[i].target <= |w.changes|
  }

  ghost predicate Inv(w: World) {
    && (forall j :: 0 <= j < |w.changes| ==> w.changes[j].committedAt <= |w.client.core.log|)
    && (w.last.Some? <==> w.first.Some?)
    && Complete(w)
    && forall i: nat :: i < |w.checks| ==> CheckOk(w, i)
  }

  lemma CoveredCarries(w: World, v: World, n: nat)
    requires CoveredTo(w, n)
    requires v.first == w.first && w.changes <= v.changes && NewerEntries(w.client.core, v.client.core)
    ensures CoveredTo(v, n)
  {
    forall j: nat | v.first.value <= j < n ensures Swept(v.client.core, v.changes[j]) {
      SweptCarries(w.client.core, v.client.core, w.changes[j]);
    }
  }

  /** Moving on with the same first revision: the checks that go on reading stay in order. */
  lemma ChecksCarry(w: World, v: World)
    requires Inv(w) && v.first == w.first && w.changes <= v.changes && NewerEntries(w.client.core, v.client.core)
    requires forall i: nat :: i < |v.checks| && v.checks[i].Reading? ==>
      (i < |w.checks| && w.checks[i] == v.checks[i])
      || (w.last.Some? && v.checks[i].from == w.last.value && v.checks[i].target <= |w.changes|)
    ensures forall i: nat :: i < |v.checks| ==> CheckOk(v, i)
  {
    forall i: nat | i < |v.checks| ensures CheckOk(v, i) {
      if v.checks[i].Reading? {
        if i < |w.checks| && w.checks[i] == v.checks[i] { assert CheckOk(w, i); }
        CoveredCarries(w, v, v.checks[i].from);
      }
    }
  }

  /** Client steps, commits and starting or dropping a check. */
  lemma QuietKeepsInv(w: World, v: World)
    requires Inv(w) && v.first == w.first && v.last == w.last
    requires w.changes <= v.changes && NewerEntries(w.client.core, v.client.core)
    requires forall j :: |w.changes| <= j < |v.changes| ==> v.changes[j].committedAt <= |v.client.core.log|
    requires forall i: nat :: i < |v.checks| && v.checks[i].Reading? ==> i < |w.checks| && w.checks[i] == v.checks[i]
    ensures Inv(v)
  {
    if v.last.Some? { CoveredCarries(w, v, v.last.value); }
    ChecksCarry(w, v);
  }

  lemma LearnKeepsInv(w: World, check: nat, revision: nat)
    requires Inv(w) && check < |w.checks| && revision <= |w.changes|
    ensures Inv(Learn(w, check, revision))
  {
    var v := Learn(w, check, revision);
    if w.last.Some? {
      CoveredCarries(w, v, w.last.value);
      ChecksCarry(w, v);
    } else {
      forall i: nat | i < |v.checks| ensures CheckOk(v, i) { if i != check { assert CheckOk(w, i); } }
    }
  }

  /** A list that can be applied, and any answer while the effect is mounted, sweeps each change
      the check asked about. */
  lemma ReconcileSweeps(
    w: World, listing: Option<seq<Listed>>, from: nat, target: nat, upTo: nat, cancelled: bool, j: nat)
    requires upTo <= |w.changes| && from <= j < target <= |w.changes|
    requires listing.Some? ==> listing.value == Listing(w.changes, from, upTo)
    requires !cancelled || (listing.Some? && Scoped(listing.value, from, target))
    requires w.changes[j].committedAt <= |w.client.core.log|
    ensures Swept(Reconcile(w.client, listing, from, target, cancelled).core, w.changes[j])
  {
    var d := Reconcile(w.client, listing, from, target, cancelled).core;
    var change := w.changes[j];
    forall k | k in w.client.core.cache && Affects(change, k) ensures k !in d.cache {
      if listing.Some? && Scoped(listing.value, from, target) {
        ScopedCovers(w.changes, from, target, upTo, j, k);
      }
    }
    assert SweptAt(d, change, |w.client.core.log|);
  }

  // ----- The effect's own code -----

  /** The state in which a revision reaches check `i`. */
  ghost predicate Learning(w: World, i: nat, cancelled: bool, last: Option<nat>) {
    i < |w.checks| && w.cancelled == cancelled && w.last == last
  }

  /** The state in which a change list reaches check `i`. */
  ghost predicate Facing(w: World, i: nat, check: Check, cancelled: bool, client: Client) {
    i < |w.checks| && w.checks[i] == check && w.cancelled == cancelled && w.client == client
  }

  /** The two continuations of `checkRevision`, working on the effect's variables and the client. */
  class RevisionEffect {
    var lastRevision: Option<nat>
    var cancelled: bool
    const client: ProcurementDataClient

    constructor (client: ProcurementDataClient)
      ensures this.client == client && lastRevision == None && !cancelled
    {
      this.client := client;
      lastRevision := None;
      cancelled := false;
    }

    /** The revision has arrived: either a change list is wanted, or the check is over. */
    method OnRevision(revision: nat) returns (next: Check)
      modifies this
      ensures cancelled == old(cancelled)
      ensures old(cancelled) ==> next == Over && lastRevision == old(lastRevision)
      ensures !old(cancelled) && old(lastRevision).Some? && revision > old(lastRevision).value
        ==> next == Reading(old(lastRevision).value, revision) && lastRevision == old(lastRevision)
      ensures !old(cancelled) && !(old(lastRevision).Some? && revision > old(lastRevision).value)
        ==> next == Over && lastRevision == Some(revision)
      ensures forall w: World, i: nat :: Learning(w, i, old(cancelled), old(lastRevision)) ==>
          Learn(w, i, revision).checks[i] == next && Learn(w, i, revision).last == lastRevision
    {
      if cancelled { return Over; }
      if lastRevision.Some? && revision > lastRevision.value {
        return Reading(lastRevision.value, revision);
      }
      lastRevision := Some(revision);
      next := Over;
    }

    /** `applyScopedChanges` once its response is there; none stands for a failed request. */
    method ApplyScopedChanges(listing: Option<seq<Listed>>, from: nat, target: nat) returns (applied: bool)
      modifies client
      ensures applied <==> listing.Some? && Scoped(listing.value, from, target)
      ensures client.View() == if applied
        then InvalidateContexts(old(client.View()), AllContexts(listing.value)) else old(client.View())
    {
      if listing.None? { return false; }
      var changes := listing.value;
      var highest := from;
      var contexts := [];
      for i := 0 to |changes|
        invariant highest == Highest(changes[..i], from)
        invariant contexts == AllContexts(changes[..i])
      {
        assert changes[..i + 1][..i] == changes[..i];
        if changes[i].revision > highest { highest := changes[i].revision; }
        contexts := contexts + changes[i].contexts;
      }
      assert changes[..|changes|] == changes;
      if changes == [] || highest < target { return false; }
      if contexts == [] { return false; }
      var _ := client.InvalidateAffectedContexts(contexts);
      applied := true;
    }

    method OnChanges(listing: Option<seq<Listed>>, from: nat, target: nat)
      modifies this, client
      ensures cancelled == old(cancelled) && lastRevision == Some(target)
      ensures client.View() == Reconcile(old(client.View()), listing, from, target, old(cancelled))
      ensures forall w: World, i: nat :: Facing(w, i, Reading(from, target), old(cancelled), old(client.View())) ==>
          Finish(w, i, listing).client == client.View() && Finish(w, i, listing).last == lastRevision
    {
      var scopedApplied := ApplyScopedChanges(listing, from, target);
      if !scopedApplied && !cancelled {
        client.InvalidateEverything();
      }
      lastRevision := Some(target);
    }
  }
}
