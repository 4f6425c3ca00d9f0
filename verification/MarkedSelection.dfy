/** Optimistic selection in a list that keeps its rows and only marks them. */
module MarkedSelection {
  import opened OptimisticSelection

  /** One happening while a list other than the recommended one is on screen and is not reloaded. */
  function MarkStep(s: Listing, step: Step): Listing {
    if step.Click? then (if CanBegin(s, step.id) then Begin(s, step.id, false) else s) else Take(s, step)
  }

  function MarkAll(s: Listing, steps: seq<Step>): Listing
    decreases |steps|
  {
    if steps == [] then s else MarkAll(MarkStep(s, steps[0]), steps[1..])
  }

  predicate HasSucceeded(s: Listing, id: nat) {
    exists j :: 0 <= j < |s.succeeded| && s.succeeded[j].id == id
  }

  predicate Marked(s: Listing, id: nat) { Selecting(s.pending, id) || HasSucceeded(s, id) }

  /** The row as it is shown. */
  function ShownAs(s: Listing, row: Row): Row {
    if Marked(s, row.id) then row.(stage := "selected") else row
  }

  ghost predicate RowsShown(s: Listing, original: seq<Row>) {
    && |s.rows| == |original|
    && forall i :: 0 <= i < |original| ==> s.rows[i] == ShownAs(s, original[i])
  }

  ghost predicate PendingOk(s: Listing, original: seq<Row>) {
    && (forall j :: 0 <= j < |s.pending| ==> !s.pending[j].removed && s.pending[j].row in original)
    && (forall j :: 0 <= j < |s.pending| ==> !HasSucceeded(s, s.pending[j].row.id))
    && (forall i, j :: 0 <= i < j < |s.pending| ==> s.pending[i].row.id != s.pending[j].row.id)
  }

  ghost predicate MarkedInv(s: Listing, original: seq<Row>, count: nat) {
    s.count == count && RowsShown(s, original) && PendingOk(s, original)
  }

  lemma FoundAt(s: Listing, original: seq<Row>, i: nat)
    requires DistinctIds(original) && RowsShown(s, original) && i < |original|
    ensures IndexOf(s.rows, original[i].id) == i
  {
    IndexOfIs(s.rows, original[i].id);
    assert s.rows[i].id == original[i].id;
    forall j | 0 <= j < |original| && j != i ensures s.rows[j].id != original[i].id {
      assert s.rows[j].id == original[j].id;
    }
  }

  lemma MarkKeeps(s: Listing, original: seq<Row>, count: nat, id: nat)
    requires DistinctIds(original) && MarkedInv(s, original, count) && CanBegin(s, id)
    ensures MarkedInv(Begin(s, id, false), original, count)
  {
    var i, t := IndexOf(s.rows, id), Begin(s, id, false);
    IndexOfIs(s.rows, id);
    assert s.rows[i] == ShownAs(s, original[i]) == original[i];
    var p := Pending(original[i], i, false);
    assert t.pending == s.pending + [p];
    forall k ensures Selecting(t.pending, k) <==> Selecting(s.pending, k) || k == id { SelectingWith(s.pending, p, k); }
    forall j | 0 <= j < |original| ensures t.rows[j] == ShownAs(t, original[j]) {
      assert s.rows[j] == ShownAs(s, original[j]);
    }
  }

  lemma SelectingWith(pending: seq<Pending>, p: Pending, k: nat)
    ensures Selecting(pending + [p], k) <==> Selecting(pending, k) || k == p.row.id
  {
    var all := pending + [p];
    assert all[|pending|] == p;
    if Selecting(pending, k) {
      var j :| 0 <= j < |pending| && pending[j].row.id == k;
      assert all[j].row.id == k;
    }
  }

  lemma SelectingAfter(pending: seq<Pending>, i: nat, k: nat)
    requires i < |pending|
    requires forall a, b :: 0 <= a < b < |pending| ==> pending[a].row.id != pending[b].row.id
    ensures Selecting(Dropped(pending, i), k) <==> Selecting(pending, k) && k != pending[i].row.id
  {
    var rest := Dropped(pending, i);
    assert forall b :: 0 <= b < |rest| ==> rest[b] == pending[if b < i then b else b + 1];
    if Selecting(pending, k) && k != pending[i].row.id {
      var j :| 0 <= j < |pending| && pending[j].row.id == k;
      assert rest[if j < i then j else j - 1] == pending[j];
    }
  }

  lemma DroppedOk(s: Listing, t: Listing, original: seq<Row>, i: nat)
    requires PendingOk(s, original) && i < |s.pending| && t.pending == Dropped(s.pending, i)
    requires forall k :: HasSucceeded(t, k) ==> HasSucceeded(s, k) || k == s.pending[i].row.id
    ensures PendingOk(t, original)
  {
    assert forall b :: 0 <= b < |t.pending| ==> t.pending[b] == s.pending[if b < i then b else b + 1];
  }

  lemma AcceptKeeps(s: Listing, original: seq<Row>, count: nat, i: nat)
    requires DistinctIds(original) && MarkedInv(s, original, count) && i < |s.pending|
    ensures MarkedInv(Succeed(s, i), original, count)
  {
    var t, row := Succeed(s, i), s.pending[i].row;
    forall k ensures HasSucceeded(t, k) <==> HasSucceeded(s, k) || k == row.id {
      assert t.succeeded[|s.succeeded|] == row;
      if HasSucceeded(s, k) {
        var j :| 0 <= j < |s.succeeded| && s.succeeded[j].id == k;
        assert t.succeeded[j].id == k;
      }
    }
    forall j | 0 <= j < |original| ensures t.rows[j] == ShownAs(t, original[j]) {
      SelectingAfter(s.pending, i, original[j].id);
      assert s.rows[j] == ShownAs(s, original[j]);
      assert s.pending[i].row.id == row.id;
    }
    DroppedOk(s, t, original, i);
  }

  lemma RefuseKeeps(s: Listing, original: seq<Row>, count: nat, i: nat)
    requires DistinctIds(original) && MarkedInv(s, original, count) && i < |s.pending|
    ensures MarkedInv(Fail(s, i), original, count)
  {
    var t, row := Fail(s, i), s.pending[i].row;
    var at :| 0 <= at < |original| && original[at] == row;
    FoundAt(s, original, at);
    assert !HasSucceeded(s, row.id);
    forall j | 0 <= j < |original| ensures t.rows[j] == ShownAs(t, original[j]) {
      SelectingAfter(s.pending, i, original[j].id);
      assert s.rows[j] == ShownAs(s, original[j]);
      assert j != at ==> original[j].id != row.id;
    }
    DroppedOk(s, t, original, i);
  }

  lemma {:induction false} MarkAllKeeps(s: Listing, steps: seq<Step>, original: seq<Row>, count: nat)
    requires DistinctIds(original) && MarkedInv(s, original, count)
    ensures MarkedInv(MarkAll(s, steps), original, count)
    decreases |steps|
  {
    if steps != [] {
      match steps[0] {
        case Click(id) => if CanBegin(s, id) { MarkKeeps(s, original, count, id); }
        case Accept(i) => if i < |s.pending| { AcceptKeeps(s, original, count, i); }
        case Refuse(i) => if i < |s.pending| { RefuseKeeps(s, original, count, i); }
      }
      MarkAllKeeps(MarkStep(s, steps[0]), steps[1..], original, count);
    }
  }

  /** Whatever the interleaving of clicks, answers and refusals, the list holds the original rows in
      their places, exactly the pending and the succeeded ones marked, and the count is untouched.
      So once everything has been refused the list is the original one. */
  lemma MarksFollowSelections(rows: seq<Row>, count: nat, steps: seq<Step>)
    requires DistinctIds(rows)
    ensures var t := MarkAll(Listing(rows, count, [], []), steps);
      && t.count == count && |t.rows| == |rows|
      && (forall i :: 0 <= i < |rows| ==>
            t.rows[i] == if Selecting(t.pending, rows[i].id) || HasSucceeded(t, rows[i].id)
                         then rows[i].(stage := "selected") else rows[i])
      && (t.pending == [] && t.succeeded == [] ==> t.rows == rows)
  {
    MarkAllKeeps(Listing(rows, count, [], []), steps, rows, count);
    var t := MarkAll(Listing(rows, count, [], []), steps);
    forall i | 0 <= i < |rows| ensures t.rows[i] == ShownAs(t, rows[i]) { }
  }

  /** A refusal right after its click restores the whole state, whatever else is pending. */
  lemma MarkThenRefuse(s: Listing, id: nat)
    requires DistinctIds(s.rows) && CanBegin(s, id)
    ensures var t := Begin(s, id, false); Fail(t, |t.pending| - 1) == s
  {
    var t, i := Begin(s, id, false), IndexOf(s.rows, id);
    IndexOfIs(s.rows, id);
    IndexOfIs(t.rows, id);
    assert t.rows[i].id == id;
    assert Dropped(t.pending, |t.pending| - 1) == s.pending;
    assert Mapped(t.rows, id, s.rows[i]) == s.rows;
  }
}
