/** The order of a recommended list under optimistic selection: exactly when refusals keep it. */
module SelectionOrder {
  import opened OptimisticSelection

  /** The rows stand in the order they have in `original`. */
  ghost predicate InOrder(rows: seq<Row>, original: seq<Row>) {
    forall i, j :: 0 <= i < j < |rows| ==> Place(original, rows[i]) < Place(original, rows[j])
  }

  function Place(original: seq<Row>, row: Row): int { IndexOf(original, row.id) }

  ghost predicate Known(rows: seq<Row>, original: seq<Row>) {
    forall i :: 0 <= i < |rows| ==> Place(original, rows[i]) >= 0
  }

  /** How many of the rows on screen were originally before `row`. */
  function Ahead(rows: seq<Row>, original: seq<Row>, row: Row): nat {
    if rows == [] then 0
    else
      var last := if Place(original, rows[|rows| - 1]) < Place(original, row) then 1 else 0;
      Ahead(rows[..|rows| - 1], original, row) + last
  }

  lemma {:induction false} AheadCounts(rows: seq<Row>, original: seq<Row>, row: Row, n: nat)
    requires n <= |rows|
    requires forall j :: 0 <= j < |rows| ==> (Place(original, rows[j]) < Place(original, row) <==> j < n)
    ensures Ahead(rows, original, row) == n
  {
    if rows != [] {
      AheadCounts(rows[..|rows| - 1], original, row, if n == |rows| then n - 1 else n);
    }
  }

  lemma {:induction false} AheadPrefix(rows: seq<Row>, original: seq<Row>, row: Row)
    requires InOrder(rows, original)
    ensures Ahead(rows, original, row) <= |rows|
    ensures forall j :: 0 <= j < |rows| ==>
      (Place(original, rows[j]) < Place(original, row) <==> j < Ahead(rows, original, row))
  {
    if rows != [] {
      AheadPrefix(rows[..|rows| - 1], original, row);
    }
  }

  /** Inserting a row gives an ordered list exactly when the list was ordered and the row lands
      behind the rows originally before it. */
  lemma InsertedInOrderIff(rows: seq<Row>, original: seq<Row>, row: Row, at: nat)
    requires at <= |rows|
    requires forall j :: 0 <= j < |rows| ==> Place(original, rows[j]) != Place(original, row)
    ensures InOrder(Inserted(rows, row, at), original)
      <==> InOrder(rows, original) && at == Ahead(rows, original, row)
  {
    if InOrder(Inserted(rows, row, at), original) {
      InOrderBefore(rows, original, row, at);
      AheadCounts(rows, original, row, at);
    }
    if InOrder(rows, original) && at == Ahead(rows, original, row) {
      AheadPrefix(rows, original, row);
      InsertedIs(rows, row, at);
    }
  }

  lemma InOrderBefore(rows: seq<Row>, original: seq<Row>, row: Row, at: nat)
    requires at <= |rows| && InOrder(Inserted(rows, row, at), original)
    ensures InOrder(rows, original)
    ensures forall j :: 0 <= j < |rows| ==> (Place(original, rows[j]) < Place(original, row) <==> j < at)
  {
    var r := Inserted(rows, row, at);
    InsertedIs(rows, row, at);
    assert forall j :: 0 <= j < |rows| ==> r[if j < at then j else j + 1] == rows[j];
    forall i, j | 0 <= i < j < |rows| ensures Place(original, rows[i]) < Place(original, rows[j]) {
      assert r[if i < at then i else i + 1] == rows[i] && r[if j < at then j else j + 1] == rows[j];
    }
    forall j | 0 <= j < |rows| ensures Place(original, rows[j]) < Place(original, row) <==> j < at {
      assert r[at] == row && r[if j < at then j else j + 1] == rows[j];
    }
  }

  /** Where a refusal puts its row back. */
  function Landing(s: Listing, i: nat): nat
    requires i < |s.pending|
  {
    if s.pending[i].index <= |s.rows| then s.pending[i].index else |s.rows|
  }

  lemma DifferentPlaces(original: seq<Row>, a: Row, b: Row)
    requires Place(original, a) >= 0 && a.id != b.id
    ensures Place(original, a) != Place(original, b)
  {
    IndexOfIs(original, a.id);
    IndexOfIs(original, b.id);
  }

  ghost predicate Absent(rows: seq<Row>, id: nat) {
    forall j :: 0 <= j < |rows| ==> rows[j].id != id
  }

  /** One refusal, in any state: the list is in order afterwards exactly when it was before and the
      row lands behind as many rows as were originally before it and are on screen. */
  lemma RefusalKeepsOrderIff(s: Listing, i: nat, original: seq<Row>)
    requires i < |s.pending| && Absent(s.rows, s.pending[i].row.id) && Known(s.rows, original)
    ensures InOrder(Fail(s, i).rows, original)
      <==> InOrder(s.rows, original) && Landing(s, i) == Ahead(s.rows, original, s.pending[i].row)
  {
    var row := s.pending[i].row;
    IndexOfIs(s.rows, row.id);
    assert Fail(s, i).rows == Inserted(s.rows, row, Landing(s, i));
    forall j | 0 <= j < |s.rows| ensures Place(original, s.rows[j]) != Place(original, row) {
      DifferentPlaces(original, s.rows[j], row);
    }
    InsertedInOrderIff(s.rows, original, row, Landing(s, i));
  }

  // ----- Runs -----

  ghost predicate OrderKept(s: Listing, original: seq<Row>, steps: seq<Step>)
    decreases |steps|
  {
    InOrder(s.rows, original) && (steps != [] ==> OrderKept(Take(s, steps[0]), original, steps[1..]))
  }

  predicate LandsInPlace(s: Listing, original: seq<Row>, step: Step) {
    step.Refuse? && step.which < |s.pending| ==>
      Landing(s, step.which) == Ahead(s.rows, original, s.pending[step.which].row)
  }

  predicate AllLandInPlace(s: Listing, original: seq<Row>, steps: seq<Step>)
    decreases |steps|
  {
    steps != [] ==> LandsInPlace(s, original, steps[0]) && AllLandInPlace(Take(s, steps[0]), original, steps[1..])
  }

  lemma KnownWhenBalanced(s: Listing, original: seq<Row>, total: nat)
    requires Balanced(s, multiset(original), total)
    ensures Known(s.rows, original)
  {
    forall i | 0 <= i < |s.rows| ensures Place(original, s.rows[i]) >= 0 {
      assert s.rows[i] in multiset(s.rows);
      assert s.rows[i] in multiset(original);
      IndexOfIs(original, s.rows[i].id);
    }
  }

  lemma StepKeepsOrderIff(s: Listing, original: seq<Row>, total: nat, step: Step)
    requires Balanced(s, multiset(original), total) && InOrder(s.rows, original)
    ensures InOrder(Take(s, step).rows, original) <==> LandsInPlace(s, original, step)
  {
    match step {
      case Click(id) =>
        if CanBegin(s, id) {
          IndexOfIs(s.rows, id);
          WithoutIdCuts(s.rows, IndexOf(s.rows, id));
        }
      case Accept(i) =>
      case Refuse(i) =>
        if i < |s.pending| {
          KnownWhenBalanced(s, original, total);
          RefusalKeepsOrderIff(s, i, original);
        }
    }
  }

  lemma {:induction false} RunKeepsOrderIff(s: Listing, original: seq<Row>, total: nat, steps: seq<Step>)
    requires Balanced(s, multiset(original), total) && InOrder(s.rows, original)
    ensures OrderKept(s, original, steps) <==> AllLandInPlace(s, original, steps)
    ensures OrderKept(s, original, steps) ==> InOrder(TakeAll(s, steps).rows, original)
    decreases |steps|
  {
    if steps != [] {
      StepKeepsOrderIff(s, original, total, steps[0]);
      if LandsInPlace(s, original, steps[0]) {
        TakeBalanced(s, steps[0], multiset(original), total);
        RunKeepsOrderIff(Take(s, steps[0]), original, total, steps[1..]);
      }
    }
  }

  lemma OwnPlaces(rows: seq<Row>)
    requires DistinctIds(rows)
    ensures forall i :: 0 <= i < |rows| ==> Place(rows, rows[i]) == i
  {
    forall i | 0 <= i < |rows| ensures Place(rows, rows[i]) == i { IndexOfIs(rows, rows[i].id); }
  }

  /** Whatever is clicked, accepted and refused, and in whatever order: the list stays in its
      original order throughout exactly when every refusal lands in place. */
  lemma OrderKeptIff(rows: seq<Row>, count: nat, steps: seq<Step>)
    requires DistinctIds(rows) && |rows| <= count
    ensures OrderKept(Listing(rows, count, [], []), rows, steps)
      <==> AllLandInPlace(Listing(rows, count, [], []), rows, steps)
  {
    OwnPlaces(rows);
    RunKeepsOrderIff(Listing(rows, count, [], []), rows, count, steps);
  }

  // ----- Same rows in the same order -----

  lemma SameFirst(a: seq<Row>, b: seq<Row>, original: seq<Row>)
    requires InOrder(a, original) && InOrder(b, original) && multiset(a) == multiset(b) && a != [] && b != []
    ensures a[0] == b[0]
  {
    assert a[0] in multiset(b) && b[0] in multiset(a);
    var i :| 0 <= i < |b| && b[i] == a[0];
    var j :| 0 <= j < |a| && a[j] == b[0];
  }

  lemma SameTails(a: seq<Row>, b: seq<Row>)
    requires multiset(a) == multiset(b) && a != [] && b != [] && a[0] == b[0]
    ensures multiset(a[1..]) == multiset(b[1..])
  {
    assert a == [a[0]] + a[1..] && b == [b[0]] + b[1..];
    assert multiset(a[1..]) == multiset(a) - multiset{a[0]};
    assert multiset(b[1..]) == multiset(b) - multiset{b[0]};
  }

  lemma {:induction false} SameOrderSameRows(a: seq<Row>, b: seq<Row>, original: seq<Row>)
    requires InOrder(a, original) && InOrder(b, original) && multiset(a) == multiset(b)
    ensures a == b
  {
    assert |a| == |multiset(a)| == |multiset(b)| == |b|;
    if a != [] {
      SameFirst(a, b, original);
      SameTails(a, b);
      SameOrderSameRows(a[1..], b[1..], original);
      assert a == [a[0]] + a[1..] && b == [b[0]] + b[1..];
    }
  }

  /** Once everything has been refused, the list is the original one exactly when it is in order. */
  lemma RestoredIffInOrder(rows: seq<Row>, count: nat, steps: seq<Step>)
    requires DistinctIds(rows) && |rows| <= count
    requires var t := TakeAll(Listing(rows, count, [], []), steps); t.pending == [] && t.succeeded == []
    ensures var t := TakeAll(Listing(rows, count, [], []), steps); t.rows == rows <==> InOrder(t.rows, rows)
  {
    var t := TakeAll(Listing(rows, count, [], []), steps);
    SelectionConserves(rows, count, steps);
    assert PendingRows(t.pending) == [];
    OwnPlaces(rows);
    if InOrder(t.rows, rows) { SameOrderSameRows(t.rows, rows, rows); }
  }

  /** Refusals in place bring the original list back, count included. */
  lemma RefusalsInPlaceRestore(rows: seq<Row>, count: nat, steps: seq<Step>)
    requires DistinctIds(rows) && |rows| <= count
    requires AllLandInPlace(Listing(rows, count, [], []), rows, steps)
    requires var t := TakeAll(Listing(rows, count, [], []), steps); t.pending == [] && t.succeeded == []
    ensures TakeAll(Listing(rows, count, [], []), steps) == Listing(rows, count, [], [])
  {
    OwnPlaces(rows);
    RunKeepsOrderIff(Listing(rows, count, [], []), rows, count, steps);
    RestoredIffInOrder(rows, count, steps);
    SelectionConserves(rows, count, steps);
  }

  // ----- Nested refusals -----

  /** Selections all refused, each after every later one: nothing, or one selection around the
      refusals inside it, followed by more of the same. */
  datatype Nested = Done | Around(id: nat, inner: Nested, rest: Nested)

  function Play(s: Listing, n: Nested): Listing
    decreases n
  {
    match n
    case Done => s
    case Around(id, inner, rest) =>
      if !CanBegin(s, id) then Play(s, rest)
      else
        var t := Play(Begin(s, id, true), inner);
        if t.pending == [] then t else Play(Fail(t, |t.pending| - 1), rest)
  }

  lemma CutPlaces(rows: seq<Row>, i: nat)
    requires DistinctIds(rows) && i < |rows|
    ensures forall a :: 0 <= a < |Dropped(rows, i)| ==>
      && Dropped(rows, i)[a] == rows[if a < i then a else a + 1]
      && Place(rows, Dropped(rows, i)[a]) == if a < i then a else a + 1
  {
    OwnPlaces(rows);
  }

  /** A row just taken out lands in place. */
  lemma CutLandsInPlace(rows: seq<Row>, i: nat)
    requires DistinctIds(rows) && i < |rows|
    ensures Absent(Dropped(rows, i), rows[i].id) && Known(Dropped(rows, i), rows)
    ensures InOrder(Dropped(rows, i), rows) && Ahead(Dropped(rows, i), rows, rows[i]) == i
  {
    CutPlaces(rows, i);
    OwnPlaces(rows);
    AheadCounts(Dropped(rows, i), rows, rows[i], i);
  }

  lemma PutBackRestores(rows: seq<Row>, i: nat)
    requires DistinctIds(rows) && i < |rows|
    ensures PutBack(Dropped(rows, i), Pending(rows[i], i, true)) == rows
  {
    var s := Listing(Dropped(rows, i), 0, [Pending(rows[i], i, true)], []);
    CutLandsInPlace(rows, i);
    RefusalKeepsOrderIff(s, 0, rows);
    IndexOfIs(s.rows, rows[i].id);
    OwnPlaces(rows);
    InsertedIs(s.rows, rows[i], i);
    DroppedMultiset(rows, i);
    SameOrderSameRows(Fail(s, 0).rows, rows, rows);
  }

  lemma CutDistinct(rows: seq<Row>, i: nat)
    requires DistinctIds(rows) && i < |rows|
    ensures DistinctIds(Dropped(rows, i))
  {
    CutPlaces(rows, i);
  }

  lemma BeginThenFail(s: Listing, id: nat)
    requires DistinctIds(s.rows) && |s.rows| <= s.count && CanBegin(s, id)
    ensures var t := Begin(s, id, true);
      Fail(t, |t.pending| - 1) == s && DistinctIds(t.rows) && |t.rows| <= t.count
  {
    var t, i := Begin(s, id, true), IndexOf(s.rows, id);
    IndexOfIs(s.rows, id);
    WithoutIdCuts(s.rows, i);
    CutDistinct(s.rows, i);
    PutBackRestores(s.rows, i);
    assert t.pending == s.pending + [Pending(s.rows[i], i, true)];
    assert Dropped(t.pending, |s.pending|) == s.pending;
  }

  /** Last-in-first-out refusals restore the list exactly, order and count included. */
  lemma {:induction false} NestedRefusalsRestore(s: Listing, n: Nested)
    requires DistinctIds(s.rows) && |s.rows| <= s.count
    ensures Play(s, n) == s
    decreases n
  {
    if n.Around? {
      if CanBegin(s, n.id) {
        BeginThenFail(s, n.id);
        NestedRefusalsRestore(Begin(s, n.id, true), n.inner);
      }
      NestedRefusalsRestore(s, n.rest);
    }
  }

  // ----- Refusals in the order of the clicks -----

  /** Two rows clicked one after the other, both refused, the first one first. */
  function RefusedInOrder(a: Row, b: Row): seq<Step> { [Click(a.id), Click(b.id), Refuse(0), Refuse(0)] }

  /** Where the row at `b` is once the row at `a` is gone. */
  function Shifted(a: nat, b: nat): nat
    requires a != b
  {
    if b < a then b else b - 1
  }

  lemma ClickCuts(s: Listing, i: nat)
    requires DistinctIds(s.rows) && i < |s.rows| && s.rows[i].stage == "" && !Selecting(s.pending, s.rows[i].id)
    ensures var t := Take(s, Click(s.rows[i].id));
      t.rows == Dropped(s.rows, i) && t.pending == s.pending + [Pending(s.rows[i], i, true)]
  {
    IndexOfIs(s.rows, s.rows[i].id);
    WithoutIdCuts(s.rows, i);
  }

  lemma TwoClicks(rows: seq<Row>, count: nat, a: nat, b: nat)
    requires DistinctIds(rows) && |rows| <= count && a < |rows| && b < |rows| && a != b
    requires rows[a].stage == rows[b].stage == ""
    ensures var t := Take(Take(Listing(rows, count, [], []), Click(rows[a].id)), Click(rows[b].id));
      && t.rows == Dropped(Dropped(rows, a), Shifted(a, b))
      && t.pending == [Pending(rows[a], a, true), Pending(rows[b], Shifted(a, b), true)]
      && t.succeeded == []
      && Balanced(t, multiset(rows), count)
  {
    var s1 := Take(Listing(rows, count, [], []), Click(rows[a].id));
    OneClick(rows, count, a);
    assert s1.rows[Shifted(a, b)] == rows[b];
    assert !Selecting(s1.pending, rows[b].id);
    ClickCuts(s1, Shifted(a, b));
    TakeBalanced(s1, Click(rows[b].id), multiset(rows), count);
  }

  lemma OneClick(rows: seq<Row>, count: nat, a: nat)
    requires DistinctIds(rows) && |rows| <= count && a < |rows| && rows[a].stage == ""
    ensures var t := Take(Listing(rows, count, [], []), Click(rows[a].id));
      && t.rows == Dropped(rows, a) && t.pending == [Pending(rows[a], a, true)] && t.succeeded == []
      && Balanced(t, multiset(rows), count)
  {
    var s := Listing(rows, count, [], []);
    assert PendingRows([]) == [];
    ClickCuts(s, a);
    TakeBalanced(s, Click(rows[a].id), multiset(rows), count);
    assert [] + [Pending(rows[a], a, true)] == [Pending(rows[a], a, true)];
  }

  /** The first of several pending selections refused. */
  lemma RefuseFirst(s: Listing, original: seq<Row>, total: nat)
    requires Balanced(s, multiset(original), total) && s.pending != []
    ensures var u, p := Take(s, Refuse(0)), s.pending[0];
      && u.rows == Inserted(s.rows, p.row, Landing(s, 0))
      && u.pending == s.pending[1..] && u.succeeded == s.succeeded
      && Balanced(u, multiset(original), total)
      && (InOrder(u.rows, original)
          <==> InOrder(s.rows, original) && Landing(s, 0) == Ahead(s.rows, original, p.row))
  {
    TakeBalanced(s, Refuse(0), multiset(original), total);
    FailIsInsertion(s, 0);
    KnownWhenBalanced(s, original, total);
    RefusalKeepsOrderIff(s, 0, original);
    assert Dropped(s.pending, 0) == s.pending[1..];
  }

  lemma TwoCutPlaces(rows: seq<Row>, a: nat, b: nat)
    requires DistinctIds(rows) && a < |rows| && b < |rows| && a != b
    ensures var left := Dropped(Dropped(rows, a), Shifted(a, b));
      var lo, hi := if a < b then a else b, if a < b then b else a;
      && |left| == |rows| - 2
      && forall j :: 0 <= j < |left| ==>
           && left[j] == rows[if j < lo then j else if j < hi - 1 then j + 1 else j + 2]
           && Place(rows, left[j]) == if j < lo then j else if j < hi - 1 then j + 1 else j + 2
  {
    OwnPlaces(rows);
  }

  /** What is left of two clicks, and what a first refusal in place makes of it. */
  lemma AfterTwoClicks(rows: seq<Row>, a: nat, b: nat)
    requires DistinctIds(rows) && a < |rows| && b < |rows| && a != b
    ensures var left := Dropped(Dropped(rows, a), Shifted(a, b));
      && |left| == |rows| - 2 && InOrder(left, rows)
      && Ahead(left, rows, rows[a]) == Shifted(b, a)
      && Inserted(left, rows[a], Shifted(b, a)) == Dropped(rows, b)
  {
    var left := Dropped(Dropped(rows, a), Shifted(a, b));
    LeftInOrder(rows, a, b);
    assert forall j :: 0 <= j < |left| ==> Place(rows, left[j]) != Place(rows, rows[a]) by {
      TwoCutPlaces(rows, a, b);
      OwnPlaces(rows);
    }
    InsertedInOrderIff(left, rows, rows[a], Shifted(b, a));
    CutLandsInPlace(rows, b);
    TwoCutsAccount(rows, a, b);
    SameOrderSameRows(Inserted(left, rows[a], Shifted(b, a)), Dropped(rows, b), rows);
  }

  lemma LeftInOrder(rows: seq<Row>, a: nat, b: nat)
    requires DistinctIds(rows) && a < |rows| && b < |rows| && a != b
    ensures var left := Dropped(Dropped(rows, a), Shifted(a, b));
      InOrder(left, rows) && Ahead(left, rows, rows[a]) == Shifted(b, a)
  {
    TwoCutPlaces(rows, a, b);
    assert Place(rows, rows[a]) == a by { OwnPlaces(rows); }
    AheadCounts(Dropped(Dropped(rows, a), Shifted(a, b)), rows, rows[a], Shifted(b, a));
  }

  lemma TwoCutsAccount(rows: seq<Row>, a: nat, b: nat)
    requires a < |rows| && b < |rows| && a != b
    ensures multiset(Inserted(Dropped(Dropped(rows, a), Shifted(a, b)), rows[a], Shifted(b, a)))
         == multiset(Dropped(rows, b))
  {
    var left := Dropped(Dropped(rows, a), Shifted(a, b));
    var back, put := Dropped(rows, b), Inserted(left, rows[a], Shifted(b, a));
    assert multiset(rows) == multiset(Dropped(rows, a)) + multiset{rows[a]} by { DroppedMultiset(rows, a); }
    assert multiset(Dropped(rows, a)) == multiset(left) + multiset{rows[b]} by {
      assert Dropped(rows, a)[Shifted(a, b)] == rows[b];
      DroppedMultiset(Dropped(rows, a), Shifted(a, b));
    }
    assert multiset(rows) == multiset(back) + multiset{rows[b]} by { DroppedMultiset(rows, b); }
    assert multiset(put) == multiset(left) + multiset{rows[a]} by { InsertedIs(left, rows[a], Shifted(b, a)); }
    SwapOut(multiset(left), multiset(back), rows[a], rows[b]);
  }

  lemma SwapOut<T>(left: multiset<T>, back: multiset<T>, a: T, b: T)
    requires left + multiset{b} + multiset{a} == back + multiset{b}
    ensures left + multiset{a} == back
  {
    assert (left + multiset{a}) + multiset{b} == back + multiset{b};
    assert left + multiset{a} == (back + multiset{b}) - multiset{b};
  }

  /** Both refusals land in place exactly when the first row was the last one. */
  lemma TwoRefusals(rows: seq<Row>, count: nat, a: nat, b: nat, t: Listing)
    requires DistinctIds(rows) && a < |rows| && b < |rows| && a != b && Balanced(t, multiset(rows), count)
    requires t.rows == Dropped(Dropped(rows, a), Shifted(a, b))
    requires t.pending == [Pending(rows[a], a, true), Pending(rows[b], Shifted(a, b), true)]
    ensures var v := Take(Take(t, Refuse(0)), Refuse(0));
      v.pending == [] && v.succeeded == t.succeeded && (InOrder(v.rows, rows) <==> a == |rows| - 1)
  {
    AfterTwoClicks(rows, a, b);
    RefuseFirst(t, rows, count);
    RefuseFirst(Take(t, Refuse(0)), rows, count);
    CutLandsInPlace(rows, b);
  }

  /** Two selections refused first to last bring the list back exactly when the first one was of
      the last row: only then do both refusals land in place. */
  lemma FirstRefusedFirstIff(rows: seq<Row>, count: nat, a: nat, b: nat)
    requires DistinctIds(rows) && |rows| <= count && a < |rows| && b < |rows| && a != b
    requires rows[a].stage == rows[b].stage == ""
    ensures TakeAll(Listing(rows, count, [], []), RefusedInOrder(rows[a], rows[b])).rows == rows <==> a == |rows| - 1
  {
    var s, steps := Listing(rows, count, [], []), RefusedInOrder(rows[a], rows[b]);
    var t := Take(Take(s, Click(rows[a].id)), Click(rows[b].id));
    TwoClicks(rows, count, a, b);
    TwoRefusals(rows, count, a, b, t);
    UnrollFour(s, Click(rows[a].id), Click(rows[b].id), Refuse(0), Refuse(0));
    RestoredIffInOrder(rows, count, steps);
  }

  lemma UnrollFour(s: Listing, e: Step, f: Step, g: Step, h: Step)
    ensures TakeAll(s, [e, f, g, h]) == Take(Take(Take(Take(s, e), f), g), h)
  {
    Unroll(s, e, [f, g, h]);
    Unroll(Take(s, e), f, [g, h]);
    Unroll(Take(Take(s, e), f), g, [h]);
    Unroll(Take(Take(Take(s, e), f), g), h, []);
    assert [e] + [f, g, h] == [e, f, g, h] && [f] + [g, h] == [f, g, h] && [g] + [h] == [g, h] && [h] + [] == [h];
  }

  lemma Unroll(s: Listing, step: Step, rest: seq<Step>)
    ensures TakeAll(s, [step] + rest) == TakeAll(Take(s, step), rest)
  {
    assert ([step] + rest)[1..] == rest;
  }

}
