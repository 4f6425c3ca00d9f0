/** Optimistic selection of notices (`selectNotice`): the row leaves the recommended list, or is
    marked in another list, before the server answers, and is put back if the server refuses. */
module OptimisticSelection {

  datatype Row = Row(id: nat, stage: string)

  /** A selection the server has not answered: the row, the place it had, and whether it was taken out. */
  datatype Pending = Pending(row: Row, index: nat, removed: bool)

  datatype Listing = Listing(rows: seq<Row>, count: nat, pending: seq<Pending>, succeeded: seq<Row>)

  function IndexOf(rows: seq<Row>, id: nat): int {
    if rows == [] then -1
    else if rows[0].id == id then 0
    else if IndexOf(rows[1..], id) < 0 then -1 else IndexOf(rows[1..], id) + 1
  }

  function WithoutId(rows: seq<Row>, id: nat): seq<Row> {
    if rows == [] then []
    else (if rows[0].id == id then [] else [rows[0]]) + WithoutId(rows[1..], id)
  }

  function Mapped(rows: seq<Row>, id: nat, row: Row): seq<Row> {
    seq(|rows|, i requires 0 <= i < |rows| => if rows[i].id == id then row else rows[i])
  }

  predicate Selecting(pending: seq<Pending>, id: nat) {
    exists i :: 0 <= i < |pending| && pending[i].row.id == id
  }

  /** Whether a click on this row starts a selection. */
  predicate CanBegin(s: Listing, id: nat) {
    var i := IndexOf(s.rows, id);
    i >= 0 && !Selecting(s.pending, id) && i < |s.rows| && s.rows[i].stage == ""
  }

  function Begin(s: Listing, id: nat, recommended: bool): Listing
    requires CanBegin(s, id)
  {
    var i := IndexOf(s.rows, id);
    var row := s.rows[i];
    s.(rows := if recommended then WithoutId(s.rows, id) else Mapped(s.rows, id, row.(stage := "selected")),
       count := if !recommended then s.count else if s.count == 0 then 0 else s.count - 1,
       pending := s.pending + [Pending(row, i, recommended)])
  }

  function Dropped<T>(xs: seq<T>, i: nat): seq<T>
    requires i < |xs|
  {
    xs[..i] + xs[i + 1..]
  }

  function Succeed(s: Listing, i: nat): Listing
    requires i < |s.pending|
  {
    s.(pending := Dropped(s.pending, i), succeeded := s.succeeded + [s.pending[i].row])
  }

  function PutBack(rows: seq<Row>, p: Pending): seq<Row> {
    if IndexOf(rows, p.row.id) >= 0 then Mapped(rows, p.row.id, p.row)
    else
      var at := if p.index <= |rows| then p.index else |rows|;
      rows[..at] + [p.row] + rows[at..]
  }

  function Fail(s: Listing, i: nat): Listing
    requires i < |s.pending|
  {
    var p := s.pending[i];
    s.(rows := PutBack(s.rows, p), count := if p.removed then s.count + 1 else s.count,
       pending := Dropped(s.pending, i))
  }

  // ----- Rows and ids -----

  ghost predicate DistinctIds(rows: seq<Row>) {
    forall i, j :: 0 <= i < j < |rows| ==> rows[i].id != rows[j].id
  }

  lemma {:induction false} IndexOfIs(rows: seq<Row>, id: nat)
    ensures IndexOf(rows, id) >= 0 ==> IndexOf(rows, id) < |rows| && rows[IndexOf(rows, id)].id == id
    ensures IndexOf(rows, id) < 0 ==> forall i :: 0 <= i < |rows| ==> rows[i].id != id
  {
    if rows != [] { IndexOfIs(rows[1..], id); }
  }

  /** A click starts a selection exactly when its row is on screen, has no stage yet, and is not
      being selected already. */
  lemma ClickStartsIff(s: Listing, id: nat)
    requires DistinctIds(s.rows)
    ensures CanBegin(s, id) <==>
      && (exists i :: 0 <= i < |s.rows| && s.rows[i].id == id && s.rows[i].stage == "")
      && (forall j :: 0 <= j < |s.pending| ==> s.pending[j].row.id != id)
  {
    IndexOfIs(s.rows, id);
  }

  lemma {:induction false} AbsentStays(rows: seq<Row>, id: nat)
    requires forall i :: 0 <= i < |rows| ==> rows[i].id != id
    ensures WithoutId(rows, id) == rows
  {
    if rows != [] { AbsentStays(rows[1..], id); }
  }

  /** Taking out a row that occurs once cuts the list at its place. */
  lemma {:induction false} WithoutIdCuts(rows: seq<Row>, i: nat)
    requires DistinctIds(rows) && i < |rows|
    ensures WithoutId(rows, rows[i].id) == Dropped(rows, i)
  {
    if i == 0 {
      AbsentStays(rows[1..], rows[0].id);
    } else {
      assert rows[0].id != rows[i].id;
      WithoutIdCuts(rows[1..], i - 1);
      assert Dropped(rows, i) == [rows[0]] + Dropped(rows[1..], i - 1);
    }
  }

  lemma DroppedMultiset<T>(xs: seq<T>, i: nat)
    requires i < |xs|
    ensures multiset(xs) == multiset(Dropped(xs, i)) + multiset{xs[i]}
  {
    assert xs == xs[..i] + [xs[i]] + xs[i + 1..];
  }

  function PendingRows(pending: seq<Pending>): seq<Row> {
    seq(|pending|, i requires 0 <= i < |pending| => pending[i].row)
  }

  // ----- Conservation -----

  datatype Step = Click(id: nat) | Accept(which: nat) | Refuse(which: nat)

  /** One happening while a recommended list is on screen and is not reloaded. */
  function Take(s: Listing, step: Step): Listing {
    match step
    case Click(id) => if CanBegin(s, id) then Begin(s, id, true) else s
    case Accept(i) => if i < |s.pending| then Succeed(s, i) else s
    case Refuse(i) => if i < |s.pending| then Fail(s, i) else s
  }

  function TakeAll(s: Listing, steps: seq<Step>): Listing
    decreases |steps|
  {
    if steps == [] then s else TakeAll(Take(s, steps[0]), steps[1..])
  }

  /** Everything accounted for, against the rows `all` and the count `total` of the start. */
  ghost predicate Balanced(s: Listing, all: multiset<Row>, total: nat) {
    && multiset(s.rows) + multiset(PendingRows(s.pending)) + multiset(s.succeeded) == all
    && s.count + |s.pending| + |s.succeeded| == total
    && |s.rows| <= s.count
    && Apart(s.rows, s.pending)
    && (forall j :: 0 <= j < |s.pending| ==> s.pending[j].removed)
  }

  /** No id occurs twice among the rows on screen and the pending selections together. */
  ghost predicate Apart(rows: seq<Row>, pending: seq<Pending>) {
    && DistinctIds(rows)
    && (forall i, j :: 0 <= i < |rows| && 0 <= j < |pending| ==> rows[i].id != pending[j].row.id)
    && (forall i, j :: 0 <= i < j < |pending| ==> pending[i].row.id != pending[j].row.id)
  }

  lemma BeginBalanced(s: Listing, id: nat, all: multiset<Row>, total: nat)
    requires Balanced(s, all, total) && CanBegin(s, id)
    ensures Balanced(Begin(s, id, true), all, total)
    ensures s.count > 0
  {
    var i := IndexOf(s.rows, id);
    IndexOfIs(s.rows, id);
    WithoutIdCuts(s.rows, i);
    ApartAfterCut(s.rows, s.pending, i, Pending(s.rows[i], i, true));
    CutAccounts(s.rows, s.pending, i, Pending(s.rows[i], i, true));
  }

  lemma CutAccounts(rows: seq<Row>, pending: seq<Pending>, i: nat, p: Pending)
    requires i < |rows| && p.row == rows[i]
    ensures |Dropped(rows, i)| == |rows| - 1
    ensures multiset(Dropped(rows, i)) + multiset(PendingRows(pending + [p]))
         == multiset(rows) + multiset(PendingRows(pending))
  {
    DroppedMultiset(rows, i);
    assert PendingRows(pending + [p]) == PendingRows(pending) + [p.row];
  }

  /** Moving a row from the list to the pending selections keeps all ids apart. */
  lemma ApartAfterCut(rows: seq<Row>, pending: seq<Pending>, i: nat, p: Pending)
    requires Apart(rows, pending) && i < |rows| && p.row == rows[i]
    ensures Apart(Dropped(rows, i), pending + [p])
  {
    var cut := Dropped(rows, i);
    assert forall a :: 0 <= a < |cut| ==> cut[a] == rows[if a < i then a else a + 1];
  }

  lemma PendingDropped(pending: seq<Pending>, i: nat)
    requires i < |pending|
    ensures multiset(PendingRows(pending)) == multiset(PendingRows(Dropped(pending, i))) + multiset{pending[i].row}
  {
    DroppedMultiset(PendingRows(pending), i);
    assert PendingRows(Dropped(pending, i)) == Dropped(PendingRows(pending), i);
  }

  lemma SucceedBalanced(s: Listing, i: nat, all: multiset<Row>, total: nat)
    requires Balanced(s, all, total) && i < |s.pending|
    ensures Balanced(Succeed(s, i), all, total)
  {
    PendingDropped(s.pending, i);
  }

  function Inserted(rows: seq<Row>, row: Row, at: nat): seq<Row>
    requires at <= |rows|
  {
    rows[..at] + [row] + rows[at..]
  }

  lemma InsertedIs(rows: seq<Row>, row: Row, at: nat)
    requires at <= |rows|
    ensures var r := Inserted(rows, row, at);
      && |r| == |rows| + 1
      && multiset(r) == multiset(rows) + multiset{row}
      && (forall a :: 0 <= a < |r| ==> r[a] == if a < at then rows[a] else if a == at then row else rows[a - 1])
  {
    InsertedMultiset(rows, row, at);
  }

  lemma InsertedMultiset(rows: seq<Row>, row: Row, at: nat)
    requires at <= |rows|
    ensures multiset(Inserted(rows, row, at)) == multiset(rows) + multiset{row}
  {
    assert rows == rows[..at] + rows[at..];
  }

  lemma FailIsInsertion(s: Listing, i: nat)
    requires Apart(s.rows, s.pending) && i < |s.pending|
    ensures var p := s.pending[i];
      PutBack(s.rows, p) == Inserted(s.rows, p.row, if p.index <= |s.rows| then p.index else |s.rows|)
  {
    IndexOfIs(s.rows, s.pending[i].row.id);
  }

  lemma PutBackAccounts(s: Listing, i: nat)
    requires Apart(s.rows, s.pending) && i < |s.pending|
    ensures var rows, rest := PutBack(s.rows, s.pending[i]), Dropped(s.pending, i);
      && |rows| == |s.rows| + 1
      && multiset(rows) + multiset(PendingRows(rest)) == multiset(s.rows) + multiset(PendingRows(s.pending))
  {
    var p := s.pending[i];
    var at := if p.index <= |s.rows| then p.index else |s.rows|;
    FailIsInsertion(s, i);
    InsertedIs(s.rows, p.row, at);
    PendingDropped(s.pending, i);
  }

  lemma FailBalanced(s: Listing, i: nat, all: multiset<Row>, total: nat)
    requires Balanced(s, all, total) && i < |s.pending|
    ensures Balanced(Fail(s, i), all, total)
  {
    var p := s.pending[i];
    PutBackAccounts(s, i);
    assert Apart(PutBack(s.rows, p), Dropped(s.pending, i)) by {
      FailIsInsertion(s, i);
    }
  }

  lemma TakeBalanced(s: Listing, step: Step, all: multiset<Row>, total: nat)
    requires Balanced(s, all, total)
    ensures Balanced(Take(s, step), all, total)
  {
    match step {
      case Click(id) => if CanBegin(s, id) { BeginBalanced(s, id, all, total); }
      case Accept(i) => if i < |s.pending| { SucceedBalanced(s, i, all, total); }
      case Refuse(i) => if i < |s.pending| { FailBalanced(s, i, all, total); }
    }
  }

  lemma {:induction false} TakeAllBalanced(s: Listing, steps: seq<Step>, all: multiset<Row>, total: nat)
    requires Balanced(s, all, total)
    ensures Balanced(TakeAll(s, steps), all, total)
    decreases |steps|
  {
    if steps != [] {
      TakeBalanced(s, steps[0], all, total);
      TakeAllBalanced(Take(s, steps[0]), steps[1..], all, total);
    }
  }

  /** Conservation: on a recommended list with distinct rows and a count no smaller than their
      number, whatever the interleaving of selections, rows, pending and succeeded are together the
      original rows, and the count has gone down by exactly the pending and the succeeded. */
  lemma SelectionConserves(rows: seq<Row>, count: nat, steps: seq<Step>)
    requires DistinctIds(rows) && |rows| <= count
    ensures var t := TakeAll(Listing(rows, count, [], []), steps);
      && multiset(t.rows) + multiset(PendingRows(t.pending)) + multiset(t.succeeded) == multiset(rows)
      && t.count + |t.pending| + |t.succeeded| == count
      && (t.pending == [] ==> t.count == count - |t.succeeded|)
      && |t.rows| <= t.count
  {
    TakeAllBalanced(Listing(rows, count, [], []), steps, multiset(rows), count);
  }

  /** The clamp at zero never fires on such a list: a click that counts finds a positive count. */
  lemma CountNeverClamped(rows: seq<Row>, count: nat, steps: seq<Step>, id: nat)
    requires DistinctIds(rows) && |rows| <= count
    requires CanBegin(TakeAll(Listing(rows, count, [], []), steps), id)
    ensures TakeAll(Listing(rows, count, [], []), steps).count > 0
  {
    TakeAllBalanced(Listing(rows, count, [], []), steps, multiset(rows), count);
    BeginBalanced(TakeAll(Listing(rows, count, [], []), steps), id, multiset(rows), count);
  }

  /** A refusal keeps count minus rows exactly when the row is not back already, as it may be
      after the list was reloaded: then the count drifts up by one. */
  lemma RefusalDriftsIffRowIsBack(s: Listing, i: nat)
    requires i < |s.pending| && s.pending[i].removed
    ensures Fail(s, i).count - |Fail(s, i).rows| != s.count - |s.rows|
       <==> exists j :: 0 <= j < |s.rows| && s.rows[j].id == s.pending[i].row.id
  {
    IndexOfIs(s.rows, s.pending[i].row.id);
  }

  // ----- The list component -----

  class NoticeList {
    var notices: seq<Row>
    var noticeCount: nat
    var unanswered: seq<Pending>
    var selected: seq<Row>

    ghost function View(): Listing
      reads this
    {
      Listing(notices, noticeCount, unanswered, selected)
    }

    constructor (rows: seq<Row>, count: nat)
      ensures View() == Listing(rows, count, [], [])
    {
      notices, noticeCount, unanswered, selected := rows, count, [], [];
    }

    method FindIndex(id: nat) returns (index: int)
      ensures index == IndexOf(notices, id)
    {
      index := 0;
      while index < |notices|
        invariant 0 <= index <= |notices|
        invariant IndexOf(notices, id)
          == (if IndexOf(notices[index..], id) < 0 then -1 else IndexOf(notices[index..], id) + index)
      {
        if notices[index].id == id { return; }
        index := index + 1;
      }
      index := -1;
    }

    /** The optimistic part of `selectNotice`; no change when the guard refuses the click. */
    method Select(id: nat, recommended: bool)
      modifies this
      ensures View() == if CanBegin(old(View()), id) then Begin(old(View()), id, recommended) else old(View())
    {
      var index := FindIndex(id);
      IndexOfIs(notices, id);
      if index < 0 || Selecting(unanswered, id) || notices[index].stage != "" { return; }
      var row := notices[index];
      unanswered := unanswered + [Pending(row, index, recommended)];
      if recommended {
        notices := WithoutId(notices, id);
        noticeCount := if noticeCount == 0 then 0 else noticeCount - 1;
      } else {
        notices := Mapped(notices, id, row.(stage := "selected"));
      }
    }

    method Accepted(i: nat)
      requires i < |unanswered|
      modifies this
      ensures View() == Succeed(old(View()), i)
    {
      selected := selected + [unanswered[i].row];
      unanswered := Dropped(unanswered, i);
    }

    method Refused(i: nat)
      requires i < |unanswered|
      modifies this
      ensures View() == Fail(old(View()), i)
    {
      var p := unanswered[i];
      var index := FindIndex(p.row.id);
      if index >= 0 {
        notices := Mapped(notices, p.row.id, p.row);
      } else {
        var at := if p.index <= |notices| then p.index else |notices|;
        notices := notices[..at] + [p.row] + notices[at..];
      }
      if p.removed { noticeCount := noticeCount + 1; }
      unanswered := Dropped(unanswered, i);
    }
  }
}
