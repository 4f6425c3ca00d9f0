/** The two page-token algorithms of the pagination bars: the windowed loop of
    ProcurementWorkspaceV13 and the set, filter and sort of ProcurementPaginationEnhancement. */
module PageTokens {
  import opened Text

  datatype Token = Page(number: int) | Ellipsis

  function Max(a: int, b: int): int { if a < b then b else a }

  function Min(a: int, b: int): int { if a < b then a else b }

  /** The numbers from `lo` to `hi` that belong to `keep`, ascending. */
  function Ascending(keep: set<int>, lo: int, hi: int): seq<int>
    decreases hi - lo
  {
    if lo > hi then [] else (if lo in keep then [lo] else []) + Ascending(keep, lo + 1, hi)
  }

  function Run(lo: int, hi: int): seq<Token>
    decreases hi - lo
  {
    if lo > hi then [] else Run(lo, hi - 1) + [Page(hi)]
  }

  /** The tokens around the current page: first, window of five, last, with gaps marked. */
  function Windowed(page: int, pages: int): seq<Token> {
    if pages <= 7 then Run(1, pages)
    else
      var start, end := Max(2, page - 2), Min(pages - 1, page + 2);
      [Page(1)] + (if start > 2 then [Ellipsis] else []) + Run(start, end)
        + (if end < pages - 1 then [Ellipsis] else []) + [Page(pages)]
  }

  method WindowedPageTokens(page: int, pages: int) returns (tokens: seq<Token>)
    ensures tokens == Windowed(page, pages)
  {
    if pages <= 7 {
      tokens := [];
      var index := 0;
      while index < pages
        invariant 0 <= index && (index <= pages || index == 0)
        invariant tokens == Run(1, index)
      {
        index := index + 1;
        tokens := tokens + [Page(index)];
      }
      return;
    }
    tokens := [Page(1)];
    var start, end := Max(2, page - 2), Min(pages - 1, page + 2);
    if start > 2 { tokens := tokens + [Ellipsis]; }
    ghost var before := tokens;
    var value := start;
    while value <= end
      invariant start <= value && (value <= end + 1 || value == start)
      invariant tokens == before + Run(start, value - 1)
      decreases end - value
    {
      tokens := tokens + [Page(value)];
      assert Run(start, value) == Run(start, value - 1) + [Page(value)];
      value := value + 1;
    }
    assert Run(start, value - 1) == Run(start, end);
    if end < pages - 1 { tokens := tokens + [Ellipsis]; }
    tokens := tokens + [Page(pages)];
  }

  function KeepSet(current: int, total: int): set<int> {
    {1, total, current - 2, current - 1, current, current + 1, current + 2}
  }

  /** Tokens of an ascending list of page numbers: an ellipsis wherever numbers are skipped. A zero
      before the gap would count as no previous number. */
  function Gapped(values: seq<int>): seq<Token> {
    if values == [] then []
    else
      var last := values[|values| - 1];
      Gapped(values[..|values| - 1])
        + (if |values| > 1 && values[|values| - 2] != 0 && last - values[|values| - 2] > 1 then [Ellipsis] else [])
        + [Page(last)]
  }

  function Collected(current: int, total: int): seq<Token> {
    Gapped(Ascending(KeepSet(current, total), 1, total))
  }

  /** Sorting the members that pass the filter: lowest first. */
  method SortedWithin(keep: set<int>, total: int) returns (values: seq<int>)
    ensures values == Ascending(keep, 1, total)
  {
    values := [];
    var next := 1;
    while next <= total
      invariant next >= 1
      invariant values + Ascending(keep, next, total) == Ascending(keep, 1, total)
      decreases total - next
    {
      if next in keep {
        assert Ascending(keep, next, total) == [next] + Ascending(keep, next + 1, total);
        values := values + [next];
      } else {
        assert Ascending(keep, next, total) == Ascending(keep, next + 1, total);
      }
      next := next + 1;
    }
  }

  method CollectedPageTokens(current: int, total: int) returns (tokens: seq<Token>)
    ensures tokens == Collected(current, total)
  {
    var values := SortedWithin(KeepSet(current, total), total);
    tokens := [];
    for index := 0 to |values|
      invariant tokens == Gapped(values[..index])
    {
      var value := values[index];
      assert values[..index + 1][..index] == values[..index];
      if index > 0 && values[index - 1] != 0 && value - values[index - 1] > 1 { tokens := tokens + [Ellipsis]; }
      tokens := tokens + [Page(value)];
    }
    assert values[..|values|] == values;
  }

  // ----- Their agreement -----

  function Numbers(lo: int, hi: int): seq<int>
    decreases hi - lo
  {
    if lo > hi then [] else Numbers(lo, hi - 1) + [hi]
  }

  lemma {:induction false} AscendingSplit(keep: set<int>, lo: int, mid: int, hi: int)
    requires lo <= mid + 1 && mid <= hi
    ensures Ascending(keep, lo, hi) == Ascending(keep, lo, mid) + Ascending(keep, mid + 1, hi)
    decreases mid - lo
  {
    if lo <= mid { AscendingSplit(keep, lo + 1, mid, hi); }
  }

  lemma {:induction false} AscendingAll(keep: set<int>, lo: int, hi: int)
    requires forall n :: lo <= n <= hi ==> n in keep
    ensures Ascending(keep, lo, hi) == Numbers(lo, hi)
    decreases hi - lo
  {
    if lo <= hi {
      AscendingAll(keep, lo, hi - 1);
      AscendingSplit(keep, lo, hi - 1, hi);
      assert Ascending(keep, hi, hi) == [hi] + Ascending(keep, hi + 1, hi) == [hi];
    }
  }

  lemma {:induction false} AscendingNone(keep: set<int>, lo: int, hi: int)
    requires forall n :: lo <= n <= hi ==> n !in keep
    ensures Ascending(keep, lo, hi) == []
    decreases hi - lo
  {
    if lo <= hi { AscendingNone(keep, lo + 1, hi); }
  }

  lemma GappedOne(values: seq<int>, v: int)
    ensures Gapped(values + [v]) == Gapped(values)
      + (if |values| > 0 && values[|values| - 1] != 0 && v - values[|values| - 1] > 1 then [Ellipsis] else [])
      + [Page(v)]
  {
    assert (values + [v])[..|values|] == values;
  }

  lemma RunOfOne(lo: int)
    ensures Numbers(lo, lo) == [lo] && Run(lo, lo) == [Page(lo)]
  {
    assert Numbers(lo, lo - 1) == [] && Run(lo, lo - 1) == [];
  }

  /** The tokens in front of a run that starts at `lo`. */
  function Lead(values: seq<int>, lo: int): seq<Token> {
    Gapped(values) + (if values != [] && lo - values[|values| - 1] > 1 then [Ellipsis] else [])
  }

  /** Consecutive numbers appended to a list add a run of tokens. */
  ghost predicate AddsRun(values: seq<int>, lo: int, hi: int) {
    Gapped(values + Numbers(lo, hi)) == Lead(values, lo) + Run(lo, hi)
  }

  lemma {:induction false} GappedRun(values: seq<int>, lo: int, hi: int)
    requires |values| > 0 && 0 < values[|values| - 1] < lo <= hi
    ensures AddsRun(values, lo, hi)
    decreases hi - lo
  {
    if lo < hi {
      GappedRun(values, lo, hi - 1);
      GappedGrows(values, lo, hi);
    } else {
    }
  }

  lemma GappedGrows(values: seq<int>, lo: int, hi: int)
    requires 0 < lo < hi && AddsRun(values, lo, hi - 1)
    ensures AddsRun(values, lo, hi)
  {
    Reassociate(values, Numbers(lo, hi - 1), [hi]);
    Reassociate(Lead(values, lo), Run(lo, hi - 1), [Page(hi)]);
  }

  /** An ascending listing in five stretches: one, none, all, none, one. */
  lemma AscendingPieces(keep: set<int>, start: int, end: int, pages: int)
    requires 1 < start <= end < pages && 1 in keep && pages in keep
    requires forall n :: 2 <= n <= pages - 1 ==> (n in keep <==> start <= n <= end)
    ensures Ascending(keep, 1, pages) == [1] + Numbers(start, end) + [pages]
  {
    AscendingSplit(keep, 1, 1, pages);
    AscendingAll(keep, 1, 1);
    RunOfOne(1);
    assert Ascending(keep, 2, pages) == Ascending(keep, start, pages) by {
      AscendingSplit(keep, 2, start - 1, pages);
      AscendingNone(keep, 2, start - 1);
    }
    AscendingSplit(keep, start, end, pages);
    AscendingAll(keep, start, end);
    LastPiece(keep, end, pages);
    Reassociate([1], Numbers(start, end), [pages]);
  }

  lemma LastPiece(keep: set<int>, end: int, pages: int)
    requires end < pages && pages in keep
    requires forall n :: end < n < pages ==> n !in keep
    ensures Ascending(keep, end + 1, pages) == [pages]
  {
    AscendingSplit(keep, end + 1, pages - 1, pages);
    AscendingNone(keep, end + 1, pages - 1);
    AscendingAll(keep, pages, pages);
    RunOfOne(pages);
  }

  lemma KeptNumbers(page: int, pages: int)
    requires pages > 7 && 1 <= page <= pages
    ensures Ascending(KeepSet(page, pages), 1, pages)
         == [1] + Numbers(Max(2, page - 2), Min(pages - 1, page + 2)) + [pages]
  {
    var keep := KeepSet(page, pages);
    var start, end := Max(2, page - 2), Min(pages - 1, page + 2);
    forall n | 2 <= n <= pages - 1 ensures n in keep <==> start <= n <= end { }
    AscendingPieces(keep, start, end, pages);
  }

  /** With more than seven pages both algorithms give the same tokens. */
  lemma SameTokens(page: int, pages: int)
    requires pages > 7 && 1 <= page <= pages
    ensures Windowed(page, pages) == Collected(page, pages)
  {
    var start, end := Max(2, page - 2), Min(pages - 1, page + 2);
    KeptNumbers(page, pages);
    assert Gapped([1]) == [Page(1)] by { GappedOne([], 1); assert [] + [1] == [1]; }
    GappedRun([1], start, end);
    assert Lead([1], start) == [Page(1)] + (if start > 2 then [Ellipsis] else []);
    var middle := [1] + Numbers(start, end);
    assert middle[|middle| - 1] == end;
    GappedOne(middle, pages);
  }

  /** A well-formed token row: from the first page to the last, neighbours consecutive, and an
      ellipsis exactly where numbers are skipped. */
  ghost predicate WellFormed(tokens: seq<Token>, page: int, pages: int) {
    && |tokens| >= 1 && tokens[0] == Page(1) && tokens[|tokens| - 1] == Page(pages)
    && Page(page) in tokens
    && (forall i :: 0 <= i < |tokens| - 1 && tokens[i].Page? && tokens[i + 1].Page?
          ==> tokens[i + 1].number == tokens[i].number + 1)
    && (forall i :: 0 <= i < |tokens| && tokens[i].Ellipsis? ==>
          && 0 < i < |tokens| - 1 && tokens[i - 1].Page? && tokens[i + 1].Page?
          && tokens[i + 1].number > tokens[i - 1].number + 1)
  }

  lemma {:induction false} RunIs(lo: int, hi: int)
    requires lo <= hi + 1
    ensures |Run(lo, hi)| == hi - lo + 1
    ensures forall i :: 0 <= i < |Run(lo, hi)| ==> Run(lo, hi)[i] == Page(lo + i)
    decreases hi - lo
  {
    if lo <= hi { RunIs(lo, hi - 1); }
  }

  /** The row of tokens spelled out place by place: `before` places, a run, `after` places. */
  ghost predicate LaidOut(tokens: seq<Token>, before: int, start: int, end: int, after: int, pages: int) {
    && 1 <= before <= 2 && 1 <= after <= 2 && start <= end
    && |tokens| == before + (end - start + 1) + after
    && tokens[0] == Page(1) && tokens[|tokens| - 1] == Page(pages)
    && (before == 2 ==> tokens[1] == Ellipsis)
    && (after == 2 ==> tokens[|tokens| - 2] == Ellipsis)
    && (forall i :: before <= i < |tokens| - after ==> tokens[i] == Page(start + i - before))
  }

  lemma WindowedLayout(page: int, pages: int)
    requires pages > 7 && 1 <= page <= pages
    ensures var start, end := Max(2, page - 2), Min(pages - 1, page + 2);
      LaidOut(Windowed(page, pages), if start > 2 then 2 else 1, start, end, if end < pages - 1 then 2 else 1, pages)
  {
    var start, end := Max(2, page - 2), Min(pages - 1, page + 2);
    var run := Run(start, end);
    RunIs(start, end);
    var head := [Page(1)] + (if start > 2 then [Ellipsis] else []);
    var tail := (if end < pages - 1 then [Ellipsis] else []) + [Page(pages)];
    assert Windowed(page, pages) == head + run + tail;
  }

  lemma LayoutIsWellFormed(tokens: seq<Token>, before: int, start: int, end: int, after: int, page: int, pages: int)
    requires LaidOut(tokens, before, start, end, after, pages)
    requires if before == 2 then start > 2 else start == 2
    requires if after == 2 then end < pages - 1 else end == pages - 1
    requires page == 1 || page == pages || start <= page <= end
    ensures WellFormed(tokens, page, pages)
  {
    if start <= page <= end { assert tokens[before + page - start] == Page(page); }
  }

  /** Strictly increasing by one between neighbouring numbers, from 1 to the last page, the current
      page present, and an ellipsis exactly at each gap. */
  lemma TokensAreWellFormed(page: int, pages: int)
    requires 1 <= page <= pages
    ensures WellFormed(Windowed(page, pages), page, pages)
  {
    if pages <= 7 {
      RunIs(1, pages);
      assert Windowed(page, pages)[page - 1] == Page(page);
    } else {
      var start, end := Max(2, page - 2), Min(pages - 1, page + 2);
      WindowedLayout(page, pages);
      LayoutIsWellFormed(Windowed(page, pages), if start > 2 then 2 else 1, start, end,
                         if end < pages - 1 then 2 else 1, page, pages);
    }
  }

  /** With more than seven pages exactly these are offered: the first, the last, and those within two
      of the current one. */
  lemma OffersNeighbours(page: int, pages: int, n: int)
    requires pages > 7 && 1 <= page <= pages
    ensures Page(n) in Windowed(page, pages) <==> n == 1 || n == pages || (1 <= n <= pages && page - 2 <= n <= page + 2)
  {
    var start, end := Max(2, page - 2), Min(pages - 1, page + 2);
    var run := Run(start, end);
    RunIs(start, end);
    if start <= n <= end { assert run[n - start] == Page(n); }
    assert Page(n) in run <==> start <= n <= end;
  }

  lemma {:induction false} NumbersFromOne(n: int)
    requires n >= 1
    ensures Numbers(1, n) == [1] + Numbers(2, n)
  {
    if n == 1 {
      assert Numbers(1, 0) == [] && Numbers(2, 1) == [];
    } else {
      NumbersFromOne(n - 1);
    }
  }

  lemma {:induction false} AscendingMembers(keep: set<int>, lo: int, hi: int)
    ensures forall n :: n in Ascending(keep, lo, hi) ==> n in keep
    decreases hi - lo
  {
    if lo <= hi { AscendingMembers(keep, lo + 1, hi); }
  }

  lemma {:induction false} OnlyKept(values: seq<int>, n: int)
    ensures Page(n) in Gapped(values) ==> n in values
  {
    if values != [] {
      OnlyKept(values[..|values| - 1], n);
    }
  }

  lemma FewPagesAgree(page: int, pages: int)
    requires 1 <= page <= pages <= 7 && page <= 4 && page >= pages - 3
    ensures Collected(page, pages) == Run(1, pages)
  {
    var keep := KeepSet(page, pages);
    AscendingAll(keep, 1, pages);
    assert Gapped([1]) == [Page(1)] by { GappedOne([], 1); assert [] + [1] == [1]; }
    if pages == 1 {
      RunOfOne(1);
    } else {
      NumbersFromOne(pages);
      GappedRun([1], 2, pages);
      assert Lead([1], 2) == [Page(1)];
      RunFromOne(pages);
    }
  }

  lemma RunFromOne(n: int)
    requires n >= 1
    ensures [Page(1)] + Run(2, n) == Run(1, n)
  {
    RunIs(1, n);
    RunIs(2, n);
  }

  lemma OutOfReachMissing(page: int, pages: int, missing: int)
    requires 1 <= missing <= pages && missing !in KeepSet(page, pages)
    ensures Collected(page, pages) != Run(1, pages)
  {
    var keep := KeepSet(page, pages);
    RunIs(1, pages);
    OnlyKept(Ascending(keep, 1, pages), missing);
    AscendingMembers(keep, 1, pages);
    assert Run(1, pages)[missing - 1] == Page(missing);
  }

  /** With seven pages or fewer the loop lists them all, and the two agree exactly when the
      current page is within three of both ends. */
  lemma FewPagesAgreement(page: int, pages: int)
    requires 1 <= page <= pages <= 7
    ensures Windowed(page, pages) == Collected(page, pages) <==> page <= 4 && page >= pages - 3
  {
    if page <= 4 && page >= pages - 3 {
      FewPagesAgree(page, pages);
    } else {
      OutOfReachMissing(page, pages, if page > 4 then 2 else pages - 1);
    }
  }
}
