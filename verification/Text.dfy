/** Strings as the browser code uses them: the code-unit order behind `sort()`, a
    stable insertion sort by a text key, trimming, and decimal rendering. */
module Text {

  datatype Option<+T> = None | Some(value: T)

  /** Lexicographic order on code units. */
  predicate Leq(a: string, b: string) {
    a == [] || (b != [] && (a[0] < b[0] || (a[0] == b[0] && Leq(a[1..], b[1..]))))
  }

  lemma {:induction false} LeqTotal(a: string, b: string)
    ensures Leq(a, b) || Leq(b, a)
  {
    if a != [] && b != [] && a[0] == b[0] {
      LeqTotal(a[1..], b[1..]);
    }
  }

  lemma {:induction false} LeqAntisymmetric(a: string, b: string)
    requires Leq(a, b) && Leq(b, a)
    ensures a == b
  {
    if a != [] && b != [] {
      LeqAntisymmetric(a[1..], b[1..]);
      assert a == [a[0]] + a[1..] && b == [b[0]] + b[1..];
    }
  }

  lemma {:induction false} LeqTransitive(a: string, b: string, c: string)
    requires Leq(a, b) && Leq(b, c)
    ensures Leq(a, c)
  {
    if a != [] && a[0] == b[0] && b[0] == c[0] {
      LeqTransitive(a[1..], b[1..], c[1..]);
    }
  }

  lemma Reassociate<T>(a: seq<T>, b: seq<T>, c: seq<T>)
    ensures (a + b) + c == a + (b + c)
  {
  }

  ghost predicate SortedBy<T>(rank: T -> string, xs: seq<T>) {
    forall i, j :: 0 <= i < j < |xs| ==> Leq(rank(xs[i]), rank(xs[j]))
  }

  function Insert<T>(rank: T -> string, x: T, xs: seq<T>): seq<T> {
    if xs == [] || Leq(rank(x), rank(xs[0])) then [x] + xs
    else [xs[0]] + Insert(rank, x, xs[1..])
  }

  function Sort<T>(rank: T -> string, xs: seq<T>): seq<T> {
    if xs == [] then [] else Insert(rank, xs[0], Sort(rank, xs[1..]))
  }

  lemma SortedCons<T>(rank: T -> string, first: T, x: T, rest: seq<T>, others: seq<T>)
    requires SortedBy(rank, [first] + others) && SortedBy(rank, rest) && Leq(rank(first), rank(x))
    requires multiset(rest) == multiset{x} + multiset(others)
    ensures SortedBy(rank, [first] + rest)
  {
    forall j | 0 <= j < |rest| ensures Leq(rank(first), rank(rest[j])) {
      assert rest[j] in multiset(rest);
      if rest[j] != x {
        var i :| 0 <= i < |others| && others[i] == rest[j];
        assert ([first] + others)[0] == first && ([first] + others)[i + 1] == rest[j];
      }
    }
  }

  lemma {:induction false} InsertSorted<T>(rank: T -> string, x: T, xs: seq<T>)
    requires SortedBy(rank, xs)
    ensures SortedBy(rank, Insert(rank, x, xs))
    ensures multiset(Insert(rank, x, xs)) == multiset{x} + multiset(xs)
  {
    if xs == [] || Leq(rank(x), rank(xs[0])) {
      forall j | 0 <= j < |xs| ensures Leq(rank(x), rank(xs[j])) {
        if j > 0 { LeqTransitive(rank(x), rank(xs[0]), rank(xs[j])); }
      }
    } else {
      var rest := Insert(rank, x, xs[1..]);
      InsertSorted(rank, x, xs[1..]);
      LeqTotal(rank(x), rank(xs[0]));
      assert xs == [xs[0]] + xs[1..];
      SortedCons(rank, xs[0], x, rest, xs[1..]);
    }
  }

  lemma {:induction false} SortSorted<T>(rank: T -> string, xs: seq<T>)
    ensures SortedBy(rank, Sort(rank, xs))
    ensures multiset(Sort(rank, xs)) == multiset(xs)
  {
    if xs != [] {
      SortSorted(rank, xs[1..]);
      InsertSorted(rank, xs[0], Sort(rank, xs[1..]));
      assert xs == [xs[0]] + xs[1..];
    }
  }

  lemma SameMembers<T>(a: seq<T>, b: seq<T>)
    requires multiset(a) == multiset(b)
    ensures |a| == |b|
    ensures forall x :: x in a <==> x in b
  {
    assert |multiset(a)| == |a| && |multiset(b)| == |b|;
    forall x ensures x in a <==> x in b {
      assert x in a <==> x in multiset(a);
      assert x in b <==> x in multiset(b);
    }
  }

  ghost predicate RanksSeparate<T>(rank: T -> string, a: seq<T>) {
    forall x, y :: x in a && y in a && rank(x) == rank(y) ==> x == y
  }

  lemma SameFirst<T>(rank: T -> string, a: seq<T>, b: seq<T>)
    requires SortedBy(rank, a) && SortedBy(rank, b) && RanksSeparate(rank, a)
    requires a != [] && b != [] && a[0] in b && b[0] in a
    ensures a[0] == b[0]
  {
    var i :| 0 <= i < |b| && b[i] == a[0];
    var j :| 0 <= j < |a| && a[j] == b[0];
    LeqTotal(rank(a[0]), rank(a[0]));
    assert Leq(rank(b[0]), rank(a[0]));
    assert Leq(rank(a[0]), rank(b[0]));
    LeqAntisymmetric(rank(a[0]), rank(b[0]));
  }

  lemma TailOf<T>(rank: T -> string, a: seq<T>)
    requires SortedBy(rank, a) && RanksSeparate(rank, a) && a != []
    ensures SortedBy(rank, a[1..]) && RanksSeparate(rank, a[1..])
    ensures multiset(a[1..]) == multiset(a) - multiset{a[0]}
  {
    var a1 := a[1..];
    assert a == [a[0]] + a1;
    forall i, j | 0 <= i < j < |a1| ensures Leq(rank(a1[i]), rank(a1[j])) {
      assert a1[i] == a[i + 1] && a1[j] == a[j + 1];
    }
    forall x, y | x in a1 && y in a1 && rank(x) == rank(y) ensures x == y {
      assert x in a && y in a;
    }
  }

  /** A sorted sequence is determined by its multiset when equal ranks mean equal elements. */
  lemma {:induction false} SortedUnique<T>(rank: T -> string, a: seq<T>, b: seq<T>)
    requires SortedBy(rank, a) && SortedBy(rank, b)
    requires multiset(a) == multiset(b)
    requires RanksSeparate(rank, a)
    ensures a == b
  {
    SameMembers(a, b);
    if a != [] {
      SameFirst(rank, a, b);
      TailOf(rank, a);
      assert RanksSeparate(rank, b);
      TailOf(rank, b);
      SortedUnique(rank, a[1..], b[1..]);
      assert a == [a[0]] + a[1..] && b == [b[0]] + b[1..];
    }
  }

  function Same(s: string): string { s }

  function SortText(xs: seq<string>): seq<string> { Sort(Same, xs) }

  lemma SortTextCanonical(a: seq<string>, b: seq<string>)
    ensures SortText(a) == SortText(b) <==> multiset(a) == multiset(b)
  {
    SortSorted(Same, a);
    SortSorted(Same, b);
    if multiset(a) == multiset(b) {
      SortedUnique(Same, SortText(a), SortText(b));
    }
  }

  /** Decimal text of an integer, as `String(n)` prints it. */
  function NatText(n: nat): string {
    if n < 10 then [Digit(n)] else NatText(n / 10) + [Digit(n % 10)]
  }

  function IntText(n: int): string {
    if n < 0 then "-" + NatText(-n) else NatText(n)
  }

  function Digit(d: nat): char
    requires d < 10
  {
    '0' + d as char
  }

  predicate IsDigit(c: char) { '0' <= c <= '9' }

  predicate AllDigits(s: string) { forall i :: 0 <= i < |s| ==> IsDigit(s[i]) }

  /** `Number(s)` on a text of decimal digits. */
  function ParseNat(s: string): nat
    requires AllDigits(s)
  {
    if s == [] then 0 else 10 * ParseNat(s[..|s| - 1]) + (s[|s| - 1] - '0') as nat
  }

  lemma {:induction false} NatTextParses(n: nat)
    ensures AllDigits(NatText(n)) && ParseNat(NatText(n)) == n && |NatText(n)| >= 1
    ensures NatText(n)[0] == '0' ==> n == 0 && NatText(n) == "0"
  {
    if n >= 10 {
      NatTextParses(n / 10);
      var s := NatText(n);
      assert s[..|s| - 1] == NatText(n / 10);
      assert s[|s| - 1] - '0' == (n % 10) as char;
    }
  }

  /** The white space `String.prototype.trim` removes. */
  predicate IsSpace(c: char) {
    c in "\t\n\U{000B}\U{000C}\r \U{00A0}\U{1680}\U{2028}\U{2029}\U{202F}\U{205F}\U{3000}\U{FEFF}"
    || '\U{2000}' <= c <= '\U{200A}'
  }

  lemma LetterIsNoSpace(c: char)
    requires 'a' <= c <= 'z'
    ensures !IsSpace(c)
  {
  }

  function TrimStart(s: string): string {
    if s != [] && IsSpace(s[0]) then TrimStart(s[1..]) else s
  }

  function TrimEnd(s: string): string {
    if s != [] && IsSpace(s[|s| - 1]) then TrimEnd(s[..|s| - 1]) else s
  }

  function Trim(s: string): string { TrimEnd(TrimStart(s)) }

  predicate Trimmed(s: string) {
    s == [] || (!IsSpace(s[0]) && !IsSpace(s[|s| - 1]))
  }

  lemma {:induction false} TrimEndShape(s: string)
    ensures TrimEnd(s) <= s
    ensures TrimEnd(s) != [] ==> !IsSpace(TrimEnd(s)[|TrimEnd(s)| - 1])
  {
    if s != [] && IsSpace(s[|s| - 1]) {
      var short := s[..|s| - 1];
      assert short <= s;
      TrimEndShape(short);
    }
  }

  lemma {:induction false} TrimStartShape(s: string)
    ensures |TrimStart(s)| <= |s| && TrimStart(s) == s[|s| - |TrimStart(s)|..]
    ensures TrimStart(s) != [] ==> !IsSpace(TrimStart(s)[0])
  {
    if s != [] && IsSpace(s[0]) {
      TrimStartShape(s[1..]);
    }
  }

  lemma TrimTrims(s: string)
    ensures Trimmed(Trim(s))
    ensures forall c :: c in Trim(s) ==> c in s
  {
    TrimStartShape(s);
    TrimEndShape(TrimStart(s));
  }

  /** Trimming takes off exactly the white space around a text. */
  lemma TrimIff(s: string, core: string)
    requires core != ""
    ensures Trim(s) == core <==>
      && Trimmed(core)
      && exists before, after :: s == before + core + after && AllSpace(before) && AllSpace(after)
  {
    if Trim(s) == core {
      TrimTrims(s);
      var start := TrimStart(s);
      TrimStartCuts(s);
      TrimEndCuts(start);
      var before, after := s[..|s| - |start|], start[|core|..];
      assert s == before + core + after;
    }
    if Trimmed(core) {
      forall before, after | s == before + core + after && AllSpace(before) && AllSpace(after) ensures Trim(s) == core {
        TrimStartOf(before, core + after);
        Reassociate(before, core, after);
        TrimEndOf(core, after);
      }
    }
  }

  predicate AllSpace(s: string) { forall i :: 0 <= i < |s| ==> IsSpace(s[i]) }

  lemma SpaceFirst(s: string, n: nat)
    requires 1 <= n <= |s| && IsSpace(s[0])
    ensures AllSpace(s[1..][..n - 1]) ==> AllSpace(s[..n])
    ensures s == s[..n] + s[n..] && s[n..] == s[1..][n - 1..]
  {
    if AllSpace(s[1..][..n - 1]) {
      forall i | 0 <= i < n ensures IsSpace(s[..n][i]) {
        if i > 0 { assert s[..n][i] == s[1..][..n - 1][i - 1]; }
      }
    }
  }

  lemma SpaceLast(s: string, n: nat)
    requires n < |s| && IsSpace(s[|s| - 1])
    ensures AllSpace(s[..|s| - 1][n..]) ==> AllSpace(s[n..])
    ensures s[..|s| - 1] <= s
  {
    if AllSpace(s[..|s| - 1][n..]) {
      forall i | 0 <= i < |s| - n ensures IsSpace(s[n..][i]) {
        if i < |s| - n - 1 { assert s[n..][i] == s[..|s| - 1][n..][i]; }
      }
    }
  }

  lemma {:induction false} TrimStartCuts(s: string)
    ensures |TrimStart(s)| <= |s| && s == s[..|s| - |TrimStart(s)|] + TrimStart(s)
    ensures AllSpace(s[..|s| - |TrimStart(s)|])
  {
    if s != [] && IsSpace(s[0]) {
      TrimStartCuts(s[1..]);
      var n := |s| - |TrimStart(s)|;
      SpaceFirst(s, n);
    } else {
      assert s[..0] == [] && [] + s == s;
    }
  }

  lemma {:induction false} TrimEndCuts(s: string)
    ensures TrimEnd(s) <= s && AllSpace(s[|TrimEnd(s)|..])
  {
    if s != [] && IsSpace(s[|s| - 1]) {
      TrimEndCuts(s[..|s| - 1]);
      SpaceLast(s, |TrimEnd(s)|);
    }
  }

  lemma {:induction false} TrimStartOf(before: string, rest: string)
    requires AllSpace(before) && rest != "" && !IsSpace(rest[0])
    ensures TrimStart(before + rest) == rest
  {
    if before == "" {
      assert before + rest == rest;
    } else {
      assert (before + rest)[1..] == before[1..] + rest;
      TrimStartOf(before[1..], rest);
    }
  }

  lemma {:induction false} TrimEndOf(core: string, after: string)
    requires AllSpace(after) && core != "" && !IsSpace(core[|core| - 1])
    ensures TrimEnd(core + after) == core
  {
    if after == "" {
      assert core + after == core;
    } else {
      assert (core + after)[..|core + after| - 1] == core + after[..|after| - 1];
      TrimEndOf(core, after[..|after| - 1]);
    }
  }

  lemma TrimmedStays(s: string)
    requires Trimmed(s)
    ensures Trim(s) == s
  {
  }
}
