/** Query contexts of the notice list: the cache key they are filed under and the query
    parameters they send (app/procurement/procurementDataClient.ts). */
module QueryContext {
  import opened Text

  datatype NoticeType = Tender | Inquiry {
    function Name(): string { if Tender? then "tender" else "inquiry" }
  }

  /** A filter as the caller supplies it: absent covers both null and undefined. */
  datatype FilterValue =
    | Absent
    | Single(text: string)
    | Items(items: seq<string>)
    | Number(number: int)
    | Flag(flag: bool)

  datatype Filter = Filter(name: string, value: FilterValue)

  ghost predicate DistinctNames(filters: seq<Filter>) {
    forall i, j :: 0 <= i < j < |filters| ==> filters[i].name != filters[j].name
  }

  /** The entries of one object: every name occurs once. */
  type Filters = filters: seq<Filter> | DistinctNames(filters) witness []

  datatype Context = Context(
    noticeType: NoticeType, workflow: string, page: int, pageSize: int, sort: string, filters: Filters)

  datatype KeyValue = OneText(text: string) | ManyTexts(texts: seq<string>)
  datatype KeyEntry = KeyEntry(name: string, value: KeyValue)

  /** The value whose JSON text is the cache key. */
  datatype QueryKey = QueryKey(
    noticeType: NoticeType, workflow: string, page: nat, pageSize: nat, sort: string, filters: seq<KeyEntry>)

  const WORKFLOWS: set<string> := {"recent", "recommended", "selected", "submitted", "results"}

  function NormalWorkflow(value: string): string {
    if value in WORKFLOWS then value else "recent"
  }

  function AtLeastOne(n: int): nat { if n < 1 then 1 else n }

  function NormalValue(value: FilterValue): Option<KeyValue> {
    match value
    case Absent => None
    case Single(text) => if text == "" then None else Some(OneText(text))
    case Items(items) => if items == [] then None else Some(ManyTexts(SortText(items)))
    case Number(n) => Some(OneText(IntText(n)))
    case Flag(b) => Some(OneText(if b then "true" else "false"))
  }

  function KeptEntries(filters: seq<Filter>): seq<KeyEntry> {
    if filters == [] then []
    else
      var rest := KeptEntries(filters[1..]);
      match NormalValue(filters[0].value)
      case None => rest
      case Some(v) => [KeyEntry(filters[0].name, v)] + rest
  }

  function EntryName(entry: KeyEntry): string { entry.name }

  function NormalizedFilterEntries(filters: Filters): seq<KeyEntry> {
    Sort(EntryName, KeptEntries(filters))
  }

  function KeyOf(context: Context): QueryKey {
    QueryKey(context.noticeType, NormalWorkflow(context.workflow), AtLeastOne(context.page),
             AtLeastOne(context.pageSize), context.sort, NormalizedFilterEntries(context.filters))
  }

  /** The `noticeType:workflow` label a key carries, by which revisions name it. */
  function ContextId(key: QueryKey): string { key.noticeType.Name() + ":" + key.workflow }

  /** The server names a context by type and workflow, with white space around it at most. */
  predicate Labels(text: string, key: QueryKey) {
    Trim(text) == (if key.noticeType.Tender? then "tender:" else "inquiry:") + key.workflow
  }

  ghost predicate LabelledIn(texts: seq<string>, key: QueryKey) {
    exists i :: 0 <= i < |texts| && Labels(texts[i], key)
  }

  lemma LabelIsContextId(text: string, key: QueryKey)
    ensures Labels(text, key) <==> Trim(text) == ContextId(key)
  {
    assert "tender" + ":" == "tender:" && "inquiry" + ":" == "inquiry:";
  }

  // ----- What a context asks, said without any sorting -----

  datatype Asked = AskedOne(text: string) | AskedBag(bag: multiset<string>)

  function AskedValue(value: FilterValue): Option<Asked> {
    match value
    case Absent => None
    case Single(text) => if text == "" then None else Some(AskedOne(text))
    case Items(items) => if items == [] then None else Some(AskedBag(multiset(items)))
    case Number(n) => Some(AskedOne(IntText(n)))
    case Flag(b) => Some(AskedOne(if b then "true" else "false"))
  }

  function ValueAt(filters: seq<Filter>, name: string): FilterValue {
    if filters == [] then Absent
    else if filters[0].name == name then filters[0].value
    else ValueAt(filters[1..], name)
  }

  function AskedAt(filters: seq<Filter>, name: string): Option<Asked> {
    AskedValue(ValueAt(filters, name))
  }

  ghost predicate SameQuestion(a: Context, b: Context) {
    && a.noticeType == b.noticeType
    && NormalWorkflow(a.workflow) == NormalWorkflow(b.workflow)
    && AtLeastOne(a.page) == AtLeastOne(b.page)
    && AtLeastOne(a.pageSize) == AtLeastOne(b.pageSize)
    && a.sort == b.sort
    && forall name :: AskedAt(a.filters, name) == AskedAt(b.filters, name)
  }

  lemma NormalVersusAsked(a: FilterValue, b: FilterValue)
    ensures NormalValue(a) == NormalValue(b) <==> AskedValue(a) == AskedValue(b)
  {
    if a.Items? && b.Items? {
      SortTextCanonical(a.items, b.items);
      if a.items != [] && b.items == [] { assert a.items[0] in multiset(a.items); }
      if b.items != [] && a.items == [] { assert b.items[0] in multiset(b.items); }
    }
  }

  lemma {:induction false} KeptEntriesAre(filters: seq<Filter>)
    requires DistinctNames(filters)
    ensures forall e :: e in KeptEntries(filters) <==> NormalValue(ValueAt(filters, e.name)) == Some(e.value)
    ensures forall e :: multiset(KeptEntries(filters))[e] <= 1
  {
    if filters != [] {
      var head, rest := filters[0], filters[1..];
      KeptEntriesAre(rest);
      NameAbsent(rest, head.name);
      var kept := KeptEntries(rest);
      assert KeptEntries(filters) == kept
        || (NormalValue(head.value).Some?
            && KeptEntries(filters) == [KeyEntry(head.name, NormalValue(head.value).value)] + kept);
      forall e ensures e in KeptEntries(filters) <==> NormalValue(ValueAt(filters, e.name)) == Some(e.value) {
        assert e in kept <==> NormalValue(ValueAt(rest, e.name)) == Some(e.value);
      }
      forall e ensures multiset(KeptEntries(filters))[e] <= 1 {
        if e.name == head.name { assert e !in kept; assert e !in multiset(kept); }
      }
    }
  }

  lemma {:induction false} NameAbsent(filters: seq<Filter>, name: string)
    requires forall i :: 0 <= i < |filters| ==> filters[i].name != name
    ensures ValueAt(filters, name) == Absent
  {
    if filters != [] { NameAbsent(filters[1..], name); }
  }

  lemma SameEntriesSameMultiset<T>(a: seq<T>, b: seq<T>)
    requires forall e :: multiset(a)[e] <= 1
    requires forall e :: multiset(b)[e] <= 1
    requires forall e :: e in a <==> e in b
    ensures multiset(a) == multiset(b)
  {
    forall e ensures multiset(a)[e] == multiset(b)[e] {
      assert e in multiset(a) <==> e in a;
      assert e in multiset(b) <==> e in b;
    }
  }

  lemma EntryRanksSeparate(filters: Filters)
    ensures RanksSeparate(EntryName, Sort(EntryName, KeptEntries(filters)))
  {
    KeptEntriesAre(filters);
    SortSorted(EntryName, KeptEntries(filters));
    SameMembers(Sort(EntryName, KeptEntries(filters)), KeptEntries(filters));
  }

  /** Key canonicity and soundness in one: two contexts share a cache key exactly when they ask
      the same question, whatever the order of filters, of array values, and of empty filters. */
  lemma KeyEqualIffSameQuestion(a: Context, b: Context)
    ensures KeyOf(a) == KeyOf(b) <==> SameQuestion(a, b)
  {
    var ka, kb := KeptEntries(a.filters), KeptEntries(b.filters);
    KeptEntriesAre(a.filters);
    KeptEntriesAre(b.filters);
    SortSorted(EntryName, ka);
    SortSorted(EntryName, kb);
    if KeyOf(a) == KeyOf(b) {
      SameMembers(ka, Sort(EntryName, ka));
      SameMembers(kb, Sort(EntryName, kb));
      forall name ensures AskedAt(a.filters, name) == AskedAt(b.filters, name) {
        var va, vb := ValueAt(a.filters, name), ValueAt(b.filters, name);
        NormalVersusAsked(va, vb);
        if NormalValue(va).Some? { assert KeyEntry(name, NormalValue(va).value) in kb; }
        if NormalValue(vb).Some? { assert KeyEntry(name, NormalValue(vb).value) in ka; }
      }
    }
    if SameQuestion(a, b) {
      forall e ensures e in ka <==> e in kb {
        assert AskedAt(a.filters, e.name) == AskedAt(b.filters, e.name);
        NormalVersusAsked(ValueAt(a.filters, e.name), ValueAt(b.filters, e.name));
      }
      SameEntriesSameMultiset(ka, kb);
      EntryRanksSeparate(a.filters);
      SortedUnique(EntryName, Sort(EntryName, ka), Sort(EntryName, kb));
    }
  }

  /** What a key keeps apart, in plain terms: for pages and sizes of at least one and known
      workflows, contexts with one key have the same type, workflow, page, page size and sort. */
  lemma EqualKeysAgree(a: Context, b: Context)
    requires KeyOf(a) == KeyOf(b)
    requires a.page >= 1 && b.page >= 1 && a.pageSize >= 1 && b.pageSize >= 1
    requires IsKnown(a.workflow) && IsKnown(b.workflow)
    ensures a.noticeType == b.noticeType && a.workflow == b.workflow
    ensures a.page == b.page && a.pageSize == b.pageSize && a.sort == b.sort
  {
    Normalised(a);
    Normalised(b);
  }

  predicate IsKnown(workflow: string) {
    || workflow == "recent" || workflow == "recommended" || workflow == "selected"
    || workflow == "submitted" || workflow == "results"
  }

  /** Pages and sizes below one count as one, unknown workflows as the recent one; nothing else is
      changed on the way into the key. */
  lemma Normalised(c: Context)
    ensures var k := KeyOf(c);
      && k.noticeType == c.noticeType && k.sort == c.sort
      && k.page == (if c.page >= 1 then c.page else 1)
      && k.pageSize == (if c.pageSize >= 1 then c.pageSize else 1)
      && k.workflow == (if IsKnown(c.workflow) then c.workflow else "recent")
  {
    assert c.workflow in WORKFLOWS <==> IsKnown(c.workflow);
  }

  // ----- Query parameters -----

  datatype Param = Param(name: string, value: string)

  function ValuesOf(params: seq<Param>, name: string): multiset<string> {
    if params == [] then multiset{}
    else (if params[0].name == name then multiset{params[0].value} else multiset{}) + ValuesOf(params[1..], name)
  }

  function Without(params: seq<Param>, name: string): seq<Param> {
    if params == [] then []
    else (if params[0].name == name then [] else [params[0]]) + Without(params[1..], name)
  }

  /** `URLSearchParams.set`: the first pair of that name takes the value, the others go. */
  function SetParam(params: seq<Param>, name: string, value: string): seq<Param> {
    if params == [] then [Param(name, value)]
    else if params[0].name == name then [Param(name, value)] + Without(params[1..], name)
    else [params[0]] + SetParam(params[1..], name, value)
  }

  lemma {:induction false} WithoutValues(params: seq<Param>, name: string, other: string)
    ensures ValuesOf(Without(params, name), other) == if other == name then multiset{} else ValuesOf(params, other)
  {
    if params != [] {
      WithoutValues(params[1..], name, other);
      var rest := Without(params[1..], name);
      assert ([params[0]] + rest)[1..] == rest;
      assert [] + rest == rest;
    }
  }

  lemma {:induction false} SetParamValues(params: seq<Param>, name: string, value: string, other: string)
    ensures ValuesOf(SetParam(params, name, value), other)
         == if other == name then multiset{value} else ValuesOf(params, other)
  {
    if params != [] {
      if params[0].name == name {
        WithoutValues(params[1..], name, other);
        assert ([Param(name, value)] + Without(params[1..], name))[1..] == Without(params[1..], name);
      } else {
        SetParamValues(params[1..], name, value, other);
        assert ([params[0]] + SetParam(params[1..], name, value))[1..] == SetParam(params[1..], name, value);
      }
    }
  }

  lemma {:induction false} AppendValues(params: seq<Param>, name: string, value: string, other: string)
    ensures ValuesOf(params + [Param(name, value)], other)
         == ValuesOf(params, other) + (if other == name then multiset{value} else multiset{})
  {
    var all := params + [Param(name, value)];
    if params != [] {
      AppendValues(params[1..], name, value, other);
      assert all[1..] == params[1..] + [Param(name, value)];
    }
  }

  /** The parameters every context sends, before its filters. */
  function BaseValues(context: Context, name: string): multiset<string> {
    if name == "ordering" then (if context.sort == "" then multiset{} else multiset{context.sort})
    else if name == "page_size" then multiset{IntText(AtLeastOne(context.pageSize))}
    else if name == "page" then multiset{IntText(AtLeastOne(context.page))}
    else if name == "workflow" then multiset{NormalWorkflow(context.workflow)}
    else if name == "notice_type" then multiset{context.noticeType.Name()}
    else multiset{}
  }

  /** A single-valued filter replaces what is there, an array filter adds to it. */
  function Applied(base: multiset<string>, asked: Option<Asked>): multiset<string> {
    match asked
    case None => base
    case Some(AskedOne(text)) => multiset{text}
    case Some(AskedBag(bag)) => base + bag
  }

  function ParamValues(context: Context, name: string): multiset<string> {
    Applied(BaseValues(context, name), AskedAt(context.filters, name))
  }

  /** `after` differs from `before` in the values of `name` only, which are now `bag`. */
  ghost predicate Replaced(before: seq<Param>, after: seq<Param>, name: string, bag: multiset<string>) {
    forall n :: ValuesOf(after, n) == if n == name then bag else ValuesOf(before, n)
  }

  lemma SetParamReplaces(params: seq<Param>, name: string, value: string)
    ensures Replaced(params, SetParam(params, name, value), name, multiset{value})
  {
    forall n { SetParamValues(params, name, value, n); }
  }

  lemma AppendReplaces(before: seq<Param>, params: seq<Param>, name: string, value: string, bag: multiset<string>)
    requires Replaced(before, params, name, bag)
    ensures Replaced(before, params + [Param(name, value)], name, bag + multiset{value})
  {
    forall n { AppendValues(params, name, value, n); }
  }

  method SetValue(params: seq<Param>, name: string, value: string) returns (r: seq<Param>)
    ensures Replaced(params, r, name, multiset{value})
  {
    SetParamReplaces(params, name, value);
    r := SetParam(params, name, value);
  }

  method AppendAll(params: seq<Param>, name: string, items: seq<string>) returns (r: seq<Param>)
    ensures Replaced(params, r, name, ValuesOf(params, name) + multiset(items))
  {
    r := params;
    for i := 0 to |items|
      invariant Replaced(params, r, name, ValuesOf(params, name) + multiset(items[..i]))
    {
      AppendReplaces(params, r, name, items[i], ValuesOf(params, name) + multiset(items[..i]));
      assert items[..i + 1] == items[..i] + [items[i]];
      r := r + [Param(name, items[i])];
    }
    assert items[..|items|] == items;
  }

  method AppendQueryValue(params: seq<Param>, name: string, value: FilterValue) returns (r: seq<Param>)
    ensures Replaced(params, r, name, Applied(ValuesOf(params, name), AskedValue(value)))
  {
    if value.Absent? || value == Single("") || value == Items([]) {
      return params;
    }
    if value.Items? {
      r := AppendAll(params, name, value.items);
    } else {
      var text := match value
        case Single(text) => text
        case Number(k) => IntText(k)
        case Flag(b) => if b then "true" else "false";
      r := SetValue(params, name, text);
    }
  }

  lemma {:induction false} ValueAtSuffix(filters: seq<Filter>, i: nat, name: string)
    requires DistinctNames(filters) && i < |filters|
    ensures ValueAt(filters[..i + 1], name)
         == if name == filters[i].name then filters[i].value else ValueAt(filters[..i], name)
  {
    if i == 0 {
      assert filters[..1][1..] == [] && filters[..0] == [];
    } else {
      ValueAtSuffix(filters[1..], i - 1, name);
      assert filters[..i + 1][1..] == filters[1..][..i];
      assert filters[..i][1..] == filters[1..][..i - 1];
    }
  }

  method BaseParams(context: Context) returns (params: seq<Param>)
    ensures forall name :: ValuesOf(params, name) == BaseValues(context, name)
  {
    var empty: seq<Param> := [];
    assert forall name :: ValuesOf(empty, name) == multiset{};
    var p1 := SetValue(empty, "notice_type", context.noticeType.Name());
    var p2 := SetValue(p1, "workflow", NormalWorkflow(context.workflow));
    var p3 := SetValue(p2, "page", IntText(AtLeastOne(context.page)));
    params := SetValue(p3, "page_size", IntText(AtLeastOne(context.pageSize)));
    ghost var p4 := params;
    if context.sort != "" {
      params := SetValue(params, "ordering", context.sort);
    }
    forall name ensures ValuesOf(params, name) == BaseValues(context, name) {
      assert ValuesOf(params, name)
        == if name == "ordering" && context.sort != "" then multiset{context.sort} else ValuesOf(p4, name);
      assert ValuesOf(p4, name)
        == if name == "page_size" then multiset{IntText(AtLeastOne(context.pageSize))} else ValuesOf(p3, name);
      assert ValuesOf(p3, name)
        == if name == "page" then multiset{IntText(AtLeastOne(context.page))} else ValuesOf(p2, name);
      assert ValuesOf(p2, name)
        == if name == "workflow" then multiset{NormalWorkflow(context.workflow)} else ValuesOf(p1, name);
    }
  }

  ghost predicate FiltersApplied(context: Context, filters: seq<Filter>, params: seq<Param>) {
    forall name :: ValuesOf(params, name) == Applied(BaseValues(context, name), AskedAt(filters, name))
  }

  lemma OneMoreFilter(context: Context, i: nat, before: seq<Param>, after: seq<Param>)
    requires i < |context.filters|
    requires FiltersApplied(context, context.filters[..i], before)
    requires var f := context.filters[i];
      Replaced(before, after, f.name, Applied(ValuesOf(before, f.name), AskedValue(f.value)))
    ensures FiltersApplied(context, context.filters[..i + 1], after)
  {
    var filters: seq<Filter> := context.filters;
    assert AskedAt(filters[..i], filters[i].name) == None by { NameAbsent(filters[..i], filters[i].name); }
    forall name { ValueAtSuffix(filters, i, name); }
  }

  method QueryParams(context: Context) returns (params: seq<Param>)
    ensures forall name :: ValuesOf(params, name) == ParamValues(context, name)
  {
    params := BaseParams(context);
    var filters: seq<Filter> := context.filters;
    for i := 0 to |filters|
      invariant FiltersApplied(context, filters[..i], params)
    {
      ghost var before := params;
      params := AppendQueryValue(params, filters[i].name, filters[i].value);
      OneMoreFilter(context, i, before, params);
    }
    assert filters[..|filters|] == filters;
  }

  ghost predicate Free(filters: seq<Filter>) {
    forall i :: 0 <= i < |filters| ==>
      filters[i].name !in ["notice_type", "workflow", "page", "page_size", "ordering"]
  }

  /** A decimal text of `n`: digits only, no leading zero, and it reads as `n`. */
  predicate Decimal(text: string, n: int) {
    AllDigits(text) && text != "" && (text[0] == '0' ==> |text| == 1) && ParseNat(text) == n
  }

  /** What is sent besides the filters: the type, the workflow, page and page size in decimals, and
      the sort if there is one. */
  lemma BaseIsSent(c: Context)
    requires c.page >= 1 && c.pageSize >= 1 && IsKnown(c.workflow) && Free(c.filters)
    ensures ParamValues(c, "notice_type") == multiset{if c.noticeType.Tender? then "tender" else "inquiry"}
    ensures ParamValues(c, "workflow") == multiset{c.workflow}
    ensures exists text :: ParamValues(c, "page") == multiset{text} && Decimal(text, c.page)
    ensures exists text :: ParamValues(c, "page_size") == multiset{text} && Decimal(text, c.pageSize)
    ensures ParamValues(c, "ordering") == if c.sort == "" then multiset{} else multiset{c.sort}
  {
    TypeIsSent(c);
    WorkflowIsSent(c);
    SortIsSent(c);
    PageIsSent(c);
    PageSizeIsSent(c);
  }

  lemma TypeIsSent(c: Context)
    requires Free(c.filters)
    ensures ParamValues(c, "notice_type") == multiset{if c.noticeType.Tender? then "tender" else "inquiry"}
  {
    BaseOnly(c, "notice_type");
  }

  lemma WorkflowIsSent(c: Context)
    requires Free(c.filters) && IsKnown(c.workflow)
    ensures ParamValues(c, "workflow") == multiset{c.workflow}
  {
    BaseOnly(c, "workflow");
    Normalised(c);
  }

  lemma SortIsSent(c: Context)
    requires Free(c.filters)
    ensures ParamValues(c, "ordering") == if c.sort == "" then multiset{} else multiset{c.sort}
  {
    BaseOnly(c, "ordering");
  }

  lemma PageIsSent(c: Context)
    requires c.page >= 1 && Free(c.filters)
    ensures exists text :: ParamValues(c, "page") == multiset{text} && Decimal(text, c.page)
  {
    BaseOnly(c, "page");
    PageTextReads(c.page);
    assert ParamValues(c, "page") == multiset{NatText(c.page)};
  }

  lemma PageSizeIsSent(c: Context)
    requires c.pageSize >= 1 && Free(c.filters)
    ensures exists text :: ParamValues(c, "page_size") == multiset{text} && Decimal(text, c.pageSize)
  {
    BaseOnly(c, "page_size");
    PageTextReads(c.pageSize);
    assert ParamValues(c, "page_size") == multiset{NatText(c.pageSize)};
  }

  lemma BaseOnly(c: Context, name: string)
    requires Free(c.filters) && name in ["notice_type", "workflow", "page", "page_size", "ordering"]
    ensures ParamValues(c, name) == BaseValues(c, name)
  {
    var filters: seq<Filter> := c.filters;
    NameAbsent(filters, name);
  }

  lemma PageTextReads(n: nat)
    ensures Decimal(NatText(n), n)
  {
    NatTextParses(n);
  }

  lemma {:induction false} ValueAtIs(filters: seq<Filter>, i: nat)
    requires DistinctNames(filters) && i < |filters|
    ensures ValueAt(filters, filters[i].name) == filters[i].value
  {
    if i > 0 {
      assert filters[0].name != filters[i].name;
      ValueAtIs(filters[1..], i - 1);
    }
  }

  /** What is sent for a filter under a name of its own: its text, number or truth value once, or
      every item of its list as often as it occurs; nothing for an absent or empty one. */
  lemma FilterIsSent(c: Context, i: nat)
    requires i < |c.filters| && Free(c.filters)
    ensures var filter := c.filters[i]; var sent := ParamValues(c, filter.name);
      match filter.value
      case Absent => sent == multiset{}
      case Single(text) => sent == if text == "" then multiset{} else multiset{text}
      case Items(items) => sent == multiset(items)
      case Number(n) => SentNumber(sent, n)
      case Flag(b) => sent == multiset{if b then "true" else "false"}
  {
    ValueAtIs(c.filters, i);
    var filter := c.filters[i];
    if filter.value.Number? {
      var n := filter.value.number;
      var size := if n < 0 then -n else n;
      PageTextReads(size);
      assert ParamValues(c, filter.name) == multiset{IntText(n)};
      assert IntText(n) == if n < 0 then "-" + NatText(size) else NatText(size);
    }
  }

  ghost predicate SentNumber(sent: multiset<string>, n: int) {
    exists text :: Decimal(text, if n < 0 then -n else n) && sent == multiset{if n < 0 then "-" + text else text}
  }

  /** Coalescing and cache hits never change the question sent: contexts filed under one key
      send every parameter with the same values, as many times each. */
  lemma EqualKeysSendEqualParams(a: Context, b: Context, name: string)
    requires KeyOf(a) == KeyOf(b)
    ensures ParamValues(a, name) == ParamValues(b, name)
  {
    KeyEqualIffSameQuestion(a, b);
  }
}
