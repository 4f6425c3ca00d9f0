/** The analysis-context editor: snapshot lists shown as text, text saved back as lists
    (FastAnalysisContextManager). */
module ContextEditor {
  import opened Text

  /** A JSON value, as far as the editor looks into it; `Other` covers numbers and booleans with the
      text `String` makes of them. */
  datatype Json =
    | Str(text: string)
    | Record(fields: map<string, Json>)
    | List(items: seq<Json>)
    | Null
    | Other(rendering: string, truthy: bool)

  function StringOf(v: Json): string
    decreases v, 1
  {
    match v
    case Str(text) => text
    case Record(_) => "[object Object]"
    case List(items) => CommaJoined(items)
    case Null => "null"
    case Other(rendering, _) => rendering
  }

  /** Joining an array leaves its null elements empty. */
  function CommaJoined(items: seq<Json>): string
    decreases items, 0
  {
    if items == [] then ""
    else
      var first := if items[0].Null? then "" else StringOf(items[0]);
      if |items| == 1 then first else first + "," + CommaJoined(items[1..])
  }

  /** `String(title || "")` */
  function TitleText(v: Json): string {
    if v.Null? || (v.Other? && !v.truthy) then "" else StringOf(v)
  }

  function LineOf(item: Json): string {
    match item
    case Str(text) => text
    case Record(fields) => if "title" in fields then TitleText(fields["title"]) else ""
    case List(_) => ""
    case Null => ""
    case Other(_, _) => ""
  }

  function NonEmpty(xs: seq<string>): seq<string> {
    if xs == [] then []
    else (if xs[0] == "" then [] else [xs[0]]) + NonEmpty(xs[1..])
  }

  function Join(xs: seq<string>): string {
    if xs == [] then "" else if |xs| == 1 then xs[0] else xs[0] + "\n" + Join(xs[1..])
  }

  function LineTexts(items: seq<Json>): seq<string> {
    seq(|items|, i requires 0 <= i < |items| => LineOf(items[i]))
  }

  function Lines(items: seq<Json>): string { Join(NonEmpty(LineTexts(items))) }

  /** `split(/\r?\n/)` */
  function Split(s: string): (r: seq<string>)
    ensures |r| >= 1
  {
    if s == "" then [""]
    else if s[0] == '\n' then [""] + Split(s[1..])
    else if s[0] == '\r' && |s| > 1 && s[1] == '\n' then [""] + Split(s[2..])
    else
      var rest := Split(s[1..]);
      [[s[0]] + rest[0]] + rest[1..]
  }

  function TrimAll(xs: seq<string>): seq<string> {
    seq(|xs|, i requires 0 <= i < |xs| => Trim(xs[i]))
  }

  function ListFromText(s: string): seq<string> { NonEmpty(TrimAll(Split(s))) }

  // ----- Text to list and back -----

  /** A line the editor can hold: not empty, trimmed, in one piece. */
  predicate IsLine(x: string) { x != "" && Trimmed(x) && '\n' !in x }

  ghost predicate AreLines(xs: seq<string>) { forall i :: 0 <= i < |xs| ==> IsLine(xs[i]) }

  lemma {:induction false} SplitPieces(s: string)
    ensures forall i :: 0 <= i < |Split(s)| ==> '\n' !in Split(s)[i]
  {
    if s == "" {
    } else if s[0] == '\n' {
      SplitPieces(s[1..]);
    } else if s[0] == '\r' && |s| > 1 && s[1] == '\n' {
      SplitPieces(s[2..]);
    } else {
      SplitPieces(s[1..]);
    }
  }

  lemma {:induction false} NonEmptyIs(xs: seq<string>)
    ensures forall x :: x in NonEmpty(xs) <==> x in xs && x != ""
  {
    if xs != [] { NonEmptyIs(xs[1..]); }
  }

  lemma {:induction false} NonEmptyStays(xs: seq<string>)
    requires forall i :: 0 <= i < |xs| ==> xs[i] != ""
    ensures NonEmpty(xs) == xs
  {
    if xs != [] { NonEmptyStays(xs[1..]); }
  }

  lemma ListIsLines(s: string)
    ensures AreLines(ListFromText(s))
  {
    var pieces := Split(s);
    SplitPieces(s);
    NonEmptyIs(TrimAll(pieces));
    forall i | 0 <= i < |ListFromText(s)| ensures IsLine(ListFromText(s)[i]) {
      var x := ListFromText(s)[i];
      assert x in ListFromText(s);
      var j :| 0 <= j < |pieces| && TrimAll(pieces)[j] == x;
      TrimTrims(pieces[j]);
    }
  }

  lemma {:induction false} SplitFirst(x: string, rest: string)
    requires '\n' !in x && (x != "" ==> x[|x| - 1] != '\r')
    ensures Split(x + "\n" + rest) == [x] + Split(rest)
  {
    var s := x + "\n" + rest;
    if x == "" {
      assert s == "\n" + rest && s[1..] == rest;
    } else {
      assert s[0] == x[0] && s[1..] == x[1..] + "\n" + rest;
      assert s[1] == if |x| > 1 then x[1] else '\n';
      SplitFirst(x[1..], rest);
      assert [x[0]] + x[1..] == x;
    }
  }

  lemma {:induction false} SplitWhole(x: string)
    requires '\n' !in x
    ensures Split(x) == [x]
  {
    if x != "" {
      SplitWhole(x[1..]);
      assert [x[0]] + x[1..] == x;
    }
  }

  lemma {:induction false} SplitJoin(xs: seq<string>)
    requires xs != [] && AreLines(xs)
    ensures Split(Join(xs)) == xs
  {
    assert IsLine(xs[0]);
    if |xs| == 1 {
      SplitWhole(xs[0]);
    } else {
      assert AreLines(xs[1..]);
      SplitJoin(xs[1..]);
      SplitFirst(xs[0], Join(xs[1..]));
      assert xs == [xs[0]] + xs[1..];
    }
  }

  /** Lists of lines survive being shown and read back. */
  lemma JoinRoundTrip(xs: seq<string>)
    requires AreLines(xs)
    ensures ListFromText(Join(xs)) == xs
  {
    if xs == [] {
      assert Split("") == [""];
      assert TrimAll([""]) == [""];
      assert NonEmpty([""]) == [] by { assert [""][1..] == []; }
    } else {
      SplitJoin(xs);
      forall i | 0 <= i < |xs| ensures Trim(xs[i]) == xs[i] { assert IsLine(xs[i]); TrimmedStays(xs[i]); }
      assert TrimAll(xs) == xs;
      forall i | 0 <= i < |xs| ensures xs[i] != "" { assert IsLine(xs[i]); }
      NonEmptyStays(xs);
    }
  }

  function Texts(xs: seq<string>): seq<Json> { seq(|xs|, i requires 0 <= i < |xs| => Str(xs[i])) }

  function Titled(xs: seq<string>): seq<Json> {
    seq(|xs|, i requires 0 <= i < |xs| => Record(map["title" := Str(xs[i])]))
  }

  /** Reading a text, showing the list and reading that text again gives the same list, whatever
      the text; and so it does when the entries are wrapped as title objects in between. */
  lemma TextRoundTrip(t: string)
    ensures ListFromText(Lines(Texts(ListFromText(t)))) == ListFromText(t)
    ensures ListFromText(Lines(Titled(ListFromText(t)))) == ListFromText(t)
  {
    ListIsLines(t);
    ShownAs(ListFromText(t));
    JoinRoundTrip(ListFromText(t));
  }

  lemma ShownAs(xs: seq<string>)
    requires AreLines(xs)
    ensures Lines(Texts(xs)) == Join(xs) && Lines(Titled(xs)) == Join(xs)
  {
    assert LineTexts(Texts(xs)) == xs;
    assert LineTexts(Titled(xs)) == xs;
    forall i | 0 <= i < |xs| ensures xs[i] != "" { assert IsLine(xs[i]); }
    NonEmptyStays(xs);
  }

  // ----- Saving -----

  datatype Keywords = Keywords(active: seq<Json>, excluded: seq<Json>, extra: map<string, Json>)

  /** The part of a snapshot the editor shows and saves. */
  datatype Content = Content(
    roleText: string, baseInstructions: string, analysisPrompt: string,
    companyProfile: map<string, Json>, qualifications: seq<Json>, keywords: Keywords, experience: seq<Json>)

  datatype Form = Form(
    roleText: string, baseInstructions: string, analysisPrompt: string, companySummary: string,
    qualifications: string, activeKeywords: string, excludedKeywords: string, experience: string)

  function FormFrom(c: Content): Form {
    var summary :=
      if "summary" in c.companyProfile && c.companyProfile["summary"].Str? then c.companyProfile["summary"].text
      else "";
    Form(c.roleText, c.baseInstructions, c.analysisPrompt, summary, Lines(c.qualifications),
         Lines(c.keywords.active), Lines(c.keywords.excluded), Lines(c.experience))
  }

  /** The body `saveDraft` sends for a form over a draft. */
  function Payload(form: Form, draft: Content): Content {
    Content(form.roleText, form.baseInstructions, form.analysisPrompt,
            draft.companyProfile["summary" := Str(form.companySummary)],
            Texts(ListFromText(form.qualifications)),
            Keywords(Texts(ListFromText(form.activeKeywords)), Texts(ListFromText(form.excludedKeywords)),
                     draft.keywords.extra),
            Titled(ListFromText(form.experience)))
  }

  /** Once saved, and given that the server stores what it is sent, loading the draft and saving it
      again sends the identical body: title objects, extra profile and extra keyword fields included. */
  lemma SavingAgainSendsTheSame(form: Form, draft: Content)
    ensures var saved := Payload(form, draft); Payload(FormFrom(saved), saved) == saved
  {
    TextRoundTrip(form.qualifications);
    TextRoundTrip(form.activeKeywords);
    TextRoundTrip(form.excludedKeywords);
    TextRoundTrip(form.experience);
  }

  /** What was typed is what is saved, whatever the draft held, and loading it shows it again: the
      texts as they are, each list field with the lines of that very field. Everything the form does
      not show is the draft's. */
  lemma SavedIsTyped(form: Form, draft: Content)
    ensures var saved := Payload(form, draft); var shown := FormFrom(saved);
      && saved.roleText == shown.roleText == form.roleText
      && saved.baseInstructions == shown.baseInstructions == form.baseInstructions
      && saved.analysisPrompt == shown.analysisPrompt == form.analysisPrompt
      && "summary" in saved.companyProfile
      && saved.companyProfile["summary"] == Str(form.companySummary)
      && shown.companySummary == form.companySummary
      && (forall k :: k != "summary" ==>
            && (k in saved.companyProfile <==> k in draft.companyProfile)
            && (k in draft.companyProfile ==> saved.companyProfile[k] == draft.companyProfile[k]))
      && saved.keywords.extra == draft.keywords.extra
    ensures var saved := Payload(form, draft); var shown := FormFrom(saved);
      && Reads(saved.qualifications, shown.qualifications, form.qualifications)
      && Reads(saved.keywords.active, shown.activeKeywords, form.activeKeywords)
      && Reads(saved.keywords.excluded, shown.excludedKeywords, form.excludedKeywords)
      && Reads(saved.experience, shown.experience, form.experience)
  {
    TextRoundTrip(form.qualifications);
    TextRoundTrip(form.activeKeywords);
    TextRoundTrip(form.excludedKeywords);
    TextRoundTrip(form.experience);
  }

  /** A stored list, shown as `shown`, has the lines of the text `typed`. */
  ghost predicate Reads(items: seq<Json>, shown: string, typed: string) {
    shown == Lines(items) && ListFromText(shown) == ListFromText(typed)
  }

  ghost predicate PlainLines(items: seq<Json>) {
    forall i :: 0 <= i < |items| ==> items[i].Str? && IsLine(items[i].text)
  }

  ghost predicate IsTitle(item: Json) {
    item.Record? && item.fields.Keys == {"title"} && item.fields["title"].Str? && IsLine(item.fields["title"].text)
  }

  ghost predicate TitleLines(items: seq<Json>) {
    forall i :: 0 <= i < |items| ==> IsTitle(items[i])
  }

  lemma PlainIff(items: seq<Json>)
    ensures Texts(ListFromText(Lines(items))) == items <==> PlainLines(items)
  {
    ListIsLines(Lines(items));
    if PlainLines(items) {
      var xs := LineTexts(items);
      assert items == Texts(xs);
      ShownAs(xs);
      JoinRoundTrip(xs);
    }
    if Texts(ListFromText(Lines(items))) == items {
      forall i | 0 <= i < |items| ensures items[i].Str? && IsLine(items[i].text) {
        assert items[i] == Str(ListFromText(Lines(items))[i]);
      }
    }
  }

  lemma TitleLinesAreTitled(items: seq<Json>)
    requires TitleLines(items)
    ensures items == Titled(LineTexts(items)) && AreLines(LineTexts(items))
  {
    var xs := LineTexts(items);
    forall i | 0 <= i < |items| ensures items[i] == Record(map["title" := Str(xs[i])]) && IsLine(xs[i]) {
      assert IsTitle(items[i]);
      assert items[i].fields == map["title" := items[i].fields["title"]];
    }
  }

  lemma TitleIff(items: seq<Json>)
    ensures Titled(ListFromText(Lines(items))) == items <==> TitleLines(items)
  {
    ListIsLines(Lines(items));
    if TitleLines(items) {
      TitleLinesAreTitled(items);
      ShownAs(LineTexts(items));
      JoinRoundTrip(LineTexts(items));
    }
  }

  /** Opening a draft and saving it unedited sends it back unchanged exactly when its lists are
      trimmed single lines, its experience entries are title objects of such lines, and its summary
      is a text. */
  lemma UneditedSaveIff(c: Content)
    ensures Payload(FormFrom(c), c) == c <==>
      && PlainLines(c.qualifications) && PlainLines(c.keywords.active) && PlainLines(c.keywords.excluded)
      && TitleLines(c.experience)
      && "summary" in c.companyProfile && c.companyProfile["summary"].Str?
  {
    PlainIff(c.qualifications);
    PlainIff(c.keywords.active);
    PlainIff(c.keywords.excluded);
    TitleIff(c.experience);
  }

}
