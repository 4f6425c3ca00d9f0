/** The list of direct referrals in the workspace: an effect that shows what it has cached for its
    query, aborts the previous request, and lets only the newest request write (by a generation
    counter of its own). A query is named by its URL. */
module DirectList {
  import opened Text
  import opened RequestCore

  datatype Answer = Loaded(payload: Payload) | LoadFailed | AbortSeen

  datatype DirectRequest = DirectRequest(url: string, gen: nat, aborted: bool, reply: Reply)

  datatype Shown = Shown(url: string, payload: Payload)

  /** `url` is the query on screen, none when the tab is left. */
  datatype Direct = Direct(
    cache: map<string, Payload>, rows: Option<Shown>, generation: nat, controller: Option<nat>,
    loading: bool, failed: bool, url: Option<string>, requests: seq<DirectRequest>)

  const BLANK := Direct(map[], None, 0, None, false, false, None, [])

  function AbortedAt(requests: seq<DirectRequest>, controller: Option<nat>): seq<DirectRequest> {
    if controller.Some? && controller.value < |requests|
    then requests[controller.value := requests[controller.value].(aborted := true)] else requests
  }

  /** The effect for `url`. */
  function Enter(s: Direct, url: string): Direct {
    s.(rows := if url in s.cache then Some(Shown(url, s.cache[url])) else s.rows,
       controller := Some(|s.requests|), generation := s.generation + 1, loading := true, failed := false,
       url := Some(url),
       requests := AbortedAt(s.requests, s.controller) + [DirectRequest(url, s.generation + 1, false, Waiting)])
  }

  /** The clean-up of the effect when the tab is left. */
  function Leave(s: Direct): Direct {
    s.(url := None, requests := AbortedAt(s.requests, s.controller))
  }

  function Clear(s: Direct): Direct { s.(cache := map[]) }

  predicate Pending(s: Direct, r: nat) { r < |s.requests| && s.requests[r].reply.Waiting? }

  /** The continuations of request `r`. */
  function Resolve(s: Direct, r: nat, answer: Answer): Direct
    requires Pending(s, r)
  {
    var q := s.requests[r];
    var current := q.gen == s.generation;
    var reply := if answer.Loaded? then Answered(answer.payload) else Broken;
    var done := s.(requests := s.requests[r := q.(reply := reply)], loading := s.loading && !current);
    match answer
    case Loaded(payload) =>
      if !current then done
      else done.(cache := s.cache[q.url := payload], rows := Some(Shown(q.url, payload)))
    case LoadFailed => done.(failed := true)
    case AbortSeen => done
  }

  datatype Happening = Entering(url: string) | Leaving | Clearing | Settling(request: nat, answer: Answer)

  /** A request sees an abort only if it was aborted; an aborted one may still be answered. */
  function Happen(s: Direct, h: Happening): Direct {
    match h
    case Entering(url) => Enter(s, url)
    case Leaving => Leave(s)
    case Clearing => Clear(s)
    case Settling(r, answer) =>
      if Pending(s, r) && (answer.AbortSeen? ==> s.requests[r].aborted) then Resolve(s, r, answer) else s
  }

  function HappenAll(s: Direct, hs: seq<Happening>): Direct
    decreases |hs|
  {
    if hs == [] then s else HappenAll(Happen(s, hs[0]), hs[1..])
  }

  // ----- Invariant -----

  ghost predicate AnsweredFor(s: Direct, url: string, payload: Payload) {
    exists r :: 0 <= r < |s.requests| && s.requests[r].url == url && s.requests[r].reply == Answered(payload)
  }

  ghost predicate Genuine(s: Direct) {
    && (forall url :: url in s.cache ==> AnsweredFor(s, url, s.cache[url]))
    && (s.rows.Some? ==> AnsweredFor(s, s.rows.value.url, s.rows.value.payload))
  }

  ghost predicate Counted(s: Direct) {
    && s.generation == |s.requests|
    && (forall r :: 0 <= r < |s.requests| ==> s.requests[r].gen == r + 1)
    && s.controller == (if s.requests == [] then None else Some(|s.requests| - 1))
  }

  /** The flags and rows follow the newest request. */
  ghost predicate Follows(s: Direct) {
    && (s.url.Some? ==> s.requests != [])
    && (s.requests == [] ==> !s.loading)
    && (s.requests != [] ==>
          var newest := s.requests[|s.requests| - 1];
          && (s.loading <==> newest.reply.Waiting?)
          && (s.url.Some? ==> newest.url == s.url.value && !newest.aborted)
          && (newest.reply.Answered? ==> s.rows == Some(Shown(newest.url, newest.reply.payload)))
          && (newest.reply.Broken? && !newest.aborted ==> s.failed))
  }

  ghost predicate Inv(s: Direct) { Counted(s) && Follows(s) && Genuine(s) }

  lemma GenuineCarries(s: Direct, t: Direct)
    requires Genuine(s) && |s.requests| <= |t.requests|
    requires forall r :: 0 <= r < |s.requests| && s.requests[r].reply.Answered? ==>
      t.requests[r].url == s.requests[r].url && t.requests[r].reply == s.requests[r].reply
    requires forall url :: url in t.cache ==>
      (url in s.cache && t.cache[url] == s.cache[url]) || AnsweredFor(t, url, t.cache[url])
    requires t.rows.Some? && t.rows != s.rows ==>
      AnsweredFor(t, t.rows.value.url, t.rows.value.payload)
      || (t.rows.value.url in s.cache && s.cache[t.rows.value.url] == t.rows.value.payload)
    ensures Genuine(t)
  {
  }

  lemma EnterKeepsInv(s: Direct, url: string)
    requires Inv(s)
    ensures Inv(Enter(s, url))
  {
    assert Counted(Enter(s, url)) && Follows(Enter(s, url));
    GenuineCarries(s, Enter(s, url));
  }

  lemma LeaveKeepsInv(s: Direct)
    requires Inv(s)
    ensures Inv(Leave(s))
  {
    assert Counted(Leave(s)) && Follows(Leave(s));
    GenuineCarries(s, Leave(s));
  }

  lemma ResolveKeepsInv(s: Direct, r: nat, answer: Answer)
    requires Inv(s) && Pending(s, r) && (answer.AbortSeen? ==> s.requests[r].aborted)
    ensures Inv(Resolve(s, r, answer))
  {
    var t := Resolve(s, r, answer);
    assert Counted(t) && Follows(t);
    if answer.Loaded? {
      assert t.requests[r].url == s.requests[r].url && t.requests[r].reply == Answered(answer.payload);
      assert AnsweredFor(t, s.requests[r].url, answer.payload);
    }
    GenuineCarries(s, t);
  }

  lemma HappenKeepsInv(s: Direct, h: Happening)
    requires Inv(s)
    ensures Inv(Happen(s, h))
  {
    match h {
      case Entering(url) => EnterKeepsInv(s, url);
      case Leaving => LeaveKeepsInv(s);
      case Clearing => GenuineCarries(s, Clear(s));
      case Settling(r, answer) =>
        if Pending(s, r) && (answer.AbortSeen? ==> s.requests[r].aborted) { ResolveKeepsInv(s, r, answer); }
    }
  }

  lemma {:induction false} HappenAllKeepsInv(s: Direct, hs: seq<Happening>)
    requires Inv(s)
    ensures Inv(HappenAll(s, hs))
    decreases |hs|
  {
    if hs != [] {
      HappenKeepsInv(s, hs[0]);
      HappenAllKeepsInv(Happen(s, hs[0]), hs[1..]);
    }
  }

  // ----- What is shown -----

  /** With the list on screen, not loading and no error shown, the rows are the newest request's
      answer to the query on screen; and rows shown at any time were answered for their query. */
  lemma ShowsTheQuery(hs: seq<Happening>)
    ensures var s := HappenAll(BLANK, hs);
      && (s.url.Some? && !s.loading && !s.failed ==>
            && s.rows.Some? && s.rows.value.url == s.url.value && s.requests != []
            && s.requests[|s.requests| - 1].reply == Answered(s.rows.value.payload))
      && (s.rows.Some? ==> AnsweredFor(s, s.rows.value.url, s.rows.value.payload))
  {
    HappenAllKeepsInv(BLANK, hs);
  }

  /** Only the newest request writes: whatever happens to an older one leaves rows, cache and the
      loading flag alone. Its failure still raises the error message, which is then not about the
      list on screen. */
  lemma OlderRequestsAreInert(hs: seq<Happening>, r: nat, answer: Answer)
    requires Pending(HappenAll(BLANK, hs), r) && r < |HappenAll(BLANK, hs).requests| - 1
    ensures var s := HappenAll(BLANK, hs); var t := Resolve(s, r, answer);
      && t.rows == s.rows && t.cache == s.cache && t.loading == s.loading && t.generation == s.generation
      && (t.failed <==> s.failed || answer.LoadFailed?)
  {
    HappenAllKeepsInv(BLANK, hs);
  }

  ghost predicate SupersededAborted(s: Direct) {
    && (forall r :: 0 <= r < |s.requests| - 1 ==> s.requests[r].aborted)
    && (s.url.None? && s.requests != [] ==> s.requests[|s.requests| - 1].aborted)
  }

  lemma HappenAborts(s: Direct, h: Happening)
    requires Counted(s) && SupersededAborted(s)
    ensures SupersededAborted(Happen(s, h))
  {
    var t := Happen(s, h);
    if h.Entering? {
      var n := |s.requests|;
      assert forall r :: 0 <= r < n ==> t.requests[r].aborted;
    }
  }

  lemma {:induction false} HappenAllAborts(s: Direct, hs: seq<Happening>)
    requires Inv(s) && SupersededAborted(s)
    ensures SupersededAborted(HappenAll(s, hs))
    decreases |hs|
  {
    if hs != [] {
      HappenKeepsInv(s, hs[0]);
      HappenAborts(s, hs[0]);
      HappenAllAborts(Happen(s, hs[0]), hs[1..]);
    }
  }

  /** In every run all requests but the newest have been aborted, and that one too once the list has
      been left. */
  lemma OlderRequestsAreAborted(hs: seq<Happening>)
    ensures SupersededAborted(HappenAll(BLANK, hs))
  {
    HappenAllAborts(BLANK, hs);
  }

  /** The happening neither clears the cache nor brings the newest request an answer to `url`. */
  predicate Spares(s: Direct, h: Happening, url: string) {
    match h
    case Clearing => false
    case Settling(r, answer) => answer.Loaded? && r < |s.requests| && r == |s.requests| - 1 ==> s.requests[r].url != url
    case _ => true
  }

  predicate AllSpare(s: Direct, hs: seq<Happening>, url: string)
    decreases |hs|
  {
    hs != [] ==> Spares(s, hs[0], url) && AllSpare(Happen(s, hs[0]), hs[1..], url)
  }

  lemma SparedOnce(s: Direct, h: Happening, url: string)
    requires Counted(s) && url in s.cache && Spares(s, h, url)
    ensures url in Happen(s, h).cache && Happen(s, h).cache[url] == s.cache[url]
  {
  }

  lemma {:induction false} SparedStays(s: Direct, hs: seq<Happening>, url: string)
    requires Inv(s) && url in s.cache && AllSpare(s, hs, url)
    ensures url in HappenAll(s, hs).cache && HappenAll(s, hs).cache[url] == s.cache[url]
    decreases |hs|
  {
    if hs != [] {
      HappenKeepsInv(s, hs[0]);
      SparedOnce(s, hs[0], url);
      SparedStays(Happen(s, hs[0]), hs[1..], url);
    }
  }

  /** A list once answered is shown at once when it is entered again, whatever happened in between
      short of clearing the cache or a newer answer, while it is loaded anew. */
  lemma AnsweredListIsShownAgain(before: seq<Happening>, payload: Payload, between: seq<Happening>)
    requires var s := HappenAll(BLANK, before);
      s.requests != [] && Pending(s, |s.requests| - 1)
      && AllSpare(Resolve(s, |s.requests| - 1, Loaded(payload)), between, s.requests[|s.requests| - 1].url)
    ensures var s := HappenAll(BLANK, before);
      var url := s.requests[|s.requests| - 1].url;
      var t := Resolve(s, |s.requests| - 1, Loaded(payload));
      var v := Happen(HappenAll(t, between), Entering(url));
      && t.rows == Some(Shown(url, payload)) && !t.loading
      && v.rows == Some(Shown(url, payload)) && v.loading && !v.failed && v.url == Some(url)
  {
    var s := HappenAll(BLANK, before);
    HappenAllKeepsInv(BLANK, before);
    ResolveKeepsInv(s, |s.requests| - 1, Loaded(payload));
    SparedStays(Resolve(s, |s.requests| - 1, Loaded(payload)), between, s.requests[|s.requests| - 1].url);
  }

  class DirectReferrals {
    var directCache: map<string, Payload>
    var directRows: Option<Shown>
    var directGeneration: nat
    var directController: Option<nat>
    var directLoading: bool
    var directError: bool
    var onScreen: Option<string>
    var requests: seq<DirectRequest>

    ghost function View(): Direct
      reads this
    {
      Direct(directCache, directRows, directGeneration, directController, directLoading, directError,
             onScreen, requests)
    }

    constructor ()
      ensures View() == BLANK
    {
      directCache, directRows, directGeneration, directController := map[], None, 0, None;
      directLoading, directError, onScreen, requests := false, false, None, [];
    }

    method AbortCurrent()
      modifies this`requests
      ensures requests == AbortedAt(old(requests), directController)
    {
      if directController.Some? && directController.value < |requests| {
        var r := directController.value;
        requests := requests[r := requests[r].(aborted := true)];
      }
    }

    method Load(url: string)
      modifies this
      ensures View() == Enter(old(View()), url)
    {
      onScreen := Some(url);
      if url in directCache { directRows := Some(Shown(url, directCache[url])); }
      AbortCurrent();
      directController := Some(|requests|);
      directGeneration := directGeneration + 1;
      directLoading := true;
      directError := false;
      requests := requests + [DirectRequest(url, directGeneration, false, Waiting)];
    }

    method CleanUp()
      modifies this
      ensures View() == Leave(old(View()))
    {
      onScreen := None;
      AbortCurrent();
    }

    method Receive(r: nat, answer: Answer)
      requires Pending(View(), r)
      modifies this
      ensures View() == Resolve(old(View()), r, answer)
    {
      var q := requests[r];
      requests := requests[r := q.(reply := if answer.Loaded? then Answered(answer.payload) else Broken)];
      if answer.Loaded? && directGeneration == q.gen {
        directCache := directCache[q.url := answer.payload];
        directRows := Some(Shown(q.url, answer.payload));
      }
      if answer.LoadFailed? { directError := true; }
      if directGeneration == q.gen { directLoading := false; }
    }
  }
}
