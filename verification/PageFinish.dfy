/** What a page load requests, that the document's Content-Type decides it, and that a load can always finish. */
module PageFinish {
  import opened Text
  import opened PageLoad
  import opened PageRuns
  import ClientCalls
  import HttpClient

  // ---- what the document is ----

  predicate NamesType(h: (string, string)) { EqualFold(h.0, "content-type") }

  ghost predicate SaysNothing(hs: Headers) { forall j | 0 <= j < |hs| :: !NamesType(hs[j]) }

  /** The `i`th header is the last Content-Type. */
  ghost predicate LastType(hs: Headers, i: int) {
    0 <= i < |hs| && NamesType(hs[i]) && forall j | i < j < |hs| :: !NamesType(hs[j])
  }

  /** The last Content-Type among the headers is HTML. */
  ghost predicate SaysHtml(hs: Headers) { exists i :: LastType(hs, i) && EqualFold(hs[i].1, "text/html") }

  lemma LastTypeCons(h: (string, string), rest: Headers, i: int)
    ensures LastType([h] + rest, i + 1) <==> LastType(rest, i) || (i == -1 && NamesType(h) && SaysNothing(rest))
  {
    var hs := [h] + rest;
    assert forall j | 0 <= j < |rest| :: hs[j + 1] == rest[j];
    assert forall j | 0 < j < |hs| :: rest[j - 1] == hs[j];
  }

  lemma SaysNothingCons(h: (string, string), rest: Headers)
    ensures SaysNothing([h] + rest) <==> !NamesType(h) && SaysNothing(rest)
  {
    var hs := [h] + rest;
    assert forall j | 0 <= j < |rest| :: hs[j + 1] == rest[j];
    assert forall j | 0 < j < |hs| :: rest[j - 1] == hs[j];
    assert |hs| > 0 && hs[0] == h;
  }

  lemma SaysHtmlCons(h: (string, string), rest: Headers)
    ensures SaysHtml([h] + rest) <==>
            SaysHtml(rest) || (SaysNothing(rest) && NamesType(h) && EqualFold(h.1, "text/html"))
  {
    var hs := [h] + rest;
    if SaysHtml(rest) {
      var i :| LastType(rest, i) && EqualFold(rest[i].1, "text/html");
      LastTypeCons(h, rest, i);
      assert hs[i + 1] == rest[i] && LastType(hs, i + 1);
    }
    LastTypeCons(h, rest, -1);
    assert -1 + 1 == 0 && hs[0] == h;
    if SaysHtml(hs) {
      var i :| LastType(hs, i) && EqualFold(hs[i].1, "text/html");
      LastTypeCons(h, rest, i - 1);
      assert i > 0 ==> hs[i] == rest[i - 1];
    }
  }

  lemma {:induction false} TypeReadIs(hs: Headers, html: bool)
    ensures TypeRead(hs, html) <==> SaysHtml(hs) || (SaysNothing(hs) && html)
    decreases |hs|
  {
    if hs != [] {
      var h, rest := hs[0], hs[1..];
      assert hs == [h] + rest;
      SaysNothingCons(h, rest);
      SaysHtmlCons(h, rest);
      NotBoth(rest);
      TypeReadIs(rest, if NamesType(h) then EqualFold(h.1, "text/html") else html);
    }
  }

  lemma NotBoth(hs: Headers)
    ensures !(SaysNothing(hs) && SaysHtml(hs))
  {
  }

  lemma {:induction false} TypeReadOn(a: Headers, b: Headers, html: bool)
    ensures TypeRead(a + b, html) == TypeRead(b, TypeRead(a, html))
    decreases |a|
  {
    if a == [] {
      assert a + b == b;
    } else {
      assert (a + b)[1..] == a[1..] + b;
      TypeReadOn(a[1..], b, if NamesType(a[0]) then EqualFold(a[0].1, "text/html") else html);
    }
  }

  /** All headers of the document that have come, one attempt after the other. */
  function DocumentHeaders(p: Page, s: State, events: seq<Event>): Headers
    decreases |events|
  {
    if events == [] then [] else
    var s1 := Step(p, s, events[0]);
    (if Can(s, events[0]) && events[0].Meta? && events[0].id == 0 && s1.phase != Aborted then events[0].headers else [])
    + DocumentHeaders(p, s1, events[1..])
  }

  lemma {:induction false} RequestAllHtml(s: State, urls: seq<Url>)
    ensures RequestAll(s, urls).html == s.html
    decreases |urls|
  {
    if urls != [] && s.phase != Aborted { RequestAllHtml(RequestOne(s, urls[0]), urls[1..]); }
  }

  lemma StepHtml(p: Page, s: State, e: Event)
    requires Can(s, e)
    ensures var s1 := Step(p, s, e);
            s1.html == if e.Meta? && e.id == 0 && s1.phase != Aborted then TypeRead(e.headers, s.html) else s.html
  {
    match e
    case Meta(_, _, _, _) =>
    case Body(_, _) =>
    case Finished(id, urls) =>
      var s1 := Settle(p, s, id);
      RequestAllHtml(s1.(received := s1.received + {s.live[id].url}), urls);
    case Notified(urls) => RequestAllHtml(s.(notified := false), urls);
  }

  lemma {:induction false} RunHtml(p: Page, s: State, events: seq<Event>)
    ensures Run(p, s, events).html == TypeRead(DocumentHeaders(p, s, events), s.html)
    decreases |events|
  {
    if events != [] {
      var e, s1 := events[0], Step(p, s, events[0]);
      if Can(s, e) { StepHtml(p, s, e); }
      RunHtml(p, s1, events[1..]);
      TypeReadOn(if Can(s, e) && e.Meta? && e.id == 0 && s1.phase != Aborted then e.headers else [],
                 DocumentHeaders(p, s1, events[1..]), s.html);
    }
  }

  /** Over every run of a load: the document is taken for HTML if and only if the last Content-Type that has
      come with a head of it says so. */
  lemma HtmlIff(p: Page, events: seq<Event>)
    ensures Run(p, Load(p), events).html <==> SaysHtml(DocumentHeaders(p, Load(p), events))
  {
    RunHtml(p, Load(p), events);
    TypeReadIs(DocumentHeaders(p, Load(p), events), false);
  }

  /** What web/webserver/handler.cc says of a file is HTML exactly when its name ends in `.html`. */
  lemma ServedIsHtml(told: HttpClient.Notice, g: HttpClient.Get, path: string, n: nat)
    requires g.first < n && ClientCalls.Owed(told, g, path, n)
    ensures SaysHtml(told.headers) <==> |path| > 5 && path[|path| - 5..] == ".html"
  {
    var hs := told.headers;
    assert |hs| >= 2 && hs[0].0 == "Content-Length" && hs[1].0 == "Content-Type";
    assert |hs| > 2 ==> |hs| == 3 && hs[2].0 == "Content-Range";
    assert !EqualFold("Content-Length", "content-type") && !EqualFold("Content-Range", "content-type");
    assert EqualFold("Content-Type", "content-type");
    assert LastType(hs, 1);
    HtmlNames();
  }

  lemma HtmlNames()
    ensures EqualFold("text/html", "text/html") && !EqualFold("unknown", "text/html")
  {
  }

  // ---- every pending resource is in flight ----

  predicate InFlight(s: State, u: Url) { exists id :: id in s.live && s.live[id].url == u }

  ghost predicate AllInFlight(s: State) { forall u <- s.pending :: InFlight(s, u) }

  lemma RequestOneFlies(s: State, u: Url)
    requires LiveOk(s) && AllInFlight(s)
    ensures AllInFlight(RequestOne(s, u))
  {
    var s1 := RequestOne(s, u);
    forall v <- s1.pending ensures InFlight(s1, v) {
      if v in s.pending {
        var id :| id in s.live && s.live[id].url == v;
        assert RequestOk(s, id) && id in s1.live;
      } else {
        assert s.next in s1.live;
      }
    }
  }

  lemma {:induction false} RequestAllFly(s: State, urls: seq<Url>)
    requires LiveOk(s) && AllInFlight(s)
    ensures AllInFlight(RequestAll(s, urls))
    decreases |urls|
  {
    if urls != [] && s.phase != Aborted {
      RequestOneLive(s, urls[0]);
      RequestOneFlies(s, urls[0]);
      RequestAllFly(RequestOne(s, urls[0]), urls[1..]);
    }
  }

  lemma SameFlies(s: State, s1: State)
    requires AllInFlight(s) && s1.pending == s.pending && s1.live.Keys == s.live.Keys
    requires forall id <- s.live :: s1.live[id].url == s.live[id].url
    ensures AllInFlight(s1)
  {
    forall u <- s1.pending ensures InFlight(s1, u) {
      var id :| id in s.live && s.live[id].url == u;
      assert id in s1.live;
    }
  }

  lemma SettleFlies(p: Page, s: State, id: nat)
    requires LiveOk(s) && AllInFlight(s) && id in s.live
    ensures AllInFlight(Settle(p, s, id))
  {
    var s1 := Settle(p, s, id);
    forall u <- s1.pending ensures InFlight(s1, u) {
      var x :| x in s.live && s.live[x].url == u;
      assert x in s1.live;
    }
  }

  lemma FinishedFlies(p: Page, s: State, id: nat, urls: seq<Url>)
    requires Inv(p, s) && AllInFlight(s) && Can(s, Finished(id, urls))
    ensures AllInFlight(OnFinished(p, s, id, urls))
  {
    var s1, s' := Settle(p, s, id), OnFinished(p, s, id, urls);
    SettleFlies(p, s, id);
    if id == 0 || s.phase != FetchingEmbedded {
      SameFlies(s1, s');
    } else {
      var s2 := s1.(received := s1.received + {s.live[id].url});
      SettleLive(p, s, id);
      LiveAlike(s1, s2);
      SameFlies(s1, s2);
      RequestAllFly(s2, urls);
      SameFlies(RequestAll(s2, urls), s');
    }
  }

  lemma NotifiedFlies(p: Page, s: State, linked: seq<Url>)
    requires Inv(p, s) && AllInFlight(s) && Can(s, Notified(linked))
    ensures AllInFlight(OnNotified(s, linked))
  {
    var s0 := s.(notified := false);
    LiveAlike(s, s0);
    SameFlies(s, s0);
    if s.phase == DoneDocument && s.html {
      RequestAllFly(s0, linked);
      SameFlies(RequestAll(s0, linked), OnNotified(s, linked));
    } else {
      SameFlies(s0, OnNotified(s, linked));
    }
  }

  lemma StepFlies(p: Page, s: State, e: Event)
    requires Inv(p, s) && AllInFlight(s)
    ensures AllInFlight(Step(p, s, e))
  {
    if Can(s, e) {
      match e
      case Meta(id, status, retries, headers) => SameFlies(s, OnMeta(s, id, status, retries, headers));
      case Body(id, data) => SameFlies(s, OnBody(s, id, data));
      case Finished(id, urls) => FinishedFlies(p, s, id, urls);
      case Notified(urls) => NotifiedFlies(p, s, urls);
    }
  }

  lemma {:induction false} RunFlies(p: Page, s: State, events: seq<Event>)
    requires Inv(p, s) && AllInFlight(s)
    ensures Inv(p, Run(p, s, events)) && AllInFlight(Run(p, s, events))
    decreases |events|
  {
    if events != [] {
      StepInv(p, s, events[0]);
      StepFlies(p, s, events[0]);
      RunFlies(p, Step(p, s, events[0]), events[1..]);
    }
  }

  lemma LoadFlies(p: Page)
    ensures Inv(p, Load(p)) && AllInFlight(Load(p))
  {
    LoadInv(p);
    var s := Load(p);
    forall u <- s.pending ensures InFlight(s, u) { assert 0 in s.live && s.live[0].url == u; }
  }

  // ---- the notification behind the document ----

  /** In every run: when the document has come and on_notified runs with `linked` named in it, an HTML document
      has exactly what it names requested, each in flight, unless it names one twice, which asserts; and
      another document requests nothing, and the result is reported at once. */
  lemma DocumentRequests(p: Page, events: seq<Event>, linked: seq<Url>)
    requires Run(p, Load(p), events).phase == DoneDocument
    ensures var s := Run(p, Load(p), events);
            var s1 := Step(p, s, Notified(linked));
            && (SaysHtml(DocumentHeaders(p, Load(p), events)) ==>
                && (s1.phase == Aborted <==> Doubled(linked, {}))
                && (s1.phase != Aborted ==>
                    && s1.embedded == s1.pending == All(linked) && (forall u <- linked :: InFlight(s1, u))
                    && (s1.result.Some? <==> linked == []) && (linked != [] ==> s1.phase == FetchingEmbedded)))
            && (!SaysHtml(DocumentHeaders(p, Load(p), events)) ==>
                s1.embedded == {} && s1.live == map[] && s1.phase == Reported && s1.result.Some?)
  {
    var s := Run(p, Load(p), events);
    LoadFlies(p);
    RunFlies(p, Load(p), events);
    HtmlIff(p, events);
    AfterDocument(p, s, linked);
  }

  lemma AfterDocument(p: Page, s: State, linked: seq<Url>)
    requires Inv(p, s) && AllInFlight(s) && s.phase == DoneDocument
    ensures var s1 := Step(p, s, Notified(linked));
            && (s.html ==>
                && (s1.phase == Aborted <==> Doubled(linked, {}))
                && (s1.phase != Aborted ==>
                    && s1.embedded == s1.pending == All(linked) && (forall u <- linked :: InFlight(s1, u))
                    && (s1.result.Some? <==> linked == []) && (linked != [] ==> s1.phase == FetchingEmbedded)))
            && (!s.html ==> s1.embedded == {} && s1.live == map[] && s1.phase == Reported && s1.result.Some?)
  {
    var s0 := s.(notified := false);
    NoneLive(s);
    if s.html {
      LinkedInv(p, s, linked);
      NotifiedFlies(p, s, linked);
      LiveAlike(s, s0);
      RequestAllIs(s0, linked);
      AllOf(linked);
      var t := RequestAll(s0, linked);
      if t.phase != Aborted {
        assert Fetching(p, s0) && Fetching(p, t);
        DoneIff(p, t);
        assert s.received == {};
      }
    }
  }

  lemma AllOf(urls: seq<Url>)
    ensures All(urls) == {} <==> urls == []
    ensures forall u <- urls :: u in All(urls)
  {
    if urls != [] { assert urls[0] in All(urls); }
  }

  // ---- the load can finish ----

  /** Something done after the page was done: a resource asked for again is still in flight. */
  predicate TooLate(s: State) { s.phase == Done && s.pending != {} }

  predicate Ended(s: State) { s.phase == Reported || s.phase == Aborted }

  lemma {:induction false} RunOn(p: Page, s: State, a: seq<Event>, b: seq<Event>)
    ensures Run(p, s, a + b) == Run(p, Run(p, s, a), b)
    decreases |a|
  {
    if a == [] {
      assert a + b == b;
    } else {
      assert (a + b)[1..] == a[1..] + b;
      RunOn(p, Step(p, s, a[0]), a[1..], b);
    }
  }

  lemma OneStep(p: Page, s: State, e: Event, rest: seq<Event>)
    ensures Run(p, s, [e] + rest) == Run(p, Step(p, s, e), rest)
  {
    assert ([e] + rest)[1..] == rest;
  }

  /** The notification of a page that is done ends the load. */
  lemma DoneFinishes(p: Page, s: State)
    requires Inv(p, s) && s.phase == Done && s.pending == {}
    ensures Run(p, s, [Notified([])]).phase == Reported
  {
    OneStep(p, s, Notified([]), []);
    assert [Notified([])] + [] == [Notified([])];
  }

  /** Some request in flight, one for a resource that has come before if there is one. */
  lemma PickFlight(p: Page, s: State) returns (id: nat)
    requires Inv(p, s) && AllInFlight(s) && s.phase == FetchingEmbedded
    ensures id in s.live && id != 0
    ensures s.live[id].url in s.received || s.pending == s.embedded - s.received
  {
    if u :| u in s.pending && u in s.received {
      id :| id in s.live && s.live[id].url == u;
    } else {
      assert s.pending == s.embedded - s.received != {};
      var u :| u in s.pending;
      id :| id in s.live && s.live[id].url == u;
    }
  }

  /** While resources are awaited, finishing them one by one, those that have come before first, ends the load. */
  lemma FetchingFinishes(p: Page, s: State) returns (events: seq<Event>)
    requires Inv(p, s) && AllInFlight(s) && s.phase == FetchingEmbedded
    ensures Run(p, s, events).phase == Reported
    decreases |s.pending|
  {
    var id := PickFlight(p, s);
    var e := Finished(id, []);
    var s1 := Step(p, s, e);
    StepInv(p, s, e);
    StepFlies(p, s, e);
    ResourceTaken(p, s, id);
    if s1.phase == Done {
      events := [Notified([])];
      DoneFinishes(p, s1);
    } else {
      events := FetchingFinishes(p, s1);
    }
    OneStep(p, s, e, events);
    events := [e] + events;
  }

  lemma ResourceTaken(p: Page, s: State, id: nat)
    requires Inv(p, s) && s.phase == FetchingEmbedded && id in s.live && id != 0
    requires s.live[id].url in s.received || s.pending == s.embedded - s.received
    ensures var s1 := Step(p, s, Finished(id, []));
            && s.live[id].url in s.pending && s1.pending == s.pending - {s.live[id].url}
            && (s1.phase == FetchingEmbedded || (s1.phase == Done && s1.pending == {}))
  {
    var u := s.live[id].url;
    ResourceSettles(p, s, id);
    var s1 := Settle(p, s, id);
    var s2 := s1.(received := s1.received + {u});
    DoneIff(p, s2);
    if u in s.received { assert s2.received == s.received; }
  }

  lemma NothingTwice()
    ensures !Doubled([], {})
  {
  }

  /** No load is stuck: from every state of every run of a load in which no assertion has failed, some
      continuation reports a result, unless the page is done and a resource asked for again is still in
      flight. */
  lemma CanFinish(p: Page, events: seq<Event>) returns (more: seq<Event>)
    requires var s := Run(p, Load(p), events); s.phase != Aborted && !TooLate(s)
    ensures Run(p, Load(p), events + more).phase == Reported
  {
    var s := Run(p, Load(p), events);
    LoadFlies(p);
    RunFlies(p, Load(p), events);
    RunOn(p, Load(p), events, []);
    more := [];
    assert events + [] == events;
    if s.phase == FetchingDocument {
      DocumentInv(p, s, []);
      StepFlies(p, s, Finished(0, []));
      var s1 := Step(p, s, Finished(0, []));
      AfterDocument(p, s1, []);
      NothingTwice();
      more := [Finished(0, []), Notified([])];
      OneStep(p, s, Finished(0, []), [Notified([])]);
      OneStep(p, s1, Notified([]), []);
      assert [Finished(0, [])] + [Notified([])] == more && [Notified([])] + [] == [Notified([])];
    } else if s.phase == DoneDocument {
      AfterDocument(p, s, []);
      NothingTwice();
      more := [Notified([])];
      OneStep(p, s, Notified([]), []);
    } else if s.phase == Done {
      more := [Notified([])];
      DoneFinishes(p, s);
    } else if s.phase == FetchingEmbedded {
      more := FetchingFinishes(p, s);
    }
    RunOn(p, Load(p), events, more);
  }

  lemma TooLateStays(p: Page, s: State, e: Event)
    requires Inv(p, s) && TooLate(s)
    ensures var s1 := Step(p, s, e); s1.phase == Aborted || TooLate(s1)
  {
    if Can(s, e) {
      AbortsIff(p, s, e);
      if e.Finished? { assert e.id != 0; }
    }
  }

  lemma {:induction false} AbortedStays(p: Page, s: State, events: seq<Event>)
    requires s.phase == Aborted
    ensures Run(p, s, events) == s
    decreases |events|
  {
    if events != [] { AbortedStays(p, s, events[1..]); }
  }

  /** And then no continuation reports: the load can only end in a failed assertion. */
  lemma {:induction false} TooLateFails(p: Page, s: State, events: seq<Event>)
    requires Inv(p, s) && TooLate(s)
    ensures Run(p, s, events).phase != Reported
    decreases |events|
  {
    if events != [] {
      var s1 := Step(p, s, events[0]);
      TooLateStays(p, s, events[0]);
      StepInv(p, s, events[0]);
      if s1.phase == Aborted {
        AbortedStays(p, s1, events[1..]);
      } else {
        TooLateFails(p, s1, events[1..]);
      }
    }
  }
}
