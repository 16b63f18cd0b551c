/** What holds over a whole page load, and what the verdict says about it. */
module PageRuns {
  import opened PageLoad

  // ---- the invariant ----

  predicate RequestOk(s: State, id: nat)
    requires id in s.live
  {
    var r := s.live[id];
    id < s.next && r.url in s.pending && (r.hash.Some? ==> r.hash.value == r.body)
  }

  /** Requests in flight are the pending ones, and no two are for the same URL. */
  ghost predicate LiveOk(s: State) {
    && (forall id {:trigger RequestOk(s, id)} | id in s.live :: RequestOk(s, id))
    && (forall a, b | a in s.live && b in s.live && s.live[a].url == s.live[b].url :: a == b)
    && s.next > 0
  }

  /** The document has come, then the resources in `received`, and `embedded` are all that were asked for. */
  ghost predicate Fetching(p: Page, s: State) {
    && 0 !in s.live && s.finished != [] && s.finished[0].url == p.url && Urls(s.finished[1..]) == s.received
    && s.received <= s.embedded && s.embedded - s.received <= s.pending <= s.embedded
  }

  ghost predicate PhaseOk(p: Page, s: State) {
    match s.phase
    case FetchingDocument =>
      && s.live.Keys == {0} && s.live[0].url == p.url && s.pending == {p.url} && s.embedded == s.received == {}
      && !s.notified && s.finished == []
    case DoneDocument => Fetching(p, s) && s.notified && s.embedded == s.pending == {}
    case FetchingEmbedded => Fetching(p, s) && !s.notified && s.embedded != s.received
    case Done => Fetching(p, s) && s.notified && s.embedded == s.received
    case Reported => s.result.Some? && s.pending == {}
    case Aborted => true
  }

  /** The check, once `h` have been validated. */
  function Validated(p: Page, h: seq<Finish>): Check { ValidateAll(Check(p.spec, Passed), h) }

  ghost predicate ResultOk(p: Page, s: State) {
    if s.result == None then s.check == Validated(p, s.finished)
    else (s.phase in {Reported, Aborted} && s.result.value == VerifyLoad(Validated(p, s.finished)) && Fetching(p, s) &&
          s.embedded == s.received)
  }

  ghost predicate Inv(p: Page, s: State) {
    LiveOk(s) && PhaseOk(p, s) && ResultOk(p, s)
  }

  lemma LoadInv(p: Page)
    ensures Inv(p, Load(p))
  {
    var s := Load(p);
    assert RequestOk(s, 0);
  }

  // ---- single operations ----

  lemma {:induction false} ValidateSnoc(k: Check, h: seq<Finish>, f: Finish)
    ensures ValidateAll(k, h + [f]) == ValidateOne(ValidateAll(k, h), f)
    decreases |h|
  {
    if h == [] {
      assert h + [f] == [f] && [f][1..] == [];
    } else {
      assert (h + [f])[1..] == h[1..] + [f];
      ValidateSnoc(ValidateOne(k, h[0]), h[1..], f);
    }
  }

  lemma {:induction false} UrlsSnoc(h: seq<Finish>, f: Finish)
    ensures Urls(h + [f]) == Urls(h) + {f.url}
    ensures Distinct(h + [f]) <==> Distinct(h) && f.url !in Urls(h)
    decreases |h|
  {
    if h == [] {
      assert h + [f] == [f] && [f][1..] == [];
    } else {
      assert (h + [f])[1..] == h[1..] + [f];
      UrlsSnoc(h[1..], f);
    }
  }

  /** One request more, as `request_one_url` makes it. */
  lemma RequestOneLive(s: State, u: Url)
    requires LiveOk(s)
    ensures LiveOk(RequestOne(s, u))
  {
    var s1 := RequestOne(s, u);
    forall id | id in s1.live ensures RequestOk(s1, id) { assert id in s.live ==> RequestOk(s, id); }
    forall a, b | a in s1.live && b in s1.live && s1.live[a].url == s1.live[b].url ensures a == b {
      assert (a in s.live ==> RequestOk(s, a)) && (b in s.live ==> RequestOk(s, b));
    }
  }

  function All(urls: seq<Url>): set<Url> { set u | u in urls }

  /** A URL is named that is pending, or one is named twice. */
  predicate Doubled(urls: seq<Url>, pending: set<Url>) {
    (exists i | 0 <= i < |urls| :: urls[i] in pending) || (exists i, j | 0 <= i < j < |urls| :: urls[i] == urls[j])
  }

  lemma DoubledRest(urls: seq<Url>, pending: set<Url>)
    requires urls != [] && urls[0] !in pending
    ensures Doubled(urls, pending) <==> Doubled(urls[1..], pending + {urls[0]})
  {
    var rest := urls[1..];
    assert forall i | 0 < i < |urls| :: urls[i] == rest[i - 1];
    assert forall i | 0 <= i < |rest| :: rest[i] == urls[i + 1];
  }

  /** request_one_url for each of `urls`: which asserts if and only if a URL is named twice or still pending. */
  lemma {:induction false} RequestAllIs(s: State, urls: seq<Url>)
    requires LiveOk(s) && s.phase != Aborted
    ensures var s1 := RequestAll(s, urls);
            && LiveOk(s1) && (s1.phase == Aborted <==> Doubled(urls, s.pending))
            && s1 == s.(phase := s1.phase, live := s1.live, next := s1.next, pending := s1.pending,
                        embedded := s1.embedded)
            && s1.next >= s.next && (0 in s1.live ==> 0 in s.live)
            && (s1.phase != Aborted ==>
                 s1.phase == s.phase && s1.pending == s.pending + All(urls) && s1.embedded == s.embedded + All(urls))
    decreases |urls|
  {
    if urls == [] {
      assert All(urls) == {};
    } else {
      var s1 := RequestOne(s, urls[0]);
      RequestOneLive(s, urls[0]);
      if urls[0] !in s.pending {
        DoubledRest(urls, s.pending);
        RequestAllIs(s1, urls[1..]);
        assert urls == [urls[0]] + urls[1..];
        assert All(urls) == {urls[0]} + All(urls[1..]);
      }
    }
  }

  lemma SubsetOfSize(a: set<Url>, b: set<Url>)
    requires a <= b && |a| == |b|
    ensures a == b
  {
    assert b == a + (b - a) && |a + (b - a)| == |a| + |b - a|;
  }

  /** Comparing the two counts, as is_page_done does, misses nothing: the page is done when all that was asked
      for has come. */
  lemma DoneIff(p: Page, s: State)
    requires Fetching(p, s)
    ensures PageDone(s) <==> s.embedded == s.received
  {
    if PageDone(s) { SubsetOfSize(s.received, s.embedded); }
  }

  lemma SettleLive(p: Page, s: State, id: nat)
    requires LiveOk(s) && id in s.live
    ensures s.live[id].url in s.pending && LiveOk(Settle(p, s, id))
  {
    var s1 := Settle(p, s, id);
    assert RequestOk(s, id);
    forall x | x in s1.live ensures RequestOk(s1, x) { assert RequestOk(s, x); }
  }

  lemma SettleChecks(p: Page, s: State, id: nat)
    requires id in s.live && s.check == Validated(p, s.finished)
    ensures Settle(p, s, id).check == Validated(p, Settle(p, s, id).finished)
  {
    ValidateSnoc(Check(p.spec, Passed), s.finished, Outcome(p, s.live[id]));
  }

  /** Nothing is in flight when nothing is pending. */
  lemma NoneLive(s: State)
    requires LiveOk(s) && s.pending == {}
    ensures s.live == map[]
  {
    assert forall id | id in s.live :: RequestOk(s, id);
  }

  // ---- the callbacks ----

  lemma UpdateLive(s: State, id: nat, r: Request)
    requires LiveOk(s) && id in s.live && r.url == s.live[id].url && (r.hash.Some? ==> r.hash.value == r.body)
    ensures LiveOk(s.(live := s.live[id := r]))
  {
    var s1 := s.(live := s.live[id := r]);
    forall x | x in s1.live ensures RequestOk(s1, x) { assert RequestOk(s, x); }
  }

  lemma LiveAlike(s: State, s1: State)
    requires LiveOk(s) && s1.live == s.live && s1.next == s.next && s1.pending == s.pending
    ensures LiveOk(s1)
  {
    forall x | x in s1.live ensures RequestOk(s1, x) { assert RequestOk(s, x); }
  }

  lemma MetaInv(p: Page, s: State, id: nat, status: int, retries: nat, headers: Headers)
    requires Inv(p, s) && Can(s, Meta(id, status, retries, headers))
    ensures Inv(p, OnMeta(s, id, status, retries, headers))
  {
    var r, s1 := s.live[id], OnMeta(s, id, status, retries, headers);
    assert RequestOk(s, id);
    if s1.phase == Aborted {
      LiveAlike(s, s1);
    } else {
      UpdateLive(s, id, s1.live[id]);
      LiveAlike(s.(live := s.live[id := s1.live[id]]), s1);
      assert s1.live.Keys == s.live.Keys;
    }
  }

  lemma BodyInv(p: Page, s: State, id: nat, data: string)
    requires Inv(p, s) && Can(s, Body(id, data))
    ensures Inv(p, OnBody(s, id, data))
  {
    var s1 := OnBody(s, id, data);
    assert RequestOk(s, id);
    UpdateLive(s, id, s1.live[id]);
    assert s1.live.Keys == s.live.Keys;
  }

  /** The document has been received. */
  lemma DocumentInv(p: Page, s: State, urls: seq<Url>)
    requires Inv(p, s) && Can(s, Finished(0, urls))
    ensures Inv(p, OnFinished(p, s, 0, urls)) && OnFinished(p, s, 0, urls).phase == DoneDocument
  {
    var s1 := Settle(p, s, 0);
    SettleLive(p, s, 0);
    SettleChecks(p, s, 0);
    LiveAlike(s1, OnFinished(p, s, 0, urls));
    assert s1.finished == [Outcome(p, s.live[0])] && s1.finished[1..] == [];
    assert s1.live == map[];
  }

  /** One more resource has been received, and is recorded. */
  lemma ResourceSettles(p: Page, s: State, id: nat)
    requires Inv(p, s) && id in s.live && s.phase == FetchingEmbedded
    ensures var u := s.live[id].url;
            var s1 := Settle(p, s, id);
            var s2 := s1.(received := s1.received + {u});
            && u in s.pending && LiveOk(s2) && Fetching(p, s2) && s2.pending == s.pending - {u}
            && s2.phase == FetchingEmbedded
            && s2.check == Validated(p, s2.finished)
  {
    var f, s1 := Outcome(p, s.live[id]), Settle(p, s, id);
    SettleLive(p, s, id);
    SettleChecks(p, s, id);
    LiveAlike(s1, s1.(received := s1.received + {f.url}));
    assert s1.finished[1..] == s.finished[1..] + [f];
    UrlsSnoc(s.finished[1..], f);
  }

  lemma FinishedInv(p: Page, s: State, id: nat, urls: seq<Url>)
    requires Inv(p, s) && Can(s, Finished(id, urls))
    ensures Inv(p, OnFinished(p, s, id, urls))
  {
    if id == 0 {
      assert s.phase == FetchingDocument;
      DocumentInv(p, s, urls);
    } else if s.phase != FetchingEmbedded {
      LateInv(p, s, id, urls);
    } else {
      ResourceSettles(p, s, id);
      var s1 := Settle(p, s, id);
      var s2 := s1.(received := s1.received + {s.live[id].url});
      RequestAllIs(s2, urls);
      AskedInv(p, s2, urls);
    }
  }

  /** The rest of response_finished_cb: scripted requests, and the page may be done. */
  lemma AskedInv(p: Page, s: State, urls: seq<Url>)
    requires LiveOk(s) && Fetching(p, s) && s.phase == FetchingEmbedded && !s.notified && s.result == None
    requires s.check == Validated(p, s.finished)
    ensures var s1 := RequestAll(s, urls);
            var s2 := if s1.phase != Aborted && PageDone(s1) then Notify(s1.(phase := Done)) else s1;
            Inv(p, s2) && (s2.phase == Aborted <==> Doubled(urls, s.pending))
  {
    RequestAllIs(s, urls);
    var s1 := RequestAll(s, urls);
    if s1.phase != Aborted {
      assert Fetching(p, s1);
      DoneIff(p, s1);
      LiveAlike(s1, Notify(s1.(phase := Done)));
    }
  }

  /** A resource that comes when the page is already done aborts. */
  lemma LateInv(p: Page, s: State, id: nat, urls: seq<Url>)
    requires Inv(p, s) && Can(s, Finished(id, urls)) && id != 0 && s.phase != FetchingEmbedded
    ensures Inv(p, OnFinished(p, s, id, urls)) && OnFinished(p, s, id, urls).phase == Aborted && s.phase == Done
  {
    SettleLive(p, s, id);
    SettleChecks(p, s, id);
    LiveAlike(Settle(p, s, id), OnFinished(p, s, id, urls));
    if s.pending == {} { NoneLive(s); }
  }

  lemma ReportInv(p: Page, s: State)
    requires LiveOk(s) && Fetching(p, s) && s.embedded == s.received && s.result == None
    requires s.check == Validated(p, s.finished)
    ensures Inv(p, Report(s)) && (Report(s).phase == Aborted <==> s.pending != {})
  {
    LiveAlike(s, Report(s));
  }

  lemma LinkedInv(p: Page, s: State, linked: seq<Url>)
    requires Inv(p, s) && s.phase == DoneDocument && s.html
    ensures Inv(p, OnNotified(s, linked)) && (OnNotified(s, linked).phase == Aborted <==> Doubled(linked, {}))
  {
    var s0 := s.(notified := false);
    LiveAlike(s, s0);
    RequestAllIs(s0, linked);
    var s1 := RequestAll(s0, linked);
    if s1.phase != Aborted {
      assert Fetching(p, s1);
      DoneIff(p, s1);
      if PageDone(s1) {
        LiveAlike(s1, s1.(phase := Done));
        ReportInv(p, s1.(phase := Done));
      } else {
        LiveAlike(s1, s1.(phase := FetchingEmbedded));
      }
    }
  }

  lemma NotifiedInv(p: Page, s: State, linked: seq<Url>)
    requires Inv(p, s) && Can(s, Notified(linked))
    ensures Inv(p, OnNotified(s, linked))
  {
    if s.phase == DoneDocument && s.html {
      LinkedInv(p, s, linked);
    } else {
      LiveAlike(s, s.(notified := false, phase := Done));
      ReportInv(p, s.(notified := false, phase := Done));
    }
  }

  lemma StepInv(p: Page, s: State, e: Event)
    requires Inv(p, s)
    ensures Inv(p, Step(p, s, e))
  {
    if Can(s, e) {
      match e
      case Meta(id, status, retries, headers) => MetaInv(p, s, id, status, retries, headers);
      case Body(id, data) => BodyInv(p, s, id, data);
      case Finished(id, urls) => FinishedInv(p, s, id, urls);
      case Notified(urls) => NotifiedInv(p, s, urls);
    }
  }

  lemma {:induction false} RunInv(p: Page, s: State, events: seq<Event>)
    requires Inv(p, s)
    ensures Inv(p, Run(p, s, events))
    decreases |events|
  {
    if events != [] {
      StepInv(p, s, events[0]);
      RunInv(p, Step(p, s, events[0]), events[1..]);
    }
  }

  // ---- the verdict of a run ----

  /** Over every run: once a result has been reported, the document and all that was asked for have come, and
      the result is success if and only if exactly the expected resources came, each once and each as
      expected. */
  lemma PageVerdict(p: Page, events: seq<Event>)
    ensures var s := Run(p, Load(p), events);
            s.result.Some? ==>
              Urls(s.finished) == {p.url} + s.embedded && (s.result.value == Passed <==> Exact(p.spec, s.finished))
  {
    LoadInv(p);
    RunInv(p, Load(p), events);
    VerdictIff(p.spec, Run(p, Load(p), events).finished);
  }

  /** Which callbacks abort: a head with another status than 200 or 206, or a second one of a first attempt; a
      URL named that is named twice or pending; a resource that comes when the page is already done; a report
      while a request is pending. */
  lemma AbortsIff(p: Page, s: State, e: Event)
    requires Inv(p, s) && Can(s, e)
    ensures Step(p, s, e).phase == Aborted <==>
            match e
            case Meta(id, status, retries, _) =>
              (status != 200 && status != 206) || (retries == 0 && s.live[id].hash.Some?)
            case Body(_, _) => false
            case Finished(id, urls) =>
              id != 0 && (s.phase == Done || Doubled(urls, s.pending - {s.live[id].url}))
            case Notified(urls) =>
              if s.phase == DoneDocument then s.html && Doubled(urls, {}) else s.pending != {}
  {
    match e
    case Meta(id, status, retries, headers) =>
    case Body(id, data) =>
    case Finished(id, urls) =>
      if id == 0 {
        assert s.phase == FetchingDocument;
        DocumentInv(p, s, urls);
      } else if s.phase != FetchingEmbedded {
        LateInv(p, s, id, urls);
      } else {
        ResourceSettles(p, s, id);
        var s1 := Settle(p, s, id);
        AskedInv(p, s1.(received := s1.received + {s.live[id].url}), urls);
      }
    case Notified(urls) =>
      if s.phase == DoneDocument && s.html {
        LinkedInv(p, s, urls);
      } else {
        var s1 := s.(notified := false, phase := Done);
        LiveAlike(s, s1);
        ReportInv(p, s1);
      }
  }

  // ---- pages that name each resource once ----

  /** The document and the scripts name only resources not named before, each once. */
  predicate NamesNew(s: State, e: Event) {
    match e
    case Meta(id, status, retries, _) =>
      status in {200, 206} && (id in s.live && retries == 0 ==> s.live[id].hash == None)
    case Body(_, _) => true
    case Finished(_, urls) => !Doubled(urls, s.embedded)
    case Notified(urls) => !Doubled(urls, s.embedded)
  }

  ghost predicate OnceNamed(p: Page, s: State, events: seq<Event>)
    decreases |events|
  {
    events == [] || (NamesNew(s, events[0]) && OnceNamed(p, Step(p, s, events[0]), events[1..]))
  }

  /** Then no received resource is in flight again, and none has come twice. */
  ghost predicate Tidy(s: State) {
    s.pending !! s.received && s.phase != Aborted && (s.finished != [] ==> Distinct(s.finished[1..]))
  }

  lemma NotDoubled(urls: seq<Url>, a: set<Url>, b: set<Url>)
    requires !Doubled(urls, a) && b <= a
    ensures !Doubled(urls, b) && All(urls) !! a
  {
    forall u | u in All(urls) ensures u !in a { var i :| 0 <= i < |urls| && urls[i] == u; }
  }

  lemma FinishedTidy(p: Page, s: State, id: nat, urls: seq<Url>)
    requires Inv(p, s) && Tidy(s) && Can(s, Finished(id, urls)) && NamesNew(s, Finished(id, urls))
    ensures Tidy(OnFinished(p, s, id, urls))
  {
    AbortsIff(p, s, Finished(id, urls));
    if id == 0 {
      var s1 := Settle(p, s, 0);
      assert s.phase == FetchingDocument && s1.finished == [Outcome(p, s.live[0])] && s1.finished[1..] == [];
    } else {
      var f := Outcome(p, s.live[id]);
      assert RequestOk(s, id);
      assert s.phase == FetchingEmbedded by { assert s.phase == Done ==> s.pending <= s.received; }
      ResourceSettles(p, s, id);
      assert s.finished[1..] + [f] == (s.finished + [f])[1..];
      UrlsSnoc(s.finished[1..], f);
      NotDoubled(urls, s.embedded, s.pending - {f.url});
      var s1 := Settle(p, s, id);
      RequestAllIs(s1.(received := s1.received + {f.url}), urls);
    }
  }

  lemma NotifiedTidy(p: Page, s: State, linked: seq<Url>)
    requires Inv(p, s) && Tidy(s) && Can(s, Notified(linked)) && NamesNew(s, Notified(linked))
    ensures Tidy(OnNotified(s, linked))
  {
    AbortsIff(p, s, Notified(linked));
    if s.phase == DoneDocument && s.html {
      LiveAlike(s, s.(notified := false));
      RequestAllIs(s.(notified := false), linked);
    }
  }

  lemma MetaTidy(p: Page, s: State, id: nat, status: int, retries: nat, headers: Headers)
    requires Inv(p, s) && Tidy(s) && Can(s, Meta(id, status, retries, headers))
    requires NamesNew(s, Meta(id, status, retries, headers))
    ensures Tidy(OnMeta(s, id, status, retries, headers))
  {
  }

  lemma StepTidy(p: Page, s: State, e: Event)
    requires Inv(p, s) && Tidy(s) && NamesNew(s, e)
    ensures Tidy(Step(p, s, e))
  {
    if Can(s, e) {
      match e
      case Meta(id, status, retries, headers) => MetaTidy(p, s, id, status, retries, headers);
      case Body(id, data) =>
      case Finished(id, urls) => FinishedTidy(p, s, id, urls);
      case Notified(urls) => NotifiedTidy(p, s, urls);
    }
  }

  lemma {:induction false} RunTidy(p: Page, s: State, events: seq<Event>)
    requires Inv(p, s) && Tidy(s) && OnceNamed(p, s, events)
    ensures Tidy(Run(p, s, events))
    decreases |events|
  {
    if events != [] {
      StepInv(p, s, events[0]);
      StepTidy(p, s, events[0]);
      RunTidy(p, Step(p, s, events[0]), events[1..]);
    }
  }

  /** Such a page never aborts, and its load succeeds if and only if the page spec lists the document and
      exactly the resources named, the document does not name itself, and each came as expected. */
  lemma OncePageVerdict(p: Page, events: seq<Event>)
    requires OnceNamed(p, Load(p), events)
    ensures var s := Run(p, Load(p), events);
            && s.phase != Aborted
            && (s.result.Some? ==>
                 (s.result.value == Passed <==>
                   p.spec.Keys == {p.url} + s.embedded && p.url !in s.embedded && AllFit(p.spec, s.finished)))
  {
    LoadInv(p);
    RunInv(p, Load(p), events);
    RunTidy(p, Load(p), events);
    PageVerdict(p, events);
  }

  // ---- digests ----

  /** The head of a first attempt comes, for a resource that is still expected, with a digest. */
  predicate FirstHead(s: State, e: Event, id: nat) {
    && e.Meta? && e.id == id && e.retries == 0 && e.status in {200, 206} && Can(s, e)
    && s.live[id].url in s.check.expected && s.check.expected[s.live[id].url].digest.Some?
  }

  ghost predicate FirstHeadCame(p: Page, s: State, events: seq<Event>, id: nat)
    decreases |events|
  {
    events != [] && (FirstHead(s, events[0], id) || FirstHeadCame(p, Step(p, s, events[0]), events[1..], id))
  }

  predicate Hashed(s: State, id: nat) { id in s.live && s.live[id].hash.Some? }

  /** Requests are given numbers not used before, and keep their hash as they have it. */
  lemma {:induction false} RequestAllFresh(s: State, urls: seq<Url>, id: nat)
    ensures var s1 := RequestAll(s, urls);
            && s1.next >= s.next
            && (id < s.next ==> (id in s1.live <==> id in s.live) && (id in s.live ==> s1.live[id] == s.live[id]))
            && (id >= s.next && id !in s.live && id in s1.live ==> s1.live[id].hash == None)
    decreases |urls|
  {
    if urls != [] && s.phase != Aborted { RequestAllFresh(RequestOne(s, urls[0]), urls[1..], id); }
  }

  lemma FinishedHashes(p: Page, s: State, e: Event, id: nat)
    requires Inv(p, s) && e.Finished? && Can(s, e)
    ensures var s1 := Step(p, s, e);
            && s1.next >= s.next && (id in s1.live ==> (Hashed(s1, id) <==> Hashed(s, id)))
            && (id < s.next && id !in s.live ==> id !in s1.live)
  {
    var s1 := Settle(p, s, e.id);
    RequestAllFresh(s1.(received := s1.received + {s.live[e.id].url}), e.urls, id);
    if id in s.live { assert RequestOk(s, id); }
  }

  lemma ReportHashes(s: State, id: nat)
    ensures Report(s).next == s.next && Report(s).live == s.live
  {
  }

  lemma NotifiedHashes(p: Page, s: State, e: Event, id: nat)
    requires Inv(p, s) && e.Notified? && Can(s, e)
    ensures var s1 := Step(p, s, e);
            && s1.next >= s.next && (id in s1.live ==> (Hashed(s1, id) <==> Hashed(s, id)))
            && (id < s.next && id !in s.live ==> id !in s1.live)
  {
    var s0 := s.(notified := false);
    var s1 := if s.phase == DoneDocument && s.html then RequestAll(s0, e.urls) else s0;
    RequestAllFresh(s0, e.urls, id);
    ReportHashes(s1.(phase := Done), id);
    assert Step(p, s, e).next == s1.next && Step(p, s, e).live == s1.live;
    if id in s.live { assert RequestOk(s, id); }
  }

  lemma StepHashes(p: Page, s: State, e: Event, id: nat)
    requires Inv(p, s)
    ensures var s1 := Step(p, s, e);
            && s1.next >= s.next
            && (id in s1.live ==> (Hashed(s1, id) <==> Hashed(s, id) || FirstHead(s, e, id)))
            && (id < s.next && id !in s.live ==> id !in s1.live)
  {
    if Can(s, e) {
      match e
      case Meta(_, _, _, _) =>
      case Body(_, _) =>
      case Finished(_, _) => FinishedHashes(p, s, e, id);
      case Notified(_) => NotifiedHashes(p, s, e, id);
    }
  }

  lemma {:induction false} GoneForGood(p: Page, s: State, events: seq<Event>, id: nat)
    requires Inv(p, s) && id < s.next && id !in s.live
    ensures id !in Run(p, s, events).live
    decreases |events|
  {
    if events != [] {
      StepInv(p, s, events[0]);
      StepHashes(p, s, events[0], id);
      GoneForGood(p, Step(p, s, events[0]), events[1..], id);
    }
  }

  /** Over every run: a request in flight has a digest context if and only if the head of its first attempt
      has come, at a time when its URL was expected, with a digest. */
  lemma {:induction false} HashIff(p: Page, s: State, events: seq<Event>, id: nat)
    requires Inv(p, s) && id in Run(p, s, events).live
    ensures Hashed(Run(p, s, events), id) <==> Hashed(s, id) || FirstHeadCame(p, s, events, id)
    decreases |events|
  {
    if events != [] {
      var s1 := Step(p, s, events[0]);
      StepInv(p, s, events[0]);
      StepHashes(p, s, events[0], id);
      HashIff(p, s1, events[1..], id);
      if id in s.live {
        assert RequestOk(s, id);
        if id !in s1.live { GoneForGood(p, s1, events[1..], id); }
      }
    }
  }

  /** What "as expected" means for a request, after any run of a load: the digest of its whole body is
      compared, if there is one to compare with and the head of the first attempt has come. */
  lemma FitsMeans(p: Page, events: seq<Event>, id: nat, e: Expected)
    requires id in Run(p, Load(p), events).live
    ensures var r := Run(p, Load(p), events).live[id];
            Fits(e, Outcome(p, r)) <==>
              |r.body| == e.size &&
              (e.digest.Some? && FirstHeadCame(p, Load(p), events, id) ==> p.md5(r.body) == e.digest.value)
  {
    var s := Run(p, Load(p), events);
    LoadInv(p);
    RunInv(p, Load(p), events);
    HashIff(p, Load(p), events, id);
    assert RequestOk(s, id);
  }

  /** So a wrong body of the right size passes when its first head came with a retry. */
  lemma WrongDigestPasses(p: Page, body: string, digest: string)
    requires p.spec == map[p.url := Expected(|body|, Some(digest))]
    ensures var s := Run(p, Load(p), [Meta(0, 200, 1, []), Body(0, body), Finished(0, []), Notified([])]);
            s.result == Some(Passed)
  {
    var s0 := Load(p);
    var s1 := Step(p, s0, Meta(0, 200, 1, []));
    var s2 := Step(p, s1, Body(0, body));
    var s3 := Step(p, s2, Finished(0, []));
    assert s2.live[0] == Request(p.url, body, None);
    assert p.spec - {p.url} == map[];
    var s4 := Step(p, s3, Notified([]));
    assert Run(p, s3, [Notified([])]) == Run(p, s4, []);
    assert Run(p, s2, [Finished(0, []), Notified([])]) == Run(p, s3, [Notified([])]);
    assert Run(p, s1, [Body(0, body), Finished(0, []), Notified([])]) == Run(p, s2, [Finished(0, []), Notified([])]);
  }
}
