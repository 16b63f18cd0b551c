/** web/browser/browser.cc on values: one page load, from its document to the verdict. */
module PageLoad {
  import opened Text

  type Url = string

  datatype Option<T> = None | Some(value: T)

  /** An ExpectedObj. */
  datatype Expected = Expected(size: nat, digest: Option<string>)

  /** What validate_one_resource is called with. */
  datatype Finish = Finish(url: Url, size: nat, digest: Option<string>)

  datatype Verdict = Failed | Passed

  /** expected_objects_ and validate_result_ */
  datatype Check = Check(expected: map<Url, Expected>, verdict: Verdict)

  // ---- the verdict ----

  /** If the size differs digests are not compared, and without both there is nothing to compare. */
  predicate Fits(e: Expected, f: Finish) {
    f.size == e.size && (e.digest.Some? && f.digest.Some? ==> f.digest == e.digest)
  }

  /** validate_one_resource */
  function ValidateOne(k: Check, f: Finish): Check {
    if f.url !in k.expected then k.(verdict := Failed)
    else Check(k.expected - {f.url}, if Fits(k.expected[f.url], f) then k.verdict else Failed)
  }

  function ValidateAll(k: Check, h: seq<Finish>): Check
    decreases |h|
  {
    if h == [] then k else ValidateAll(ValidateOne(k, h[0]), h[1..])
  }

  /** verify_page_load */
  function VerifyLoad(k: Check): Verdict { if k.expected == map[] then k.verdict else Failed }

  function Urls(h: seq<Finish>): set<Url>
    decreases |h|
  {
    if h == [] then {} else {h[0].url} + Urls(h[1..])
  }

  /** No resource has come twice. */
  predicate Distinct(h: seq<Finish>)
    decreases |h|
  {
    h == [] || (h[0].url !in Urls(h[1..]) && Distinct(h[1..]))
  }

  predicate AllFit(spec: map<Url, Expected>, h: seq<Finish>) { forall f <- h :: f.url in spec && Fits(spec[f.url], f) }

  /** Exactly the expected resources, each once, and each as expected. */
  predicate Exact(spec: map<Url, Expected>, h: seq<Finish>) {
    Distinct(h) && Urls(h) == spec.Keys && AllFit(spec, h)
  }

  lemma {:induction false} FailedStays(k: Check, h: seq<Finish>)
    requires k.verdict == Failed
    ensures ValidateAll(k, h).verdict == Failed
    decreases |h|
  {
    if h != [] { FailedStays(ValidateOne(k, h[0]), h[1..]); }
  }

  lemma {:induction false} InUrls(h: seq<Finish>, f: Finish)
    requires f in h
    ensures f.url in Urls(h)
    decreases |h|
  {
    assert h == [h[0]] + h[1..];
    if f != h[0] { InUrls(h[1..], f); }
  }

  lemma AllFitRest(spec: map<Url, Expected>, h: seq<Finish>)
    requires h != [] && h[0].url !in Urls(h[1..])
    ensures AllFit(spec, h) <==> h[0].url in spec && Fits(spec[h[0].url], h[0]) && AllFit(spec - {h[0].url}, h[1..])
  {
    assert h == [h[0]] + h[1..];
    forall f | f in h[1..] ensures f.url != h[0].url { InUrls(h[1..], f); }
  }

  lemma ExactRest(spec: map<Url, Expected>, h: seq<Finish>)
    requires h != []
    ensures Exact(spec, h) <==>
            h[0].url in spec && Fits(spec[h[0].url], h[0]) && Exact(spec - {h[0].url}, h[1..])
  {
    var rest := spec - {h[0].url};
    assert rest.Keys == spec.Keys - {h[0].url};
    if h[0].url !in Urls(h[1..]) {
      AllFitRest(spec, h);
    }
  }

  /** The verdict is success if and only if exactly the expected resources came. */
  lemma {:induction false} VerdictIff(spec: map<Url, Expected>, h: seq<Finish>)
    ensures VerifyLoad(ValidateAll(Check(spec, Passed), h)) == Passed <==> Exact(spec, h)
    decreases |h|
  {
    if h == [] {
      assert Urls(h) == {};
      assert spec == map[] <==> spec.Keys == {};
    } else {
      ExactRest(spec, h);
      var k := ValidateOne(Check(spec, Passed), h[0]);
      if k.verdict == Failed {
        FailedStays(k, h[1..]);
      } else {
        VerdictIff(spec - {h[0].url}, h[1..]);
      }
    }
  }

  lemma Commute(k: Check, f: Finish, g: Finish)
    ensures ValidateOne(ValidateOne(k, f), g) == ValidateOne(ValidateOne(k, g), f)
  {
    assert k.expected - {f.url} - {g.url} == k.expected - {g.url} - {f.url};
  }

  lemma {:induction false} ToFront(k: Check, h: seq<Finish>, i: nat)
    requires i < |h|
    ensures ValidateAll(k, h) == ValidateAll(ValidateOne(k, h[i]), h[..i] + h[i + 1..])
    decreases i
  {
    var rest := h[..i] + h[i + 1..];
    if i == 0 {
      assert rest == h[1..];
    } else {
      ToFront(ValidateOne(k, h[0]), h[1..], i - 1);
      Commute(k, h[0], h[i]);
      assert rest[0] == h[0] && rest[1..] == h[1..][..i - 1] + h[1..][i..];
    }
  }

  lemma Without(g: seq<Finish>, i: nat)
    requires i < |g|
    ensures multiset(g[..i] + g[i + 1..]) == multiset(g) - multiset{g[i]}
  {
    assert g == g[..i] + [g[i]] + g[i + 1..];
  }

  lemma OneLess(h: seq<Finish>, g: seq<Finish>, i: nat)
    requires multiset(h) == multiset(g) && h != [] && i < |g| && g[i] == h[0]
    ensures multiset(h[1..]) == multiset(g[..i] + g[i + 1..])
  {
    assert h == [h[0]] + h[1..];
    Without(g, i);
  }

  /** Whatever the order of completion. */
  lemma {:induction false} AnyOrder(k: Check, h: seq<Finish>, g: seq<Finish>)
    requires multiset(h) == multiset(g)
    ensures ValidateAll(k, h) == ValidateAll(k, g)
    decreases |h|
  {
    if h == [] {
      assert |multiset(g)| == 0;
    } else {
      assert h[0] in multiset(g);
      var i :| 0 <= i < |g| && g[i] == h[0];
      OneLess(h, g, i);
      ToFront(k, g, i);
      AnyOrder(ValidateOne(k, h[0]), h[1..], g[..i] + g[i + 1..]);
    }
  }

  // ---- the load ----

  datatype Phase = FetchingDocument | DoneDocument | FetchingEmbedded | Done | Reported | Aborted

  /** A request in flight: what has come, and what the digest context, if there is one, has been fed. */
  datatype Request = Request(url: Url, body: string, hash: Option<string>)

  /** The page that is loaded, and the digest algorithm. */
  datatype Page = Page(url: Url, spec: map<Url, Expected>, md5: string -> string)

  /** `live` are the requests the connection manager has, by instNum_, 0 the document's; `pending` are the
      keys of pending_requests_; `finished` is the history, `result` what report_result has said. */
  datatype State = State(
    phase: Phase, live: map<nat, Request>, next: nat, pending: set<Url>, html: bool, notified: bool,
    embedded: set<Url>, received: set<Url>, check: Check, finished: seq<Finish>, result: Option<Verdict>)

  /** load */
  function Load(p: Page): State {
    State(FetchingDocument, map[0 := Request(p.url, "", None)], 1, {p.url}, false, false, {}, {},
          Check(p.spec, Passed), [], None)
  }

  function Abort(s: State): State { s.(phase := Aborted) }

  /** notify; a second notification before the first is handled is an assertion failure. */
  function Notify(s: State): State { if s.notified then Abort(s) else s.(notified := true) }

  /** request_one_url */
  function RequestOne(s: State, u: Url): State {
    var s1 := s.(embedded := s.embedded + {u});
    if u in s.pending then Abort(s1)
    else s1.(live := s.live[s.next := Request(u, "", None)], next := s.next + 1, pending := s.pending + {u})
  }

  function RequestAll(s: State, urls: seq<Url>): State
    decreases |urls|
  {
    if urls == [] || s.phase == Aborted then s else RequestAll(RequestOne(s, urls[0]), urls[1..])
  }

  predicate Good(status: int) { status == 200 || status == 206 }

  type Headers = seq<(string, string)>

  /** The loop over the headers of the document: what doc_is_html_ is behind it. */
  function TypeRead(headers: Headers, html: bool): bool {
    if headers == [] then html
    else
      var (name, value) := headers[0];
      TypeRead(headers[1..], if EqualFold(name, "content-type") then EqualFold(value, "text/html") else html)
  }

  /** response_meta_cb */
  function OnMeta(s: State, id: nat, status: int, retries: nat, headers: Headers): State
    requires id in s.live
  {
    var r := s.live[id];
    if !Good(status) || (retries == 0 && r.hash.Some?) then Abort(s) else
    var wanted := r.url in s.check.expected && s.check.expected[r.url].digest.Some?;
    s.(live := s.live[id := if retries == 0 && wanted then r.(hash := Some("")) else r],
       html := if id == 0 then TypeRead(headers, s.html) else s.html)
  }

  /** response_body_data_cb */
  function OnBody(s: State, id: nat, data: string): State
    requires id in s.live
  {
    var r := s.live[id];
    var hash := if r.hash.Some? then Some(r.hash.value + data) else None;
    s.(live := s.live[id := r.(body := r.body + data, hash := hash)])
  }

  function Outcome(p: Page, r: Request): Finish {
    Finish(r.url, |r.body|, if r.hash.Some? then Some(p.md5(r.hash.value)) else None)
  }

  /** is_page_done */
  predicate PageDone(s: State) { |s.embedded| == |s.received| }

  function Settle(p: Page, s: State, id: nat): State
    requires id in s.live
  {
    var f := Outcome(p, s.live[id]);
    s.(check := ValidateOne(s.check, f), finished := s.finished + [f], pending := s.pending - {f.url},
      live := s.live - {id})
  }

  /** response_finished_cb, whether the request succeeded or failed; `scripted` are the URLs in a script. */
  function OnFinished(p: Page, s: State, id: nat, scripted: seq<Url>): State
    requires id in s.live
  {
    var s1 := Settle(p, s, id);
    if id == 0 then Notify(s1.(phase := DoneDocument))
    else if s.phase != FetchingEmbedded then Abort(s1)
    else
      var s2 := RequestAll(s1.(received := s1.received + {s.live[id].url}), scripted);
      if s2.phase != Aborted && PageDone(s2) then Notify(s2.(phase := Done)) else s2
  }

  /** SB_DONE in on_notified: the verdict, and reset, which asserts that no request is pending. */
  function Report(s: State): State {
    var v := VerifyLoad(s.check);
    var s1 := s.(check := s.check.(verdict := v), result := Some(v));
    if s1.pending == {} then s1.(phase := Reported) else Abort(s1)
  }

  /** on_notified; `linked` are the URLs in the document. */
  function OnNotified(s: State, linked: seq<Url>): State {
    var s1 := s.(notified := false);
    if s.phase == DoneDocument && s.html then
      var s2 := RequestAll(s1, linked);
      if s2.phase == Aborted then s2
      else if PageDone(s2) then Report(s2.(phase := Done))
      else s2.(phase := FetchingEmbedded)
    else if s.phase == DoneDocument || s.phase == Done then Report(s1.(phase := Done))
    else s1
  }

  datatype Event = Meta(id: nat, status: int, retries: nat, headers: Headers) | Body(id: nat, data: string)
                 | Finished(id: nat, urls: seq<Url>) | Notified(urls: seq<Url>)

  /** Callbacks come for live requests, the head of a first attempt before any of its body, and the
      notification once it has been asked for. */
  predicate Can(s: State, e: Event) {
    && s.phase != Reported && s.phase != Aborted
    && match e
       case Meta(id, _, retries, _) => id in s.live && (retries == 0 ==> s.live[id].body == "")
       case Body(id, _) => id in s.live
       case Finished(id, _) => id in s.live
       case Notified(_) => s.notified
  }

  function Step(p: Page, s: State, e: Event): State {
    if !Can(s, e) then s else
    match e
    case Meta(id, status, retries, headers) => OnMeta(s, id, status, retries, headers)
    case Body(id, data) => OnBody(s, id, data)
    case Finished(id, urls) => OnFinished(p, s, id, urls)
    case Notified(urls) => OnNotified(s, urls)
  }

  function Run(p: Page, s: State, events: seq<Event>): State
    decreases |events|
  {
    if events == [] then s else Run(p, Step(p, s, events[0]), events[1..])
  }
}
