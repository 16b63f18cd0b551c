/** The browser_t object of the web browser: its maps and sets updated in place, proved against PageLoad.
    Where the source asserts, the object goes to Aborted. */
module PageBrowser {
  import opened PageLoad
  import opened PageRuns
  import opened Text

  class Browser {
    const page: Page
    var phase: Phase                             // state
    var live: map<nat, Request>
    var next: nat
    var pending: set<Url>                        // keys of pending_requests_
    var html: bool                               // doc_is_html_
    var notified: bool                           // notified_
    var embedded: set<Url>                       // embedded_resources_
    var received: set<Url>                       // received_resources_
    var expected: map<Url, Expected>             // expected_objects_
    var verdict: Verdict                         // validate_result_
    var result: Option<Verdict>
    ghost var finished: seq<Finish>

    ghost function Now(): State reads this {
      State(phase, live, next, pending, html, notified, embedded, received, Check(expected, verdict), finished, result)
    }

    ghost predicate Valid() reads this { Inv(page, Now()) }

    /** load */
    constructor (page: Page)
      ensures Valid() && this.page == page && Now() == Load(page)
    {
      this.page := page;
      phase, live, next, pending := FetchingDocument, map[0 := Request(page.url, "", None)], 1, {page.url};
      html, notified, embedded, received := false, false, {}, {};
      expected, verdict, result, finished := page.spec, Passed, None, [];
      new;
      LoadInv(page);
    }

    /** validate_one_resource */
    method ValidateOneResource(f: Finish)
      modifies this`expected, this`verdict
      ensures Check(expected, verdict) == ValidateOne(old(Check(expected, verdict)), f)
    {
      if f.url !in expected {
        verdict := Failed;
      } else {
        var eo := expected[f.url];
        if f.size != eo.size {
          verdict := Failed;
        } else if eo.digest.Some? && f.digest.Some? {
          if f.digest.value != eo.digest.value { verdict := Failed; }
        }
        expected := expected - {f.url};
      }
    }

    /** The loop of verify_page_load over what has not been received. */
    method VerifyPageLoad()
      modifies this`verdict
      ensures verdict == VerifyLoad(old(Check(expected, verdict)))
    {
      var left := expected.Keys;
      while left != {}
        invariant left <= expected.Keys
        invariant verdict == if left == expected.Keys then old(verdict) else Failed
        decreases |left|
      {
        var u :| u in left;
        verdict := Failed;
        left := left - {u};
      }
    }

    /** notify */
    method RaiseNotification()
      modifies this`phase, this`notified
      ensures Now() == Notify(old(Now()))
    {
      if notified { phase := Aborted; } else { notified := true; }
    }

    /** request_one_url */
    method RequestOneUrl(u: Url)
      modifies this`phase, this`live, this`next, this`pending, this`embedded
      ensures Now() == RequestOne(old(Now()), u)
    {
      embedded := embedded + {u};
      if u in pending {
        phase := Aborted;
      } else {
        live := live[next := Request(u, "", None)];
        next := next + 1;
        pending := pending + {u};
      }
    }

    /** The loops of request_embedded_objects and process_a_script. */
    method RequestUrls(urls: seq<Url>)
      modifies this`phase, this`live, this`next, this`pending, this`embedded
      ensures Now() == RequestAll(old(Now()), urls)
    {
      var i := 0;
      while i < |urls| && phase != Aborted
        invariant i <= |urls|
        invariant RequestAll(Now(), urls[i..]) == RequestAll(old(Now()), urls)
        decreases |urls| - i
      {
        assert urls[i..][0] == urls[i] && urls[i..][1..] == urls[i + 1..];
        RequestOneUrl(urls[i]);
        i := i + 1;
      }
    }

    /** response_meta_cb */
    method ResponseMeta(id: nat, status: int, retries: nat, headers: Headers)
      requires Valid() && Can(Now(), Meta(id, status, retries, headers))
      modifies this`phase, this`live, this`html
      ensures Valid() && Now() == OnMeta(old(Now()), id, status, retries, headers)
    {
      MetaInv(page, Now(), id, status, retries, headers);
      var r := live[id];
      if status != 200 && status != 206 {
        phase := Aborted;
        return;
      }
      if retries == 0 {
        if r.hash.Some? {
          phase := Aborted;
          return;
        }
        if r.url in expected && expected[r.url].digest.Some? { r := r.(hash := Some("")); }
      }
      live := live[id := r];
      if id == 0 { ReadContentType(headers); }
    }

    /** The loop of response_meta_cb over the headers. */
    method ReadContentType(headers: Headers)
      modifies this`html
      ensures html == TypeRead(headers, old(html))
    {
      var i := 0;
      while i < |headers|
        invariant i <= |headers| && TypeRead(headers[i..], html) == TypeRead(headers, old(html))
      {
        assert headers[i..][0] == headers[i] && headers[i..][1..] == headers[i + 1..];
        if EqualFold(headers[i].0, "content-type") { html := EqualFold(headers[i].1, "text/html"); }
        i := i + 1;
      }
    }

    /** response_body_data_cb */
    method ResponseBodyData(id: nat, data: string)
      requires Valid() && Can(Now(), Body(id, data))
      modifies this`live
      ensures Valid() && Now() == OnBody(old(Now()), id, data)
    {
      BodyInv(page, Now(), id, data);
      var r := live[id];
      if r.hash.Some? { r := r.(hash := Some(r.hash.value + data)); }
      live := live[id := r.(body := r.body + data)];
    }

    /** The first half of response_finished_cb: the digest is finished, the resource validated and forgotten. */
    method SettleRequest(id: nat)
      requires id in live
      modifies this`expected, this`verdict, this`finished, this`pending, this`live
      ensures Now() == Settle(page, old(Now()), id)
    {
      var r := live[id];
      var f := Finish(r.url, |r.body|, if r.hash.Some? then Some(page.md5(r.hash.value)) else None);
      ValidateOneResource(f);
      finished := finished + [f];
      pending := pending - {r.url};
      live := live - {id};
    }

    /** The second half for a resource: it is received, its script read, and the page may be done. */
    method ReceiveResource(url: Url, scripted: seq<Url>)
      modifies this`phase, this`live, this`next, this`pending, this`embedded, this`received, this`notified
      ensures var s := RequestAll(old(Now().(received := received + {url})), scripted);
              Now() == if s.phase != Aborted && PageDone(s) then Notify(s.(phase := Done)) else s
    {
      received := received + {url};
      RequestUrls(scripted);
      if phase != Aborted && |embedded| == |received| {
        phase := Done;
        RaiseNotification();
      }
    }

    /** response_finished_cb */
    method ResponseFinished(id: nat, scripted: seq<Url>)
      requires Valid() && Can(Now(), Finished(id, scripted))
      modifies this
      ensures Valid() && Now() == OnFinished(page, old(Now()), id, scripted)
    {
      FinishedInv(page, Now(), id, scripted);
      var url := live[id].url;
      SettleRequest(id);
      if id == 0 {
        phase := DoneDocument;
        RaiseNotification();
      } else if phase != FetchingEmbedded {
        phase := Aborted;
      } else {
        ReceiveResource(url, scripted);
      }
    }

    /** SB_DONE in on_notified. */
    method ReportResult()
      modifies this`verdict, this`result, this`phase
      ensures Now() == Report(old(Now()))
    {
      VerifyPageLoad();
      result := Some(verdict);
      phase := if pending == {} then Reported else Aborted;
    }

    /** on_notified */
    method OnNotification(linked: seq<Url>)
      requires Valid() && Can(Now(), Notified(linked))
      modifies this
      ensures Valid() && Now() == OnNotified(old(Now()), linked)
    {
      NotifiedInv(page, Now(), linked);
      notified := false;
      if phase == DoneDocument {
        if html {
          RequestUrls(linked);
          if phase == Aborted { return; }
          phase := if |embedded| == |received| then Done else FetchingEmbedded;
        } else {
          phase := Done;
        }
      }
      if phase == Done { ReportResult(); }
    }
  }
}
