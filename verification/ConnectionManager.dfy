/** The ConnectionManager object: its lists and maps updated in place, proved against Scheduling. */
module ConnectionManager {
  import opened Scheduling
  import opened SchedulingRuns

  /** Octet counts of the connections with ids below `k`. */
  function Sum(count: map<nat, nat>, k: nat): nat {
    if k == 0 then 0 else Sum(count, k - 1) + if k - 1 in count then count[k - 1] else 0
  }

  lemma SumSame(a: map<nat, nat>, b: map<nat, nat>, k: nat)
    requires forall c | c < k :: (c in a <==> c in b) && (c in a ==> a[c] == b[c])
    ensures Sum(a, k) == Sum(b, k)
  {
  }

  lemma {:induction false} SumAdd(a: map<nat, nat>, c: nat, n: nat, k: nat)
    requires c < k && c in a
    ensures Sum(a[c := a[c] + n], k) == Sum(a, k) + n
  {
    if c == k - 1 { SumSame(a, a[c := a[c] + n], k - 1); } else { SumAdd(a, c, n, k - 1); }
  }

  lemma {:induction false} SumInsert(a: map<nat, nat>, c: nat, n: nat, k: nat)
    requires c < k && c !in a
    ensures Sum(a[c := n], k) == Sum(a, k) + n
  {
    if c == k - 1 { SumSame(a, a[c := n], k - 1); } else { SumInsert(a, c, n, k - 1); }
  }

  lemma SumRemove(a: map<nat, nat>, c: nat, k: nat)
    requires c < k && c in a
    ensures Sum(a, k) == Sum(a - {c}, k) + a[c]
  {
    SumInsert(a - {c}, c, a[c], k);
    SumSame(a, (a - {c})[c := a[c]], k);
  }

  lemma SumNew(a: map<nat, nat>, k: nat)
    requires forall c <- a :: c < k
    ensures Sum(a[k := 0], k + 1) == Sum(a, k)
  {
    SumSame(a, a[k := 0], k);
  }

  lemma SumEmpty(k: nat)
    ensures Sum(map[], k) == 0
  {
  }

  function Restrict(a: map<nat, nat>, keys: set<nat>): map<nat, nat> { map c | c in a && c in keys :: a[c] }

  class ConnectionManager {
    const cap: nat                     // max_persist_cnx_per_srv_
    const max: nat                     // max_retries_per_resource_
    var servers: map<NetLoc, Server>
    var lines: map<nat, Line>
    var next: nat
    var tries: map<Request, nat>
    var sentBytes: map<nat, nat>       // cumulative_num_sent_bytes_ of each connection
    var recvBytes: map<nat, nat>
    var totalTx: nat                   // of the connections released so far
    var totalRx: nat
    ghost var at: map<Request, Place>
    ghost var everTx: nat              // of all connections since the last reset
    ghost var everRx: nat

    ghost function Now(): State reads this { State(servers, lines, next, tries, at) }

    ghost predicate Counted() reads this {
      && sentBytes.Keys == recvBytes.Keys == lines.Keys && (forall c <- lines :: c < next)
      && everTx == totalTx + Sum(sentBytes, next) && everRx == totalRx + Sum(recvBytes, next)
    }

    ghost predicate Valid() reads this { cap > 0 && Wf(cap, Now()) && Linked(Now()) && Counted() }

    constructor (cap: nat, max: nat)
      requires cap > 0
      ensures Valid() && Now() == EMPTY && this.cap == cap && this.max == max && everTx == everRx == 0
    {
      this.cap, this.max := cap, max;
      servers, lines, next, tries, at := map[], map[], 0, map[], map[];
      sentBytes, recvBytes := map[], map[];
      totalTx, totalRx, everTx, everRx := 0, 0, 0, 0;
      new;
      EmptyQuiet(cap);
    }

    /** Some connection writes `tx` octets and reads `rx`. */
    method Transfer(c: nat, tx: nat, rx: nat)
      requires Valid() && c in lines
      modifies this`sentBytes, this`recvBytes, this`everTx, this`everRx
      ensures Valid() && Now() == old(Now()) && everTx == old(everTx) + tx && everRx == old(everRx) + rx
    {
      CountBytes(c, tx, rx);
    }

    method CountBytes(c: nat, tx: nat, rx: nat)
      requires Counted() && c in lines
      modifies this`sentBytes, this`recvBytes, this`everTx, this`everRx
      ensures Counted() && everTx == old(everTx) + tx && everRx == old(everRx) + rx
    {
      SumAdd(sentBytes, c, tx, next);
      SumAdd(recvBytes, c, rx, next);
      sentBytes, recvBytes := sentBytes[c := sentBytes[c] + tx], recvBytes[c := recvBytes[c] + rx];
      everTx, everRx := everTx + tx, everRx + rx;
    }

    /** The BOOST_FOREACH that looks for a connection with empty queues. */
    method FindIdle(conns: seq<nat>) returns (i: int)
      requires forall c <- conns :: c in lines
      ensures i == FirstIdle(lines, conns)
    {
      i := 0;
      while i < |conns|
        invariant 0 <= i <= |conns|
        invariant FirstIdle(lines, conns) ==
                  if FirstIdle(lines, conns[i..]) == -1 then -1 else i + FirstIdle(lines, conns[i..])
      {
        if QueueSize(lines[conns[i]]) == 0 { return; }
        assert conns[i..][1..] == conns[i + 1..];
        i := i + 1;
      }
      return -1;
    }

    /** Connection::submit_request with the front of the list of `n`, and pop_front. */
    method HandFront(n: NetLoc, c: nat)
      requires Counted() && n in servers && servers[n].requests != [] && c in lines
      modifies this`servers, this`lines, this`at
      ensures Now() == Hand(old(Now()), n, c) && Counted()
    {
      var r, s, l := servers[n].requests[0], servers[n], lines[c];
      l := l.(submitted := l.submitted + [r]);
      if l.active == [] {
        l := Line(l.loc, l.submitted[1..], [l.submitted[0]]);
      }
      servers := servers[n := s.(requests := s.requests[1..], left := s.left + [r])];
      lines := lines[c := l];
      at := Noted(at, c, l);
    }

    method NewConnection(n: NetLoc)
      requires Counted() && n in servers
      modifies this`servers, this`lines, this`next, this`sentBytes, this`recvBytes
      ensures Now() == Connect(old(Now()), n) && Counted()
    {
      SumNew(sentBytes, next);
      SumNew(recvBytes, next);
      servers := servers[n := servers[n].(conns := servers[n].conns + [next])];
      lines := lines[next := Line(n, [], [])];
      sentBytes, recvBytes := sentBytes[next := 0], recvBytes[next := 0];
      next := next + 1;
    }

    method EnqueueRequest(r: Request)
      requires Counted()
      modifies this`servers, this`at
      ensures Now() == Enqueue(old(Now()), r) && Counted()
    {
      var n := r.loc;
      if n !in servers { servers := servers[n := Server([], [], [], [])]; }
      servers := servers[n := servers[n].(requests := servers[n].requests + [r], joined := servers[n].joined + [r])];
      at := at[r := Waiting];
    }

    /** The rest of submit_request: the front of the list to an idle or a new connection. */
    method DispatchFront(n: NetLoc)
      requires Counted() && Linked(Now()) && n in servers && servers[n].requests != []
      modifies this`servers, this`lines, this`next, this`sentBytes, this`recvBytes, this`at
      ensures Now() == Dispatch(cap, old(Now()), n) && Counted()
    {
      var i := FindIdle(servers[n].conns);
      if i != -1 {
        HandFront(n, servers[n].conns[i]);
      } else if |servers[n].conns| < cap {
        var c := next;
        NewConnection(n);
        HandFront(n, c);
      }
    }

    /** submit_request */
    method SubmitRequest(r: Request)
      requires Valid() && MaySubmit(cap, Now(), r)
      modifies this`servers, this`lines, this`next, this`sentBytes, this`recvBytes, this`at
      ensures Valid() && Now() == Submit(cap, old(Now()), r)
    {
      SubmitWf(cap, Now(), r);
      EnqueueRequest(r);
      DispatchFront(r.loc);
    }

    /** cnx_request_done_cb */
    method CnxRequestDone(c: nat)
      requires Counted() && c in lines
      modifies this`servers, this`lines, this`at
      ensures Now() == RequestDone(old(Now()), c) && Counted()
    {
      var n := lines[c].loc;
      if n in servers && servers[n].requests != [] { HandFront(n, c); }
    }

    /** active_req_queue_.pop() at the end of a body. */
    method PopActive(c: nat)
      requires Valid() && c in lines && lines[c].active != []
      modifies this`lines, this`at
      ensures Valid() && Now() == Finish(old(Now()), c)
    {
      FinishWf(cap, Now(), c);
      WfLinked(cap, Finish(Now(), c));
      at := at[lines[c].active[0] := Finished];
      lines := lines[c := lines[c].(active := lines[c].active[1..])];
    }

    /** The body-done callback submits `again`, one after the other. */
    method Callback(again: seq<Request>)
      requires Valid() && Fresh(Now(), again)
      modifies this`servers, this`lines, this`next, this`sentBytes, this`recvBytes, this`at
      ensures Valid() && Now() == SubmitAll(cap, old(Now()), again)
    {
      for i := 0 to |again|
        invariant Valid() && Fresh(Now(), again[i..])
        invariant SubmitAll(cap, Now(), again[i..]) == SubmitAll(cap, old(Now()), again)
      {
        SubmitFresh(cap, Now(), again[i..]);
        assert again[i..][0] == again[i] && again[i..][1..] == again[i + 1..];
        SubmitRequest(again[i]);
      }
    }

    /** http_write_to_outbuf */
    method WriteToOutbuf(c: nat)
      requires Counted() && c in lines
      modifies this`lines, this`at
      ensures Now() == Resume(old(Now()), c) && Counted()
    {
      var l := lines[c];
      if l.submitted != [] && l.active == [] { l := Line(l.loc, l.submitted[1..], [l.submitted[0]]); }
      lines := lines[c := l];
      at := Noted(at, c, l);
    }

    /** What http_receive does at the end of a body; the callback submits `again`. */
    method ResponseDone(c: nat, again: seq<Request>)
      requires Valid() && MayFinish(cap, Now(), c, again)
      modifies this`servers, this`lines, this`next, this`sentBytes, this`recvBytes, this`at
      ensures Valid() && Now() == BodyDone(cap, old(Now()), c, again)
      ensures Quiet(cap, Now())
    {
      BodyDoneQuiet(cap, Now(), c, again);
      FinishFresh(cap, Now(), c, again);
      PopActive(c);
      Callback(again);
      CnxRequestDone(c);
      WriteToOutbuf(c);
    }

    /** The part of release_conn that moves the octet counts of `c` to the totals. */
    method CountReleased(c: nat)
      requires Counted() && c in lines
      modifies this`lines, this`sentBytes, this`recvBytes, this`totalTx, this`totalRx
      ensures Counted() && Now() == old(Now()).(lines := old(lines) - {c})
    {
      SumRemove(sentBytes, c, next);
      SumRemove(recvBytes, c, next);
      lines := lines - {c};
      totalTx, totalRx := totalTx + sentBytes[c], totalRx + recvBytes[c];
      sentBytes, recvBytes := sentBytes - {c}, recvBytes - {c};
    }

    /** release_conn */
    method ReleaseConn(c: nat)
      requires Valid() && c in lines && lines[c].submitted == []
      modifies this`servers, this`lines, this`sentBytes, this`recvBytes, this`totalTx, this`totalRx, this`at
      ensures Valid() && Now() == Release(old(Now()), c)
    {
      ReleaseWf(cap, Now(), c);
      WfLinked(cap, Release(Now(), c));
      assert LineOk(Now(), c);
      var n, l := lines[c].loc, lines[c];
      ghost var s := servers[n];
      var conns := Without(servers[n].conns, c);
      if conns == [] { servers := servers - {n}; } else { servers := servers[n := servers[n].(conns := conns)]; }
      CountReleased(c);
      at := map r | r in at ::
        if r in l.active then Retrying else if conns == [] && r in s.requests then Dropped else at[r];
    }

    /** One turn of the retry_requests loop; the callback of a request that fails submits `again`. */
    method RetryFront(r: Request, again: seq<Request>)
      requires Valid() && r in at && at[r] == Retrying && Fresh(Now(), again)
      modifies this`servers, this`lines, this`next, this`tries, this`sentBytes, this`recvBytes, this`at
      ensures Valid() && Now() == RetryOneThen(max, cap, old(Now()), r, again)
      ensures again == [] ==> Now() == RetryOne(max, cap, old(Now()), r)
      ensures again == [] ==> forall q <- old(at) :: q != r && old(at)[q] == Retrying ==> q in at && at[q] == Retrying
    {
      var done := if r in tries then tries[r] else 0;
      if done == max {
        GiveUpWf(cap, Now(), r);
        WfLinked(cap, GiveUp(Now(), r));
        at := at[r := Failed];
        Callback(again);         // notify_req_error_
      } else {
        CountAndSubmit(r, done);
      }
    }

    /** increment_num_retries and submit_request */
    method CountAndSubmit(r: Request, done: nat)
      requires Valid() && r in at && at[r] == Retrying && done == Tries(Now(), r)
      modifies this`servers, this`lines, this`next, this`tries, this`sentBytes, this`recvBytes, this`at
      ensures Valid() && Now() == Submit(cap, CountTry(old(Now()), r), r)
      ensures forall q <- old(at) :: q != r && old(at)[q] == Retrying ==> q in at && at[q] == Retrying
    {
      CountTryWf(cap, Now(), r);
      OthersRetry(cap, Now(), r);
      tries := tries[r := done + 1];
      SubmitRequest(r);
    }

    /** retry_requests: pop the queue until it is empty. */
    method RetryRequests(requests: seq<Request>, again: seq<Request>)
      requires Valid() && Distinct(requests) && forall r <- requests :: r in at && at[r] == Retrying
      requires Fresh(Now(), again) && (again != [] ==> |requests| <= 1)
      modifies this`servers, this`lines, this`next, this`tries, this`sentBytes, this`recvBytes, this`at
      ensures Valid()
      ensures again == [] ==> Now() == RetryAll(max, cap, old(Now()), requests)
      ensures |requests| == 1 ==> Now() == RetryOneThen(max, cap, old(Now()), requests[0], again)
      ensures |requests| == 0 ==> Now() == old(Now())
    {
      var q := requests;
      while q != []
        invariant Valid() && Distinct(q) && |q| <= |requests|
        invariant (q != [] ==> forall r <- q :: r in at && at[r] == Retrying)
        invariant |q| == |requests| ==> q == requests && Now() == old(Now())
        invariant again == [] ==> RetryAll(max, cap, Now(), q) == RetryAll(max, cap, old(Now()), requests)
        invariant |requests| == 1 && q == [] ==> Now() == RetryOneThen(max, cap, old(Now()), requests[0], again)
        decreases |q|
      {
        var r := q[0];
        TailDistinct(q);
        q := q[1..];
        RetryFront(r, again);
      }
    }

    /** handle_unusable_conn; the result is whether its assertion held. */
    method HandleUnusableConn(c: nat, again: seq<Request>) returns (ok: bool)
      requires Quiet(cap, Now()) && Valid() && c in lines && Fresh(Now(), again)
      modifies this`servers, this`lines, this`next, this`tries, this`sentBytes, this`recvBytes
      modifies this`totalTx, this`totalRx, this`at
      ensures ok == (old(lines)[c].submitted == [])
      ensures ok ==> Valid() && Now() == LostThen(max, cap, old(Now()), c, again) && Quiet(cap, Now())
    {
      var l := lines[c];
      if l.submitted != [] { return false; }   // myassert(conn->get_pending_request_queue().empty())
      assert LineOk(Now(), c);
      LostThenQuiet(max, cap, Now(), c, again);
      LostOneThen(max, cap, Now(), c, again);
      ReleaseQuiet(cap, Now(), c);
      ReleaseConn(c);
      RetryRequests(l.active, again);
      ok := true;
    }

    /** get_total_bytes: the counts of released and live connections together are all octets moved since
        the last reset, however many connections have come and gone. */
    method GetTotalBytes() returns (tx: nat, rx: nat)
      requires Valid()
      ensures tx == everTx && rx == everRx
    {
      tx, rx := totalTx, totalRx;
      var todo := servers.Keys;
      ghost var seen: set<nat> := {};
      NothingSeen();
      forall c <- lines ensures lines[c].loc in todo { assert LineOk(Now(), c); }
      while todo != {}
        invariant todo <= servers.Keys && seen <= lines.Keys
        invariant forall c <- lines :: c in seen <==> lines[c].loc !in todo
        invariant Partial(tx, rx, seen)
        decreases |todo|
      {
        var n :| n in todo;
        tx, rx, seen := AddServer(n, tx, rx, seen);
        todo := todo - {n};
      }
      AllSeen(tx, rx, seen);
    }

    /** The counts of the connections in `seen` have been added up. */
    ghost predicate Partial(tx: nat, rx: nat, seen: set<nat>) reads this {
      tx == totalTx + Sum(Restrict(sentBytes, seen), next) && rx == totalRx + Sum(Restrict(recvBytes, seen), next)
    }

    lemma NothingSeen()
      ensures Partial(totalTx, totalRx, {})
    {
      SumSame(Restrict(sentBytes, {}), map[], next);
      SumSame(Restrict(recvBytes, {}), map[], next);
      SumEmpty(next);
    }

    lemma AllSeen(tx: nat, rx: nat, seen: set<nat>)
      requires Counted() && Partial(tx, rx, seen) && seen == lines.Keys
      ensures tx == everTx && rx == everRx
    {
      SumSame(Restrict(sentBytes, seen), sentBytes, next);
      SumSame(Restrict(recvBytes, seen), recvBytes, next);
    }

    /** The inner loop of get_total_bytes, over the connections of one server. */
    method AddServer(n: NetLoc, tx0: nat, rx0: nat, ghost seen0: set<nat>)
      returns (tx: nat, rx: nat, ghost seen: set<nat>)
      requires Valid() && n in servers && seen0 <= lines.Keys && forall c <- seen0 :: lines[c].loc != n
      requires Partial(tx0, rx0, seen0)
      ensures seen <= lines.Keys && forall c <- lines :: c in seen <==> c in seen0 || lines[c].loc == n
      ensures Partial(tx, rx, seen)
    {
      assert ServerOk(cap, Now(), n);
      tx, rx, seen := tx0, rx0, seen0;
      var conns := servers[n].conns;
      for i := 0 to |conns|
        invariant seen == seen0 + set c | c in conns[..i]
        invariant Partial(tx, rx, seen)
      {
        var c := conns[i];
        assert c !in seen;
        SeeOne(sentBytes, seen, c, next);
        SeeOne(recvBytes, seen, c, next);
        tx, rx, seen := tx + sentBytes[c], rx + recvBytes[c], seen + {c};
        assert conns[..i + 1] == conns[..i] + [c];
      }
      forall c <- lines ensures c in seen <==> c in seen0 || lines[c].loc == n { assert LineOk(Now(), c); }
    }

    /** reset */
    method Clear()
      requires Valid()
      modifies this
      ensures Valid() && Now() == Reset(old(Now())) && everTx == everRx == 0
    {
      ResetWf(cap, Now());
      at := Reset(Now()).at;
      servers := map[];
      ClearConnections();
      assert Now() == Reset(old(Now()));
    }

    /** The connections go, and the byte counts start again. */
    method ClearConnections()
      modifies this`lines, this`sentBytes, this`recvBytes, this`totalTx, this`totalRx, this`everTx, this`everRx
      ensures lines == map[] && Counted() && everTx == everRx == 0
    {
      SumEmpty(next);
      lines, sentBytes, recvBytes := map[], map[], map[];
      totalTx, totalRx, everTx, everRx := 0, 0, 0, 0;
    }
  }

  lemma SeeOne(count: map<nat, nat>, seen: set<nat>, c: nat, k: nat)
    requires c in count && c < k && c !in seen
    ensures Sum(Restrict(count, seen + {c}), k) == Sum(Restrict(count, seen), k) + count[c]
  {
    SumInsert(Restrict(count, seen), c, count[c], k);
    SumSame(Restrict(count, seen)[c := count[c]], Restrict(count, seen + {c}), k);
  }
}
