/** Whole runs of the connection manager, with any number of servers and connections, body-done
    callbacks that submit further requests, and connections lost at any time. */
module SchedulingRuns {
  import opened Scheduling

  predicate Idle(m: State, c: nat) { c in m.lines && QueueSize(m.lines[c]) == 0 }

  predicate Busy(m: State, c: nat) { c in m.lines && QueueSize(m.lines[c]) > 0 }

  /** None of these has ever been submitted. */
  predicate Fresh(m: State, rs: seq<Request>) { Distinct(rs) && forall r <- rs :: r !in m.at }

  // ---- one submission ----

  /** Every line is as before, or was idle and has got one active request, or is new with one. */
  predicate OnlyIdleTaken(m: State, m': State) {
    && (forall c <- m.lines :: c in m'.lines && m'.lines[c].loc == m.lines[c].loc &&
          (m'.lines[c] == m.lines[c] || (Idle(m, c) && |m'.lines[c].active| == 1 && m'.lines[c].submitted == [])))
    && (forall c <- m'.lines :: c !in m.lines ==> |m'.lines[c].active| == 1 && m'.lines[c].submitted == [])
  }

  lemma HandLines(m: State, n: NetLoc, c: nat)
    requires n in m.servers && m.servers[n].requests != [] && c in m.lines && QueueSize(m.lines[c]) == 0
    ensures OnlyIdleTaken(m, Hand(m, n, c))
  {
  }

  lemma NewLines(m: State, n: NetLoc)
    requires n in m.servers && m.servers[n].requests != [] && m.next !in m.lines
    ensures OnlyIdleTaken(m, Hand(Connect(m, n), n, m.next))
  {
  }

  lemma DispatchLines(cap: nat, m: State, n: NetLoc)
    requires Wf(cap, m) && Linked(m) && n in m.servers && m.servers[n].requests != []
    ensures OnlyIdleTaken(m, Dispatch(cap, m, n))
  {
    var conns := m.servers[n].conns;
    var i := FirstIdle(m.lines, conns);
    NextIsFresh(cap, m);
    if i != -1 { HandLines(m, n, conns[i]); } else if |conns| < cap { NewLines(m, n); }
  }

  lemma DispatchWf(cap: nat, m: State, n: NetLoc)
    requires Wf(cap, m) && Linked(m) && n in m.servers && m.servers[n].requests != []
    ensures Wf(cap, Dispatch(cap, m, n))
  {
    var s := m.servers[n];
    var i := FirstIdle(m.lines, s.conns);
    assert ServerOk(cap, m, n);
    if i != -1 {
      HandWf(cap, m, n, s.conns[i]);
    } else if |s.conns| < cap {
      ConnectWf(cap, m, n);
      HandWf(cap, Connect(m, n), n, m.next);
    }
  }

  predicate MaySubmit(cap: nat, m: State, r: Request) {
    Wf(cap, m) && Linked(m) && (r in m.at ==> m.at[r] == Retrying)
  }

  lemma SubmitWf(cap: nat, m: State, r: Request)
    requires MaySubmit(cap, m, r)
    ensures var m' := Submit(cap, m, r); Wf(cap, m') && Linked(m') && OnlyIdleTaken(m, m')
  {
    var e := Enqueue(m, r);
    EnqueueWf(cap, m, r);
    WfLinked(cap, e);
    DispatchWf(cap, e, r.loc);
    DispatchLines(cap, e, r.loc);
    WfLinked(cap, Submit(cap, m, r));
  }

  /** Nothing but waiting requests has moved, and those only onto a connection. */
  predicate Advances(at: map<Request, Place>, at': map<Request, Place>) {
    forall q <- at :: q in at' && (at'[q] == at[q] || (at[q] == Waiting && at'[q].Active?))
  }

  lemma DispatchPlaces(cap: nat, m: State, n: NetLoc)
    requires Wf(cap, m) && Linked(m) && n in m.servers && m.servers[n].requests != []
    ensures var m' := Dispatch(cap, m, n); m'.at.Keys == m.at.Keys && m'.tries == m.tries && Advances(m.at, m'.at)
  {
    var conns, r := m.servers[n].conns, m.servers[n].requests[0];
    var i := FirstIdle(m.lines, conns);
    assert ServerOk(cap, m, n);
    NextIsFresh(cap, m);
    if i != -1 { HandToIdle(m, n, conns[i]); } else if |conns| < cap { HandToIdle(Connect(m, n), n, m.next); }
  }

  /** The front request becomes active on an idle connection. */
  lemma HandToIdle(m: State, n: NetLoc, c: nat)
    requires n in m.servers && m.servers[n].requests != [] && c in m.lines && QueueSize(m.lines[c]) == 0
    ensures Hand(m, n, c).at == m.at[m.servers[n].requests[0] := Active(c)] && Hand(m, n, c).tries == m.tries
  {
  }

  /** Only `r` and the front of its list change places. */
  lemma SubmitPlaces(cap: nat, m: State, r: Request)
    requires MaySubmit(cap, m, r)
    ensures var m' := Submit(cap, m, r);
            && m'.at.Keys == m.at.Keys + {r} && m'.tries == m.tries && (m'.at[r] == Waiting || m'.at[r].Active?)
            && Advances(m.at - {r}, m'.at)
  {
    EnqueueWf(cap, m, r);
    DispatchPlaces(cap, Enqueue(m, r), r.loc);
  }

  /** Submissions to other servers do not concern server `n`. */
  predicate SameServer(m: State, m': State, n: NetLoc) {
    && (n in m'.servers <==> n in m.servers)
    && (n in m.servers ==> m'.servers[n] == m.servers[n])
    && (n in m.servers ==> forall c <- m.servers[n].conns :: c in m.lines && c in m'.lines && m'.lines[c] == m.lines[c])
  }

  lemma SubmitElsewhere(cap: nat, m: State, r: Request, n: NetLoc)
    requires MaySubmit(cap, m, r) && n != r.loc
    ensures SameServer(m, Submit(cap, m, r), n)
  {
    NextIsFresh(cap, m);
    if n in m.servers { assert ServerOk(cap, m, n); }
    if r.loc in m.servers { assert ServerOk(cap, m, r.loc); }
  }

  // ---- no connection idles while requests wait ----

  /** Of server `n`, no connection other than `but` idles while requests wait. */
  predicate WorksBut(m: State, n: NetLoc, but: int) {
    n in m.servers && m.servers[n].requests != [] ==> forall c <- m.servers[n].conns :: c == but || Busy(m, c)
  }

  predicate Works(m: State, n: NetLoc) { WorksBut(m, n, -1) }

  lemma DispatchWorks(cap: nat, m: State, n: NetLoc, but: int)
    requires Wf(cap, m) && Linked(m) && n in m.servers && m.servers[n].requests != []
    requires |m.servers[n].requests| > 1 ==> forall c <- m.servers[n].conns :: c == but || Busy(m, c)
    ensures Works(Dispatch(cap, m, n), n)
  {
    var m', conns := Dispatch(cap, m, n), m.servers[n].conns;
    var i := FirstIdle(m.lines, conns);
    assert ServerOk(cap, m, n);
    NextIsFresh(cap, m);
    if m'.servers[n].requests != [] {
      if i != -1 {
        assert conns[i] in conns && conns[i] == but;
        forall c <- m'.servers[n].conns ensures Busy(m', c) { assert c == but || Busy(m, c); }
      } else {
        forall c <- m'.servers[n].conns ensures Busy(m', c) {}
      }
    }
  }

  lemma SubmitWorksHere(cap: nat, m: State, r: Request, but: int)
    requires MaySubmit(cap, m, r) && WorksBut(m, r.loc, but)
    ensures Works(Submit(cap, m, r), r.loc)
  {
    EnqueueWf(cap, m, r);
    DispatchWorks(cap, Enqueue(m, r), r.loc, but);
  }

  lemma SubmitWorks(cap: nat, m: State, r: Request, n: NetLoc, but: int)
    requires MaySubmit(cap, m, r) && WorksBut(m, n, but)
    ensures var m' := Submit(cap, m, r); WorksBut(m', n, but) && (n == r.loc ==> Works(m', n))
  {
    if n == r.loc { SubmitWorksHere(cap, m, r, but); } else { SubmitElsewhere(cap, m, r, n); }
  }

  // ---- free slots ----

  function IdleCount(lines: map<nat, Line>, conns: seq<nat>): (k: nat)
    ensures k <= |conns|
    ensures k == 0 <==> forall c <- conns :: !(c in lines && QueueSize(lines[c]) == 0)
  {
    if conns == [] then 0
    else IdleCount(lines, conns[1..]) + if conns[0] in lines && QueueSize(lines[conns[0]]) == 0 then 1 else 0
  }

  /** How many more requests server `n` could start at once: idle connections and ones still allowed. */
  function Slots(cap: nat, m: State, n: NetLoc): int {
    if n in m.servers then IdleCount(m.lines, m.servers[n].conns) + cap - |m.servers[n].conns| else cap
  }

  function WaitingAt(m: State, n: NetLoc): seq<Request> { if n in m.servers then m.servers[n].requests else [] }

  lemma {:induction false} IdleSame(lines: map<nat, Line>, lines': map<nat, Line>, conns: seq<nat>)
    requires forall c <- conns :: c in lines && c in lines' && lines'[c] == lines[c]
    ensures IdleCount(lines', conns) == IdleCount(lines, conns)
  {
    if conns != [] { IdleSame(lines, lines', conns[1..]); }
  }

  lemma {:induction false} IdleTaken(lines: map<nat, Line>, lines': map<nat, Line>, conns: seq<nat>, i: nat)
    requires Distinct(conns) && i < |conns| && forall c <- conns :: c in lines && c in lines'
    requires QueueSize(lines[conns[i]]) == 0 < QueueSize(lines'[conns[i]])
    requires forall c <- conns :: c != conns[i] ==> lines'[c] == lines[c]
    ensures IdleCount(lines', conns) == IdleCount(lines, conns) - 1
  {
    if i == 0 { IdleSame(lines, lines', conns[1..]); } else { IdleTaken(lines, lines', conns[1..], i - 1); }
  }

  lemma {:induction false} IdleNew(lines: map<nat, Line>, lines': map<nat, Line>, conns: seq<nat>, d: nat)
    requires d in lines' && QueueSize(lines'[d]) > 0
    requires forall c <- conns :: c in lines && c in lines' && lines'[c] == lines[c]
    ensures IdleCount(lines', conns + [d]) == IdleCount(lines, conns)
  {
    if conns == [] {
      assert conns + [d] == [d];
    } else {
      assert (conns + [d])[1..] == conns[1..] + [d];
      IdleNew(lines, lines', conns[1..], d);
    }
  }

  /** A submission takes a slot if there is one, and otherwise makes the list longer. */
  lemma SubmitSlots(cap: nat, m: State, r: Request)
    requires MaySubmit(cap, m, r)
    ensures var m' := Submit(cap, m, r); var n := r.loc; var s, w := Slots(cap, m, n), |WaitingAt(m, n)|;
            && s >= 0 && Slots(cap, m', n) == (if s > 0 then s - 1 else 0)
            && |WaitingAt(m', n)| == if s > 0 then w else w + 1
  {
    EnqueueWf(cap, m, r);
    if r.loc in m.servers { assert ServerOk(cap, m, r.loc); }
    DispatchSlots(cap, Enqueue(m, r), r.loc);
  }

  lemma DispatchSlots(cap: nat, m: State, n: NetLoc)
    requires Wf(cap, m) && Linked(m) && n in m.servers && m.servers[n].requests != []
    ensures var m' := Dispatch(cap, m, n); var s, w := Slots(cap, m, n), |m.servers[n].requests|;
            && s >= 0 && Slots(cap, m', n) == (if s > 0 then s - 1 else 0)
            && |WaitingAt(m', n)| == if s > 0 then w - 1 else w
  {
    var m', conns := Dispatch(cap, m, n), m.servers[n].conns;
    var i := FirstIdle(m.lines, conns);
    assert ServerOk(cap, m, n);
    NextIsFresh(cap, m);
    if i != -1 {
      IdleTaken(m.lines, m'.lines, conns, i);
    } else if |conns| < cap {
      IdleNew(m.lines, m'.lines, conns, m.next);
    }
  }

  // ---- the submissions of one callback ----

  function SubmitAll(cap: nat, m: State, rs: seq<Request>): State
    requires Wf(cap, m) && Linked(m) && Fresh(m, rs)
    decreases |rs|
  {
    if rs == [] then m else
      SubmitFresh(cap, m, rs);
      SubmitAll(cap, Submit(cap, m, rs[0]), rs[1..])
  }

  lemma SubmitFresh(cap: nat, m: State, rs: seq<Request>)
    requires Wf(cap, m) && Linked(m) && Fresh(m, rs) && rs != []
    ensures var m' := Submit(cap, m, rs[0]); Wf(cap, m') && Linked(m') && Fresh(m', rs[1..])
  {
    SubmitWf(cap, m, rs[0]);
    SubmitPlaces(cap, m, rs[0]);
    TailDistinct(rs);
  }

  function CountAt(rs: seq<Request>, n: NetLoc): nat {
    if rs == [] then 0 else CountAt(rs[1..], n) + if rs[0].loc == n then 1 else 0
  }

  lemma {:induction false} SubmitAllWf(cap: nat, m: State, rs: seq<Request>)
    requires Wf(cap, m) && Linked(m) && Fresh(m, rs)
    ensures var m' := SubmitAll(cap, m, rs); Wf(cap, m') && Linked(m') && OnlyIdleTaken(m, m')
    decreases |rs|
  {
    if rs != [] {
      SubmitFresh(cap, m, rs);
      SubmitWf(cap, m, rs[0]);
      SubmitAllWf(cap, Submit(cap, m, rs[0]), rs[1..]);
    }
  }

  lemma {:induction false} SubmitAllPlaces(cap: nat, m: State, rs: seq<Request>)
    requires Wf(cap, m) && Linked(m) && Fresh(m, rs)
    ensures var m' := SubmitAll(cap, m, rs);
            && m'.at.Keys == m.at.Keys + (set r | r in rs) && m'.tries == m.tries
            && Advances(m.at, m'.at)
            && (forall r <- rs :: r in m'.at && (m'.at[r] == Waiting || m'.at[r].Active?))
    decreases |rs|
  {
    if rs != [] {
      var u := Submit(cap, m, rs[0]);
      SubmitFresh(cap, m, rs);
      SubmitPlaces(cap, m, rs[0]);
      SubmitAllPlaces(cap, u, rs[1..]);
      TailDistinct(rs);
      AdvancesOn(m.at, u.at, SubmitAll(cap, u, rs[1..]).at, rs[0]);
    }
  }

  lemma AdvancesOn(a: map<Request, Place>, b: map<Request, Place>, c: map<Request, Place>, r: Request)
    requires r !in a && Advances(a - {r}, b) && Advances(b, c)
    ensures Advances(a, c)
  {
    forall q <- a ensures q in c && (c[q] == a[q] || (a[q] == Waiting && c[q].Active?)) {
      assert q in a - {r};
    }
  }

  lemma {:induction false} SubmitAllWorks(cap: nat, m: State, rs: seq<Request>, n: NetLoc, but: int)
    requires Wf(cap, m) && Linked(m) && Fresh(m, rs) && WorksBut(m, n, but)
    ensures var m' := SubmitAll(cap, m, rs); WorksBut(m', n, but) && (CountAt(rs, n) > 0 ==> Works(m', n))
    decreases |rs|
  {
    if rs != [] {
      SubmitFresh(cap, m, rs);
      SubmitWorks(cap, m, rs[0], n, but);
      SubmitAllWorks(cap, Submit(cap, m, rs[0]), rs[1..], n, if rs[0].loc == n then -1 else but);
    }
  }

  function Min(a: int, b: int): int { if a <= b then a else b }

  lemma SubmitSlotsAt(cap: nat, m: State, r: Request, n: NetLoc)
    requires MaySubmit(cap, m, r)
    ensures var m' := Submit(cap, m, r);
            var s, w, k := Slots(cap, m, n), |WaitingAt(m, n)|, if r.loc == n then 1 else 0;
            s >= 0 && Slots(cap, m', n) == s - Min(k, s) && |WaitingAt(m', n)| == w + k - Min(k, s)
  {
    if r.loc == n {
      SubmitSlots(cap, m, r);
    } else {
      SubmitElsewhere(cap, m, r, n);
      if n in m.servers {
        assert ServerOk(cap, m, n);
        IdleSame(m.lines, Submit(cap, m, r).lines, m.servers[n].conns);
      }
    }
  }

  lemma {:induction false} SubmitAllSlots(cap: nat, m: State, rs: seq<Request>, n: NetLoc)
    requires Wf(cap, m) && Linked(m) && Fresh(m, rs)
    ensures var m' := SubmitAll(cap, m, rs); var s, k := Slots(cap, m, n), CountAt(rs, n);
            s >= 0 && Slots(cap, m', n) == s - Min(k, s) && |WaitingAt(m', n)| == |WaitingAt(m, n)| + k - Min(k, s)
    decreases |rs|
  {
    if rs == [] {
      if n in m.servers { assert ServerOk(cap, m, n); }
    } else {
      SubmitFresh(cap, m, rs);
      SubmitSlotsAt(cap, m, rs[0], n);
      SubmitAllSlots(cap, Submit(cap, m, rs[0]), rs[1..], n);
    }
  }

  // ---- the operations ----

  lemma FinishFresh(cap: nat, m: State, c: nat, again: seq<Request>)
    requires Wf(cap, m) && Linked(m) && c in m.lines && m.lines[c].active != [] && Fresh(m, again)
    ensures Wf(cap, Finish(m, c)) && Linked(Finish(m, c)) && Fresh(Finish(m, c), again)
    ensures QueueSize(Finish(m, c).lines[c]) <= 1 && Finish(m, c).lines[c].active == []
  {
    FinishWf(cap, m, c);
    WfLinked(cap, Finish(m, c));
    assert LineOk(m, c);
  }

  /** The manager when the body-done callback, having submitted `again`, returns. */
  function AfterCallback(cap: nat, m: State, c: nat, again: seq<Request>): (u: State)
    requires Wf(cap, m) && Linked(m) && c in m.lines && m.lines[c].active != [] && Fresh(m, again)
    ensures c in u.lines
  {
    FinishFresh(cap, m, c, again);
    SubmitAllWf(cap, Finish(m, c), again);
    SubmitAll(cap, Finish(m, c), again)
  }

  /** Then cnx_request_done_cb and http_write_to_outbuf run. */
  function Concluded(u: State, c: nat): State
    requires c in u.lines
  {
    Resume(RequestDone(u, c), c)
  }

  function BodyDone(cap: nat, m: State, c: nat, again: seq<Request>): State
    requires Wf(cap, m) && Linked(m) && c in m.lines && m.lines[c].active != [] && Fresh(m, again)
  {
    Concluded(AfterCallback(cap, m, c, again), c)
  }

  /** handle_unusable_conn; with a request pending its assertion fails, and there is no next state. */
  function Lost(max: nat, cap: nat, m: State, c: nat): State
    requires Wf(cap, m) && c in m.lines && m.lines[c].submitted == []
  {
    ReleaseWf(cap, m, c);
    WfLinked(cap, Release(m, c));
    RetryAll(max, cap, Release(m, c), m.lines[c].active)
  }

  /** The request active on `c` has used up its retries. */
  predicate Fails(max: nat, m: State, c: nat)
    requires c in m.lines
  {
    m.lines[c].active != [] && Tries(m, m.lines[c].active[0]) == max
  }

  lemma LostFresh(max: nat, cap: nat, m: State, c: nat, again: seq<Request>)
    requires Quiet(cap, m) && c in m.lines && m.lines[c].submitted == [] && Fresh(m, again) && Fails(max, m, c)
    ensures var u := Lost(max, cap, m, c); Wf(cap, u) && Linked(u) && Fresh(u, again)
  {
    LostQuiet(max, cap, m, c);
    LostOne(max, cap, m, c);
    assert LineOk(m, c);
  }

  /** The same, when the callback of a request that fails for good submits `again`. */
  function LostThen(max: nat, cap: nat, m: State, c: nat, again: seq<Request>): State
    requires Quiet(cap, m) && c in m.lines && m.lines[c].submitted == [] && Fresh(m, again)
  {
    if Fails(max, m, c) then
      LostFresh(max, cap, m, c, again);
      SubmitAll(cap, Lost(max, cap, m, c), again)
    else Lost(max, cap, m, c)
  }

  /** One turn of retry_requests, with that callback. */
  function RetryOneThen(max: nat, cap: nat, u: State, r: Request, again: seq<Request>): State
    requires Wf(cap, u) && Linked(u) && r in u.at && u.at[r] == Retrying && Fresh(u, again)
  {
    if Tries(u, r) == max then
      GiveUpWf(cap, u, r);
      WfLinked(cap, GiveUp(u, r));
      SubmitAll(cap, GiveUp(u, r), again)
    else RetryOne(max, cap, u, r)
  }

  lemma LostOneThen(max: nat, cap: nat, m: State, c: nat, again: seq<Request>)
    requires Quiet(cap, m) && c in m.lines && m.lines[c].submitted == [] && Fresh(m, again)
    ensures var u, q := Release(m, c), m.lines[c].active;
            && Wf(cap, u) && Linked(u) && Fresh(u, again)
            && (q == [] ==> LostThen(max, cap, m, c, again) == u)
            && (q != [] ==> q == [q[0]] && q[0] in u.at && u.at[q[0]] == Retrying)
            && (q != [] ==> LostThen(max, cap, m, c, again) == RetryOneThen(max, cap, u, q[0], again))
  {
    assert LineOk(m, c);
    ReleaseQuiet(cap, m, c);
    LostOne(max, cap, m, c);
  }

  /** Between two calls from the event loop. */
  predicate Quiet(cap: nat, m: State) {
    && cap > 0 && Wf(cap, m) && Linked(m)
    && (forall c <- m.lines :: m.lines[c].submitted != [] ==> m.lines[c].active != [])
    && (forall r <- m.at :: m.at[r] != Retrying)
    && (forall n <- m.servers :: m.servers[n].conns != [])
    && (forall n <- m.servers :: Works(m, n))
  }

  datatype Op = UserSubmit(r: Request) | Done(c: nat, again: seq<Request>) | Lose(c: nat, again: seq<Request>) | Clear

  predicate Can(m: State, op: Op) {
    match op
    case UserSubmit(r) => r !in m.at
    case Done(c, again) => c in m.lines && m.lines[c].active != [] && Fresh(m, again)
    case Lose(c, again) => c in m.lines && m.lines[c].submitted == [] && Fresh(m, again)
    case Clear => true
  }

  function Do(max: nat, cap: nat, m: State, op: Op): State
    requires Quiet(cap, m) && Can(m, op)
  {
    match op
    case UserSubmit(r) => Submit(cap, m, r)
    case Done(c, again) => BodyDone(cap, m, c, again)
    case Lose(c, again) => LostThen(max, cap, m, c, again)
    case Clear => Reset(m)
  }

  // ---- each operation leaves the manager quiet ----

  lemma ConnsStay(cap: nat, m: State, r: Request)
    requires MaySubmit(cap, m, r) && cap > 0 && forall n <- m.servers :: m.servers[n].conns != [] || n == r.loc
    ensures forall n <- Submit(cap, m, r).servers :: Submit(cap, m, r).servers[n].conns != []
  {
  }

  lemma SubmitQuiet(cap: nat, m: State, r: Request)
    requires MaySubmit(cap, m, r) && cap > 0
    requires forall c <- m.lines :: m.lines[c].submitted != [] ==> m.lines[c].active != []
    requires forall q <- m.at :: m.at[q] == Retrying ==> q == r
    requires forall n <- m.servers :: m.servers[n].conns != [] && Works(m, n)
    ensures Quiet(cap, Submit(cap, m, r))
  {
    SubmitWf(cap, m, r);
    ConnsStay(cap, m, r);
    SubmitSettles(cap, m, r);
    SubmitWorksAll(cap, m, r);
  }

  lemma SubmitWorksAll(cap: nat, m: State, r: Request)
    requires MaySubmit(cap, m, r) && (forall n <- m.servers :: Works(m, n))
    ensures forall n <- Submit(cap, m, r).servers :: Works(Submit(cap, m, r), n)
  {
    var m' := Submit(cap, m, r);
    forall n <- m'.servers ensures Works(m', n) { SubmitWorks(cap, m, r, n, -1); }
  }

  lemma SubmitSettles(cap: nat, m: State, r: Request)
    requires MaySubmit(cap, m, r) && (forall q <- m.at :: m.at[q] == Retrying ==> q == r)
    ensures forall q <- Submit(cap, m, r).at :: Submit(cap, m, r).at[q] != Retrying
  {
    var m' := Submit(cap, m, r);
    SubmitPlaces(cap, m, r);
    forall q <- m'.at ensures m'.at[q] != Retrying {
      if q != r { assert q in m.at - {r}; }
    }
  }

  lemma {:induction false} SubmitAllConns(cap: nat, m: State, rs: seq<Request>)
    requires Wf(cap, m) && Linked(m) && Fresh(m, rs) && cap > 0 && forall n <- m.servers :: m.servers[n].conns != []
    ensures forall n <- SubmitAll(cap, m, rs).servers :: SubmitAll(cap, m, rs).servers[n].conns != []
    decreases |rs|
  {
    if rs != [] {
      SubmitFresh(cap, m, rs);
      ConnsStay(cap, m, rs[0]);
      SubmitAllConns(cap, Submit(cap, m, rs[0]), rs[1..]);
    }
  }

  predicate MayFinish(cap: nat, m: State, c: nat, again: seq<Request>) {
    Quiet(cap, m) && c in m.lines && m.lines[c].active != [] && Fresh(m, again)
  }

  lemma FinishWorks(cap: nat, m: State, c: nat, n: NetLoc)
    requires Quiet(cap, m) && c in m.lines && m.lines[c].active != []
    ensures WorksBut(Finish(m, c), n, c) && (n != m.lines[c].loc ==> Works(Finish(m, c), n))
  {
    if n in m.servers {
      assert Works(m, n) && ServerOk(cap, m, n);
    }
  }

  /** By then `c` is idle, or has at most what was pending or what the callback gave it. */
  lemma CallbackFacts(cap: nat, m: State, c: nat, again: seq<Request>)
    requires MayFinish(cap, m, c, again)
    ensures var u := AfterCallback(cap, m, c, again);
            && Wf(cap, u) && Linked(u) && c in u.lines && u.lines[c].loc == m.lines[c].loc && QueueSize(u.lines[c]) <= 1
            && (forall d <- u.lines :: d != c && u.lines[d].submitted != [] ==> u.lines[d].active != [])
            && (forall q <- u.at :: u.at[q] != Retrying) && (forall n <- u.servers :: u.servers[n].conns != [])
  {
    var f := Finish(m, c);
    FinishFresh(cap, m, c, again);
    SubmitAllWf(cap, f, again);
    SubmitAllPlaces(cap, f, again);
    SubmitAllConns(cap, f, again);
    var u := AfterCallback(cap, m, c, again);
    forall q <- u.at ensures u.at[q] != Retrying {
      if q !in f.at { assert q in again; }
    }
  }

  lemma CallbackWorks(cap: nat, m: State, c: nat, again: seq<Request>, n: NetLoc)
    requires MayFinish(cap, m, c, again)
    ensures var u := AfterCallback(cap, m, c, again); WorksBut(u, n, c) && (n != m.lines[c].loc ==> Works(u, n))
  {
    FinishFresh(cap, m, c, again);
    FinishWorks(cap, m, c, n);
    SubmitAllWorks(cap, Finish(m, c), again, n, c);
    if n != m.lines[c].loc { SubmitAllWorks(cap, Finish(m, c), again, n, -1); }
  }

  /** cnx_request_done_cb and http_write_to_outbuf on a manager in that state. */
  predicate MayConclude(cap: nat, u: State, c: nat) {
    && cap > 0 && Wf(cap, u) && Linked(u) && c in u.lines && QueueSize(u.lines[c]) <= 1
    && (forall d <- u.lines :: d != c && u.lines[d].submitted != [] ==> u.lines[d].active != [])
    && (forall q <- u.at :: u.at[q] != Retrying) && (forall n <- u.servers :: u.servers[n].conns != [])
    && (forall n <- u.servers :: WorksBut(u, n, c) && (n != u.lines[c].loc ==> Works(u, n)))
  }

  lemma ConcludeWf(cap: nat, u: State, c: nat)
    requires MayConclude(cap, u, c)
    ensures Wf(cap, Concluded(u, c)) && Linked(Concluded(u, c))
  {
    var n := u.lines[c].loc;
    if n in u.servers && u.servers[n].requests != [] { HandWf(cap, u, n, c); }
    ResumeWf(cap, RequestDone(u, c), c);
    WfLinked(cap, Concluded(u, c));
  }

  lemma ConcludeWorks(cap: nat, u: State, c: nat, n: NetLoc)
    requires MayConclude(cap, u, c) && n in u.servers
    ensures Works(Concluded(u, c), n) && Concluded(u, c).servers[n].conns == u.servers[n].conns
  {
    var w := Concluded(u, c);
    assert WorksBut(u, n, c) && ServerOk(cap, u, n) && LineOk(u, c);
    if w.servers[n].requests != [] {
      assert u.servers[n].requests != [];
      forall d <- w.servers[n].conns ensures Busy(w, d) {
        if d != c { assert Busy(u, d); }
      }
    }
  }

  lemma ConcludeQuiet(cap: nat, u: State, c: nat)
    requires MayConclude(cap, u, c)
    ensures Quiet(cap, Concluded(u, c))
  {
    var w := Concluded(u, c);
    ConcludeWf(cap, u, c);
    ConcludeFlows(cap, u, c);
    ConcludePlaces(cap, u, c);
    forall n <- w.servers ensures Works(w, n) && w.servers[n].conns != [] { ConcludeWorks(cap, u, c, n); }
  }

  lemma ConcludeFlows(cap: nat, u: State, c: nat)
    requires MayConclude(cap, u, c)
    ensures var w := Concluded(u, c); forall d <- w.lines :: w.lines[d].submitted != [] ==> w.lines[d].active != []
  {
    assert LineOk(u, c);
  }

  lemma ConcludePlaces(cap: nat, u: State, c: nat)
    requires MayConclude(cap, u, c)
    ensures var w := Concluded(u, c); forall q <- w.at :: w.at[q] != Retrying
  {
    assert LineOk(u, c);
  }

  lemma BodyDoneQuiet(cap: nat, m: State, c: nat, again: seq<Request>)
    requires MayFinish(cap, m, c, again)
    ensures Quiet(cap, BodyDone(cap, m, c, again))
  {
    var u := AfterCallback(cap, m, c, again);
    CallbackFacts(cap, m, c, again);
    forall n <- u.servers ensures WorksBut(u, n, c) && (n != u.lines[c].loc ==> Works(u, n)) {
      CallbackWorks(cap, m, c, again, n);
    }
    ConcludeQuiet(cap, u, c);
  }

  // ---- losing a connection ----

  lemma RestWorks(cap: nat, m: State, c: nat, n: NetLoc)
    requires Quiet(cap, m) && c in m.lines && m.lines[c].submitted == [] && n in Release(m, c).servers
    ensures Works(Release(m, c), n)
  {
    assert LineOk(m, c);
    assert n in m.servers && Works(m, n) && ServerOk(cap, m, n);
    WithoutDistinct(m.servers[n].conns, c);
  }

  lemma ReleaseQuiet(cap: nat, m: State, c: nat)
    requires Quiet(cap, m) && c in m.lines && m.lines[c].submitted == []
    ensures var u := Release(m, c);
            && Wf(cap, u) && Linked(u)
            && (forall d <- u.lines :: u.lines[d].submitted != [] ==> u.lines[d].active != [])
            && (forall q <- u.at :: u.at[q] == Retrying ==> m.lines[c].active == [q])
            && (forall n <- u.servers :: u.servers[n].conns != [] && Works(u, n))
            && (m.lines[c].active != [] ==> m.lines[c].active[0] in u.at && u.at[m.lines[c].active[0]] == Retrying)
  {
    var u := Release(m, c);
    assert LineOk(m, c);
    ReleaseWf(cap, m, c);
    WfLinked(cap, u);
    forall n <- u.servers ensures Works(u, n) { RestWorks(cap, m, c, n); }
  }

  lemma RetryQuiet(max: nat, cap: nat, u: State, r: Request)
    requires cap > 0 && Wf(cap, u) && Linked(u)
    requires (forall d <- u.lines :: u.lines[d].submitted != [] ==> u.lines[d].active != [])
    requires r in u.at && u.at[r] == Retrying && (forall q <- u.at :: u.at[q] == Retrying ==> q == r)
    requires forall n <- u.servers :: u.servers[n].conns != [] && Works(u, n)
    ensures Quiet(cap, RetryOne(max, cap, u, r))
  {
    if Tries(u, r) == max { FailedQuiet(cap, u, r); } else { AgainQuiet(cap, u, r); }
  }

  lemma FailedQuiet(cap: nat, u: State, r: Request)
    requires cap > 0 && Wf(cap, u) && Linked(u)
    requires (forall d <- u.lines :: u.lines[d].submitted != [] ==> u.lines[d].active != [])
    requires r in u.at && u.at[r] == Retrying && (forall q <- u.at :: u.at[q] == Retrying ==> q == r)
    requires forall n <- u.servers :: u.servers[n].conns != [] && Works(u, n)
    ensures Quiet(cap, GiveUp(u, r))
  {
    GiveUpWf(cap, u, r);
    WfLinked(cap, GiveUp(u, r));
  }

  lemma AgainQuiet(cap: nat, u: State, r: Request)
    requires cap > 0 && Wf(cap, u) && Linked(u)
    requires (forall d <- u.lines :: u.lines[d].submitted != [] ==> u.lines[d].active != [])
    requires r in u.at && u.at[r] == Retrying && (forall q <- u.at :: u.at[q] == Retrying ==> q == r)
    requires forall n <- u.servers :: u.servers[n].conns != [] && Works(u, n)
    ensures Quiet(cap, Submit(cap, CountTry(u, r), r))
  {
    CountTryWf(cap, u, r);
    SubmitQuiet(cap, CountTry(u, r), r);
  }

  /** A connection has at most one request to retry. */
  lemma LostOne(max: nat, cap: nat, m: State, c: nat)
    requires Quiet(cap, m) && c in m.lines && m.lines[c].submitted == []
    ensures Linked(Release(m, c))
    ensures m.lines[c].active == [] ==> Lost(max, cap, m, c) == Release(m, c)
    ensures m.lines[c].active != [] ==> Lost(max, cap, m, c) == RetryOne(max, cap, Release(m, c), m.lines[c].active[0])
  {
    assert LineOk(m, c);
    ReleaseWf(cap, m, c);
    WfLinked(cap, Release(m, c));
    if m.lines[c].active != [] {
      var u, q := Release(m, c), m.lines[c].active;
      RetryLinked(max, cap, u, q[0]);
      assert q[1..] == [];
      assert RetryAll(max, cap, RetryOne(max, cap, u, q[0]), []) == RetryOne(max, cap, u, q[0]);
    }
  }

  lemma LostQuiet(max: nat, cap: nat, m: State, c: nat)
    requires Quiet(cap, m) && c in m.lines && m.lines[c].submitted == []
    ensures Quiet(cap, Lost(max, cap, m, c))
  {
    ReleaseQuiet(cap, m, c);
    LostOne(max, cap, m, c);
    if m.lines[c].active != [] { RetryQuiet(max, cap, Release(m, c), m.lines[c].active[0]); }
  }

  lemma {:induction false} SubmitAllQuiet(cap: nat, m: State, rs: seq<Request>)
    requires Quiet(cap, m) && Fresh(m, rs)
    ensures Quiet(cap, SubmitAll(cap, m, rs))
    decreases |rs|
  {
    if rs != [] {
      SubmitFresh(cap, m, rs);
      SubmitQuiet(cap, m, rs[0]);
      SubmitAllQuiet(cap, Submit(cap, m, rs[0]), rs[1..]);
    }
  }

  lemma LostThenQuiet(max: nat, cap: nat, m: State, c: nat, again: seq<Request>)
    requires Quiet(cap, m) && c in m.lines && m.lines[c].submitted == [] && Fresh(m, again)
    ensures Quiet(cap, LostThen(max, cap, m, c, again))
  {
    LostQuiet(max, cap, m, c);
    if Fails(max, m, c) {
      LostFresh(max, cap, m, c, again);
      SubmitAllQuiet(cap, Lost(max, cap, m, c), again);
    }
  }

  lemma CountTryWf(cap: nat, m: State, r: Request)
    requires Wf(cap, m)
    ensures Wf(cap, CountTry(m, r))
    ensures forall n <- m.servers :: Works(CountTry(m, r), n) == Works(m, n)
  {
    var m' := CountTry(m, r);
    forall n <- m'.servers ensures ServerOk(cap, m', n) { assert ServerOk(cap, m, n); }
    forall d <- m'.lines ensures LineOk(m', d) { assert LineOk(m, d); }
    forall q <- m'.at ensures PlaceOk(m', q) { assert PlaceOk(m, q); }
  }

  /** Requests that are still to be retried stay so. */
  lemma OthersRetry(cap: nat, m: State, r: Request)
    requires Wf(cap, m) && Linked(m) && r in m.at && m.at[r] == Retrying
    ensures var m' := Submit(cap, CountTry(m, r), r);
            forall q <- m.at :: q != r && m.at[q] == Retrying ==> q in m'.at && m'.at[q] == Retrying
  {
    CountTryWf(cap, m, r);
    SubmitPlaces(cap, CountTry(m, r), r);
    assert forall q <- m.at :: q != r ==> q in m.at - {r};
  }

  /** Giving up on a request that is in no queue. */
  lemma GiveUpWf(cap: nat, m: State, r: Request)
    requires Wf(cap, m) && r in m.at && m.at[r] == Retrying
    ensures Wf(cap, GiveUp(m, r))
    ensures forall n <- m.servers :: Works(GiveUp(m, r), n) == Works(m, n)
  {
    var m' := GiveUp(m, r);
    forall n <- m'.servers ensures ServerOk(cap, m', n) { assert ServerOk(cap, m, n); }
    forall d <- m'.lines ensures LineOk(m', d) { assert LineOk(m, d); }
    forall q <- m'.at ensures PlaceOk(m', q) { assert PlaceOk(m, q); }
  }

  // ---- whole runs ----

  /** One operation of a run; what is not possible when its turn comes does not happen. */
  function Next(max: nat, cap: nat, m: State, op: Op): (m': State)
    requires Quiet(cap, m)
    ensures Quiet(cap, m')
  {
    if Can(m, op) then
      DoQuiet(max, cap, m, op);
      Do(max, cap, m, op)
    else m
  }

  function Run(max: nat, cap: nat, m: State, ops: seq<Op>): State
    requires Quiet(cap, m)
    decreases |ops|
  {
    if ops == [] then m else Run(max, cap, Next(max, cap, m, ops[0]), ops[1..])
  }

  lemma DoQuiet(max: nat, cap: nat, m: State, op: Op)
    requires Quiet(cap, m) && Can(m, op)
    ensures Quiet(cap, Do(max, cap, m, op))
  {
    match op
    case UserSubmit(r) => SubmitQuiet(cap, m, r);
    case Done(c, again) => BodyDoneQuiet(cap, m, c, again);
    case Lose(c, again) => LostThenQuiet(max, cap, m, c, again);
    case Clear =>
  }

  lemma EmptyQuiet(cap: nat)
    requires cap > 0
    ensures Quiet(cap, EMPTY)
  {
  }

  /** After every run: every queue agrees with the record and the record with every queue, so each
      request is in exactly one place; no server has more connections than allowed, no connection more
      than one active and one pending request; each list is served in the order it was joined; and no
      connection to a server idles while requests for it wait. */
  lemma {:induction false} RunQuiet(max: nat, cap: nat, m: State, ops: seq<Op>)
    requires Quiet(cap, m)
    ensures Quiet(cap, Run(max, cap, m, ops))
    decreases |ops|
  {
    if ops != [] { RunQuiet(max, cap, Next(max, cap, m, ops[0]), ops[1..]); }
  }

  // ---- pending requests, and the assertion about them ----

  /** cnx_request_done_cb leaves a request pending on a connection that still holds one. */
  lemma ConcludedPending(cap: nat, u: State, c: nat)
    requires Wf(cap, u) && c in u.lines && QueueSize(u.lines[c]) <= 1
    ensures Concluded(u, c).lines[c].submitted != [] <==>
            WaitingAt(u, u.lines[c].loc) != [] && QueueSize(u.lines[c]) == 1
  {
    assert LineOk(u, c);
  }

  /** A line of server `n` is not touched when nothing is submitted to `n`. */
  lemma {:induction false} SubmitAllElsewhere(cap: nat, m: State, rs: seq<Request>, n: NetLoc, c: nat)
    requires Wf(cap, m) && Linked(m) && Fresh(m, rs) && CountAt(rs, n) == 0
    requires n in m.servers && c in m.servers[n].conns
    ensures c in m.lines && c in SubmitAll(cap, m, rs).lines && SubmitAll(cap, m, rs).lines[c] == m.lines[c]
    decreases |rs|
  {
    if rs != [] {
      SubmitFresh(cap, m, rs);
      SubmitElsewhere(cap, m, rs[0], n);
      SubmitAllElsewhere(cap, Submit(cap, m, rs[0]), rs[1..], n, c);
    }
  }

  /** When the callback returns, the connection still holds a request that was pending there, or has been
      given one if any was submitted to its server and some wait now. */
  lemma CallbackHolds(cap: nat, m: State, c: nat, again: seq<Request>)
    requires MayFinish(cap, m, c, again)
    ensures var u, n := AfterCallback(cap, m, c, again), m.lines[c].loc; var k := CountAt(again, n);
            && Wf(cap, u) && c in u.lines && u.lines[c].loc == n && QueueSize(u.lines[c]) <= 1
            && (m.lines[c].submitted != [] ==> QueueSize(u.lines[c]) == 1)
            && (m.lines[c].submitted == [] && k == 0 ==> QueueSize(u.lines[c]) == 0)
            && (k > 0 && WaitingAt(u, n) != [] ==> QueueSize(u.lines[c]) == 1)
  {
    var f, u, n := Finish(m, c), AfterCallback(cap, m, c, again), m.lines[c].loc;
    FinishFresh(cap, m, c, again);
    CallbackFacts(cap, m, c, again);
    SubmitAllWf(cap, f, again);
    FinishWorks(cap, m, c, n);
    SubmitAllWorks(cap, f, again, n, c);
    assert LineOk(m, c) && LineOk(f, c) && LineOk(u, c);
    if CountAt(again, n) == 0 { SubmitAllElsewhere(cap, f, again, n, c); }
    else if WaitingAt(u, n) != [] { assert Busy(u, c); }
  }

  /** Requests wait at the server, or the callback submits more to it than it has free slots. */
  predicate Crowded(cap: nat, m: State, c: nat, again: seq<Request>)
    requires c in m.lines && m.lines[c].active != []
  {
    var n := m.lines[c].loc;
    WaitingAt(m, n) != [] || CountAt(again, n) > Slots(cap, Finish(m, c), n)
  }

  /** A finished connection is left with a request pending exactly when it held one already or its
      body-done callback submitted to the same server, and either requests were already waiting there or
      the callback submitted more than the server had free slots. */
  lemma PendingIff(cap: nat, m: State, c: nat, again: seq<Request>)
    requires MayFinish(cap, m, c, again)
    ensures c in BodyDone(cap, m, c, again).lines
    ensures BodyDone(cap, m, c, again).lines[c].submitted != [] <==>
            (CountAt(again, m.lines[c].loc) > 0 || m.lines[c].submitted != []) && Crowded(cap, m, c, again)
  {
    var u, n := AfterCallback(cap, m, c, again), m.lines[c].loc;
    FinishFresh(cap, m, c, again);
    CallbackHolds(cap, m, c, again);
    SubmitAllSlots(cap, Finish(m, c), again, n);
    ConcludedPending(cap, u, c);
  }

  predicate NoPending(m: State) { forall c <- m.lines :: m.lines[c].submitted == [] }

  lemma SubmitNoPending(cap: nat, m: State, r: Request)
    requires MaySubmit(cap, m, r) && NoPending(m)
    ensures NoPending(Submit(cap, m, r))
  {
    SubmitWf(cap, m, r);
  }

  lemma SubmitAllNoPending(cap: nat, m: State, rs: seq<Request>)
    requires Wf(cap, m) && Linked(m) && Fresh(m, rs) && NoPending(m)
    ensures NoPending(SubmitAll(cap, m, rs))
  {
    SubmitAllWf(cap, m, rs);
  }

  lemma LoseNoPending(max: nat, cap: nat, m: State, c: nat)
    requires Quiet(cap, m) && c in m.lines && NoPending(m)
    ensures NoPending(Lost(max, cap, m, c))
  {
    var u := Release(m, c);
    ReleaseQuiet(cap, m, c);
    LostOne(max, cap, m, c);
    if m.lines[c].active != [] {
      var r := m.lines[c].active[0];
      CountTryWf(cap, u, r);
      SubmitNoPending(cap, CountTry(u, r), r);
    }
  }

  /** The callback of a finished response is no cause of a pending request. */
  predicate Mild(cap: nat, m: State, op: Op) {
    op.Done? && op.c in m.lines && m.lines[op.c].active != [] ==>
      CountAt(op.again, m.lines[op.c].loc) == 0 || !Crowded(cap, m, op.c, op.again)
  }

  lemma DoneNoPending(cap: nat, m: State, c: nat, again: seq<Request>)
    requires MayFinish(cap, m, c, again) && NoPending(m)
    ensures NoPending(BodyDone(cap, m, c, again)) <==> Mild(cap, m, Done(c, again))
  {
    var f, u, w := Finish(m, c), AfterCallback(cap, m, c, again), BodyDone(cap, m, c, again);
    FinishFresh(cap, m, c, again);
    SubmitAllNoPending(cap, f, again);
    PendingIff(cap, m, c, again);
    assert forall d <- w.lines :: d != c ==> d in u.lines && w.lines[d] == u.lines[d];
  }

  lemma DoNoPending(max: nat, cap: nat, m: State, op: Op)
    requires Quiet(cap, m) && Can(m, op) && NoPending(m)
    ensures NoPending(Do(max, cap, m, op)) <==> Mild(cap, m, op)
  {
    match op
    case UserSubmit(r) => SubmitNoPending(cap, m, r);
    case Done(c, again) => DoneNoPending(cap, m, c, again);
    case Lose(c, again) =>
      LoseNoPending(max, cap, m, c);
      if Fails(max, m, c) {
        LostFresh(max, cap, m, c, again);
        SubmitAllNoPending(cap, Lost(max, cap, m, c), again);
      }
    case Clear =>
  }

  /** In no state of the run is a request pending, so that the assertion in handle_unusable_conn holds
      whichever connection is lost. */
  ghost predicate NeverPending(max: nat, cap: nat, m: State, ops: seq<Op>)
    requires Quiet(cap, m)
    decreases |ops|
  {
    NoPending(m) && (ops != [] ==> NeverPending(max, cap, Next(max, cap, m, ops[0]), ops[1..]))
  }

  ghost predicate AlwaysMild(max: nat, cap: nat, m: State, ops: seq<Op>)
    requires Quiet(cap, m)
    decreases |ops|
  {
    ops != [] ==> (Can(m, ops[0]) ==> Mild(cap, m, ops[0])) && AlwaysMild(max, cap, Next(max, cap, m, ops[0]), ops[1..])
  }

  /** Over every run from a state with nothing pending: nothing ever is if and only if each callback of a
      finished response finds nothing waiting at its own server and submits no more there than it has free
      slots, or submits nothing there. */
  lemma {:induction false} RunPendingIff(max: nat, cap: nat, m: State, ops: seq<Op>)
    requires Quiet(cap, m) && NoPending(m)
    ensures NeverPending(max, cap, m, ops) <==> AlwaysMild(max, cap, m, ops)
    decreases |ops|
  {
    if ops != [] {
      var m' := Next(max, cap, m, ops[0]);
      if Can(m, ops[0]) { DoNoPending(max, cap, m, ops[0]); }
      if NoPending(m') { RunPendingIff(max, cap, m', ops[1..]); }
    }
  }

  lemma {:induction false} QuietIsMild(max: nat, cap: nat, m: State, ops: seq<Op>)
    requires Quiet(cap, m) && forall op <- ops :: op.Done? ==> op.again == []
    ensures AlwaysMild(max, cap, m, ops)
    decreases |ops|
  {
    if ops != [] { QuietIsMild(max, cap, Next(max, cap, m, ops[0]), ops[1..]); }
  }

  /** Without re-entry nothing is ever pending. */
  lemma NoReentryNoPending(max: nat, cap: nat, m: State, ops: seq<Op>)
    requires Quiet(cap, m) && NoPending(m) && forall op <- ops :: op.Done? ==> op.again == []
    ensures NeverPending(max, cap, m, ops)
  {
    QuietIsMild(max, cap, m, ops);
    RunPendingIff(max, cap, m, ops);
  }

  /** Conservation: the queues and lists hold every request exactly where the record has it, and so no
      request is in two places and none is missing. */
  lemma OnePlace(cap: nat, m: State, r: Request)
    requires Quiet(cap, m) && r in m.at
    ensures forall n <- m.servers :: r in m.servers[n].requests <==> m.at[r] == Waiting && n == r.loc
    ensures forall c <- m.lines :: r in m.lines[c].submitted <==> m.at[r] == Pending(c)
    ensures forall c <- m.lines :: r in m.lines[c].active <==> m.at[r] == Active(c)
    ensures m.at[r].Waiting? || (m.at[r].Pending? && m.at[r].c in m.lines)
            || (m.at[r].Active? && m.at[r].c in m.lines)
            || m.at[r] in {Finished, Failed, Dropped}
  {
    assert PlaceOk(m, r);
    forall n <- m.servers
      ensures r in m.servers[n].requests <==> m.at[r] == Waiting && n == r.loc
    {
      assert ServerOk(cap, m, n);
    }
    forall c <- m.lines
      ensures (r in m.lines[c].submitted <==> m.at[r] == Pending(c))
      ensures (r in m.lines[c].active <==> m.at[r] == Active(c))
    {
      assert LineOk(m, c);
    }
  }
}
