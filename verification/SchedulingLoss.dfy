/** Which requests a lost connection costs, and when none is lost at all. */
module SchedulingLoss {
  import opened Scheduling
  import opened SchedulingRuns

  /** `c` is the only connection to server `n`. */
  predicate LastAt(m: State, n: NetLoc, c: nat) { n in m.servers && m.servers[n].conns == [c] }

  lemma WithoutAll(conns: seq<nat>, c: nat)
    requires c in conns && Distinct(conns)
    ensures Without(conns, c) == [] <==> conns == [c]
  {
    assert conns == [conns[0]] + conns[1..];
  }

  predicate CanLose(cap: nat, m: State, c: nat) { Quiet(cap, m) && c in m.lines && m.lines[c].submitted == [] }

  lemma LostDrops(max: nat, cap: nat, m: State, c: nat, q: Request)
    requires CanLose(cap, m, c) && q in m.at && m.at[q] != Dropped
    ensures var m' := Lost(max, cap, m, c);
            q in m'.at && (m'.at[q] == Dropped <==>
              m.at[q] == Waiting && q.loc == m.lines[c].loc && LastAt(m, q.loc, c))
  {
    ReleaseDrops(cap, m, c, q);
    ReleaseQuiet(cap, m, c);
    LostOne(max, cap, m, c);
    if m.lines[c].active != [] { RetryKeeps(max, cap, Release(m, c), m.lines[c].active[0], q); }
  }

  lemma ReleaseDrops(cap: nat, m: State, c: nat, q: Request)
    requires CanLose(cap, m, c) && q in m.at && m.at[q] != Dropped
    ensures var u := Release(m, c);
            && u.at.Keys == m.at.Keys && u.tries == m.tries
            && (u.at[q] == Dropped <==> m.at[q] == Waiting && q.loc == m.lines[c].loc && LastAt(m, q.loc, c))
            && (u.at[q] == Retrying <==> m.lines[c].active == [q])
            && (u.at[q] == Failed <==> m.at[q] == Failed)
  {
    assert LineOk(m, c) && PlaceOk(m, q) && ServerOk(cap, m, m.lines[c].loc);
    WithoutAll(m.servers[m.lines[c].loc].conns, c);
  }

  /** One turn of the retry loop moves other requests only out of a list and onto a connection. */
  lemma RetryKeeps(max: nat, cap: nat, u: State, r: Request, q: Request)
    requires Wf(cap, u) && Linked(u) && r in u.at && u.at[r] == Retrying && q in u.at
    ensures var u' := RetryOne(max, cap, u, r);
            && u'.at.Keys == u.at.Keys
            && (u'.at[q] == Dropped <==> u.at[q] == Dropped)
            && (u'.at[q] == Failed <==> u.at[q] == Failed || (q == r && Tries(u, r) == max))
  {
    if Tries(u, r) != max {
      CountTryWf(cap, u, r);
      SubmitPlaces(cap, CountTry(u, r), r);
      if q != r { assert q in u.at - {r}; }
    }
  }

  lemma LostFails(max: nat, cap: nat, m: State, c: nat, q: Request)
    requires CanLose(cap, m, c) && q in m.at && m.at[q] != Dropped
    ensures var m' := Lost(max, cap, m, c);
            && q in m'.at
            && (m'.at[q] == Failed <==>
                m.at[q] == Failed || (m.lines[c].active == [q] && Tries(m, q) == max))
  {
    ReleaseDrops(cap, m, c, q);
    ReleaseQuiet(cap, m, c);
    LostOne(max, cap, m, c);
    if m.lines[c].active != [] {
      assert LineOk(m, c);
      RetryKeeps(max, cap, Release(m, c), m.lines[c].active[0], q);
    }
  }

  // ---- nothing lost ----

  /** While requests wait, the server has all the connections it is allowed. */
  predicate FullAt(cap: nat, m: State, n: NetLoc) {
    n in m.servers && m.servers[n].requests != [] ==> |m.servers[n].conns| == cap
  }

  predicate Full(cap: nat, m: State) { forall n <- m.servers :: FullAt(cap, m, n) }

  predicate Nothing(m: State, p: Place) { forall q <- m.at :: m.at[q] != p }

  lemma SubmitFullAt(cap: nat, m: State, r: Request, n: NetLoc)
    requires MaySubmit(cap, m, r) && FullAt(cap, m, n)
    ensures FullAt(cap, Submit(cap, m, r), n)
  {
    if n == r.loc {
      EnqueueWf(cap, m, r);
      assert ServerOk(cap, Enqueue(m, r), n);
    } else {
      SubmitElsewhere(cap, m, r, n);
    }
  }

  lemma SubmitFull(cap: nat, m: State, r: Request)
    requires MaySubmit(cap, m, r) && Full(cap, m)
    ensures Full(cap, Submit(cap, m, r))
  {
    forall n <- Submit(cap, m, r).servers ensures FullAt(cap, Submit(cap, m, r), n) { SubmitFullAt(cap, m, r, n); }
  }

  lemma {:induction false} SubmitAllFull(cap: nat, m: State, rs: seq<Request>)
    requires Wf(cap, m) && Linked(m) && Fresh(m, rs) && Full(cap, m)
    ensures Full(cap, SubmitAll(cap, m, rs))
    decreases |rs|
  {
    if rs != [] {
      SubmitFresh(cap, m, rs);
      SubmitFull(cap, m, rs[0]);
      SubmitAllFull(cap, Submit(cap, m, rs[0]), rs[1..]);
    }
  }

  lemma DoneFull(cap: nat, m: State, c: nat, again: seq<Request>)
    requires MayFinish(cap, m, c, again) && Full(cap, m)
    ensures Full(cap, BodyDone(cap, m, c, again))
  {
    FinishFresh(cap, m, c, again);
    assert Full(cap, Finish(m, c)) by {
      forall n <- m.servers ensures FullAt(cap, Finish(m, c), n) { assert FullAt(cap, m, n); }
    }
    SubmitAllFull(cap, Finish(m, c), again);
    var u, w := AfterCallback(cap, m, c, again), BodyDone(cap, m, c, again);
    forall n <- w.servers ensures FullAt(cap, w, n) { assert FullAt(cap, u, n); }
  }

  /** A retry that is granted makes up for the connection that was lost. */
  lemma LoseFullAt(max: nat, cap: nat, m: State, c: nat, n: NetLoc)
    requires CanLose(cap, m, c) && Full(cap, m) && cap >= 2
    requires m.lines[c].active != [] ==> Tries(m, m.lines[c].active[0]) != max
    ensures FullAt(cap, Lost(max, cap, m, c), n)
  {
    var l, u := m.lines[c], Release(m, c);
    assert LineOk(m, c);
    ReleaseQuiet(cap, m, c);
    LostOne(max, cap, m, c);
    if n != l.loc {
      if n in m.servers { assert FullAt(cap, m, n); }
      if l.active != [] { GrantedElsewhere(cap, u, l.active[0], n); }
    } else {
      LoseFullHere(max, cap, m, c);
    }
  }

  lemma GrantedElsewhere(cap: nat, u: State, r: Request, n: NetLoc)
    requires MaySubmit(cap, u, r) && n != r.loc
    ensures SameServer(u, Submit(cap, CountTry(u, r), r), n)
  {
    CountTryWf(cap, u, r);
    SubmitElsewhere(cap, CountTry(u, r), r, n);
  }

  lemma LoseFullHere(max: nat, cap: nat, m: State, c: nat)
    requires CanLose(cap, m, c) && Full(cap, m) && cap >= 2
    requires m.lines[c].active != [] ==> Tries(m, m.lines[c].active[0]) != max
    ensures FullAt(cap, Lost(max, cap, m, c), m.lines[c].loc)
  {
    var l, u, n := m.lines[c], Release(m, c), m.lines[c].loc;
    assert LineOk(m, c) && ServerOk(cap, m, n) && FullAt(cap, m, n) && Works(m, n);
    ReleaseQuiet(cap, m, c);
    LostOne(max, cap, m, c);
    WithoutDistinct(m.servers[n].conns, c);
    if l.active == [] {
      assert !Busy(m, c);
    } else {
      var r := l.active[0];
      CountTryWf(cap, u, r);
      GrantedFull(cap, CountTry(u, r), r);
    }
  }

  /** With one connection short and nothing idle, a submission opens the missing connection. */
  lemma GrantedFull(cap: nat, u: State, r: Request)
    requires MaySubmit(cap, u, r) && Works(u, r.loc)
    requires r.loc in u.servers && u.servers[r.loc].requests != [] ==> |u.servers[r.loc].conns| == cap - 1
    ensures FullAt(cap, Submit(cap, u, r), r.loc)
  {
    var e, n := Enqueue(u, r), r.loc;
    EnqueueWf(cap, u, r);
    assert ServerOk(cap, e, n);
    if n in u.servers && u.servers[n].requests != [] {
      assert ServerOk(cap, u, n);
      forall c <- e.servers[n].conns ensures Busy(e, c) { assert Busy(u, c); }
      DispatchConnects(cap, e, n);
    } else {
      DispatchClears(cap, e, n);
    }
  }

  lemma DispatchConnects(cap: nat, e: State, n: NetLoc)
    requires Wf(cap, e) && Linked(e) && n in e.servers && e.servers[n].requests != [] && |e.servers[n].conns| == cap - 1
    requires forall c <- e.servers[n].conns :: Busy(e, c)
    ensures n in Dispatch(cap, e, n).servers && |Dispatch(cap, e, n).servers[n].conns| == cap
  {
    forall c <- e.servers[n].conns ensures QueueSize(e.lines[c]) > 0 { assert Busy(e, c); }
  }

  lemma DispatchClears(cap: nat, e: State, n: NetLoc)
    requires Wf(cap, e) && Linked(e) && n in e.servers && |e.servers[n].requests| == 1
    ensures FullAt(cap, Dispatch(cap, e, n), n)
  {
    assert ServerOk(cap, e, n);
  }

  lemma LoseFull(max: nat, cap: nat, m: State, c: nat)
    requires CanLose(cap, m, c) && Full(cap, m) && cap >= 2
    requires m.lines[c].active != [] ==> Tries(m, m.lines[c].active[0]) != max
    ensures Full(cap, Lost(max, cap, m, c))
  {
    var m' := Lost(max, cap, m, c);
    forall n <- m'.servers ensures FullAt(cap, m', n) { LoseFullAt(max, cap, m, c, n); }
  }

  predicate Ended(p: Place) { p.Failed? || p.Dropped? }

  /** No request has failed or been dropped, or come back from that. */
  predicate NoneEnds(at: map<Request, Place>, at': map<Request, Place>) {
    && at.Keys <= at'.Keys
    && (forall q <- at' :: Ended(at'[q]) ==> q in at && at[q] == at'[q])
    && (forall q <- at :: Ended(at[q]) ==> at'[q] == at[q])
  }

  lemma NoneEndsOn(a: map<Request, Place>, b: map<Request, Place>, c: map<Request, Place>)
    requires NoneEnds(a, b) && NoneEnds(b, c)
    ensures NoneEnds(a, c)
  {
  }

  /** Noting the requests of a line that are in no final place. */
  lemma NotedEnds(at: map<Request, Place>, c: nat, l: Line)
    requires l.active != [] ==> l.active[0] in at && !Ended(at[l.active[0]])
    requires l.submitted != [] ==> l.submitted[0] in at && !Ended(at[l.submitted[0]])
    ensures NoneEnds(at, Noted(at, c, l))
  {
  }

  lemma ConcludedEnds(cap: nat, u: State, c: nat)
    requires Wf(cap, u) && c in u.lines && QueueSize(u.lines[c]) <= 1
    ensures NoneEnds(u.at, Concluded(u, c).at)
  {
    var n := u.lines[c].loc;
    var v := RequestDone(u, c);
    assert LineOk(u, c);
    if n in u.servers && u.servers[n].requests != [] {
      assert ServerOk(cap, u, n);
      NotedEnds(u.at, c, Accept(u.lines[c], u.servers[n].requests[0]));
      HandWf(cap, u, n, c);
    }
    assert LineOk(v, c);
    NotedEnds(v.at, c, Flow(v.lines[c]));
    NoneEndsOn(u.at, v.at, Concluded(u, c).at);
  }

  lemma SubmitAllEnds(cap: nat, m: State, rs: seq<Request>)
    requires Wf(cap, m) && Linked(m) && Fresh(m, rs)
    ensures NoneEnds(m.at, SubmitAll(cap, m, rs).at)
  {
    SubmitAllPlaces(cap, m, rs);
    var at' := SubmitAll(cap, m, rs).at;
    forall q <- at' ensures Ended(at'[q]) ==> q in m.at && m.at[q] == at'[q] {
      if q !in m.at { assert q in rs; }
    }
  }

  lemma FinishEnds(cap: nat, m: State, c: nat)
    requires Wf(cap, m) && c in m.lines && m.lines[c].active != []
    ensures NoneEnds(m.at, Finish(m, c).at)
  {
    assert LineOk(m, c);
  }

  lemma DoneEnds(cap: nat, m: State, c: nat, again: seq<Request>)
    requires MayFinish(cap, m, c, again)
    ensures NoneEnds(m.at, BodyDone(cap, m, c, again).at)
  {
    var f, u := Finish(m, c), AfterCallback(cap, m, c, again);
    FinishEnds(cap, m, c);
    FinishFresh(cap, m, c, again);
    SubmitAllEnds(cap, f, again);
    CallbackFacts(cap, m, c, again);
    ConcludedEnds(cap, u, c);
    NoneEndsOn(m.at, f.at, u.at);
    NoneEndsOn(m.at, u.at, BodyDone(cap, m, c, again).at);
  }

  lemma SubmitEnds(cap: nat, m: State, r: Request)
    requires MaySubmit(cap, m, r) && r !in m.at
    ensures NoneEnds(m.at, Submit(cap, m, r).at)
  {
    SubmitPlaces(cap, m, r);
    assert m.at - {r} == m.at;
    AdvancesEnds(m.at, Submit(cap, m, r).at, r);
  }

  lemma AdvancesEnds(at: map<Request, Place>, at': map<Request, Place>, r: Request)
    requires Advances(at, at') && at'.Keys == at.Keys + {r} && r !in at && !Ended(at'[r])
    ensures NoneEnds(at, at')
  {
    forall q <- at' ensures Ended(at'[q]) ==> q in at && at[q] == at'[q] { assert q != r ==> q in at; }
  }

  /** One operation, with two or more connections allowed: as long as no request fails, none is dropped. */
  lemma DoKeepsAll(max: nat, cap: nat, m: State, op: Op)
    requires Quiet(cap, m) && Can(m, op) && Full(cap, m) && Nothing(m, Failed) && Nothing(m, Dropped)
    requires cap >= 2 && op != Clear
    ensures var m' := Do(max, cap, m, op); Nothing(m', Failed) ==> Full(cap, m') && Nothing(m', Dropped)
  {
    match op
    case UserSubmit(r) => SubmitFull(cap, m, r); SubmitEnds(cap, m, r);
    case Done(c, again) => DoneFull(cap, m, c, again); DoneEnds(cap, m, c, again);
    case Lose(c, again) => LoseKeepsAll(max, cap, m, c, again);
  }

  lemma LoseKeepsAll(max: nat, cap: nat, m: State, c: nat, again: seq<Request>)
    requires CanLose(cap, m, c) && Fresh(m, again)
    requires Full(cap, m) && Nothing(m, Failed) && Nothing(m, Dropped) && cap >= 2
    ensures var m' := Do(max, cap, m, Lose(c, again)); Nothing(m', Failed) ==> Full(cap, m') && Nothing(m', Dropped)
  {
    var m' := Do(max, cap, m, Lose(c, again));
    assert LineOk(m, c) && ServerOk(cap, m, m.lines[c].loc) && FullAt(cap, m, m.lines[c].loc);
    LostKeys(max, cap, m, c);
    if m.lines[c].active != [] { LoseFails(max, cap, m, c, again, m.lines[c].active[0]); }
    if Nothing(m', Failed) {
      LoseFull(max, cap, m, c);
      forall q <- m'.at ensures m'.at[q] != Dropped {
        LostDrops(max, cap, m, c, q);
        assert PlaceOk(m, q);
      }
    }
  }

  lemma LostKeys(max: nat, cap: nat, m: State, c: nat)
    requires CanLose(cap, m, c)
    ensures Lost(max, cap, m, c).at.Keys == m.at.Keys
  {
    var u := Release(m, c);
    ReleaseQuiet(cap, m, c);
    LostOne(max, cap, m, c);
    if m.lines[c].active != [] {
      assert LineOk(m, c);
      RetryKeeps(max, cap, u, m.lines[c].active[0], m.lines[c].active[0]);
    }
  }

  /** The callback of a failed request ends nothing. */
  lemma LostThenEnds(max: nat, cap: nat, m: State, c: nat, again: seq<Request>)
    requires CanLose(cap, m, c) && Fresh(m, again)
    ensures NoneEnds(Lost(max, cap, m, c).at, LostThen(max, cap, m, c, again).at)
  {
    if Fails(max, m, c) {
      LostFresh(max, cap, m, c, again);
      SubmitAllEnds(cap, Lost(max, cap, m, c), again);
    }
  }

  /** Losing `c` costs a request its place in the waiting list exactly when it waits for the server of
      `c` and that server has no other connection, whatever callbacks do. */
  lemma LoseDrops(max: nat, cap: nat, m: State, c: nat, again: seq<Request>, q: Request)
    requires CanLose(cap, m, c) && Fresh(m, again) && q in m.at && m.at[q] != Dropped
    ensures var m' := Do(max, cap, m, Lose(c, again));
            q in m'.at && (m'.at[q] == Dropped <==>
              m.at[q] == Waiting && q.loc == m.lines[c].loc && LastAt(m, q.loc, c))
  {
    LostDrops(max, cap, m, c, q);
    LostThenEnds(max, cap, m, c, again);
  }

  /** A request fails exactly when the connection it is active on is lost and its retries are used up. */
  lemma LoseFails(max: nat, cap: nat, m: State, c: nat, again: seq<Request>, q: Request)
    requires CanLose(cap, m, c) && Fresh(m, again) && q in m.at && m.at[q] != Failed && m.at[q] != Dropped
    ensures var m' := Do(max, cap, m, Lose(c, again));
            q in m'.at && (m'.at[q] == Failed <==> m.lines[c].active == [q] && Tries(m, q) == max)
  {
    LostFails(max, cap, m, c, q);
    LostThenEnds(max, cap, m, c, again);
  }

  /** A failed request stays failed. */
  lemma FailedStays(max: nat, cap: nat, m: State, op: Op, q: Request)
    requires Quiet(cap, m) && Can(m, op) && q in m.at && m.at[q] == Failed
    ensures var m' := Do(max, cap, m, op); q in m'.at && m'.at[q] == Failed
  {
    match op
    case UserSubmit(r) => SubmitEnds(cap, m, r);
    case Done(c, again) => DoneEnds(cap, m, c, again);
    case Lose(c, again) => LostFails(max, cap, m, c, q); LostThenEnds(max, cap, m, c, again);
    case Clear =>
  }

  lemma {:induction false} RunFailedStays(max: nat, cap: nat, m: State, ops: seq<Op>, q: Request)
    requires Quiet(cap, m) && q in m.at && m.at[q] == Failed
    ensures var m' := Run(max, cap, m, ops); q in m'.at && m'.at[q] == Failed
    decreases |ops|
  {
    if ops != [] {
      if Can(m, ops[0]) { FailedStays(max, cap, m, ops[0], q); }
      RunFailedStays(max, cap, Next(max, cap, m, ops[0]), ops[1..], q);
    }
  }

  /** Nothing is ever lost: with at least two connections allowed per server, in every run in which no
      request exhausts its retries, no request vanishes; without a reset, that is. */
  lemma {:induction false} NothingLost(max: nat, cap: nat, m: State, ops: seq<Op>)
    requires Quiet(cap, m) && Full(cap, m) && Nothing(m, Failed) && Nothing(m, Dropped) && cap >= 2 && Clear !in ops
    ensures var m' := Run(max, cap, m, ops); Nothing(m', Failed) ==> Full(cap, m') && Nothing(m', Dropped)
    decreases |ops|
  {
    if ops != [] {
      var u := Next(max, cap, m, ops[0]);
      if Can(m, ops[0]) { DoKeepsAll(max, cap, m, ops[0]); }
      if Nothing(u, Failed) {
        NothingLost(max, cap, u, ops[1..]);
      } else {
        var q :| q in u.at && u.at[q] == Failed;
        RunFailedStays(max, cap, u, ops[1..], q);
      }
    }
  }

  lemma StartsFull(cap: nat)
    ensures Full(cap, EMPTY) && Nothing(EMPTY, Failed) && Nothing(EMPTY, Dropped)
  {
  }

  /** With one connection per server, every loss of one drops all who wait for it. */
  lemma OneConnectionDrops(max: nat, m: State, c: nat, again: seq<Request>, q: Request)
    requires CanLose(1, m, c) && Fresh(m, again) && q in m.at && m.at[q] == Waiting && q.loc == m.lines[c].loc
    ensures var m' := Do(max, 1, m, Lose(c, again)); q in m'.at && m'.at[q] == Dropped
  {
    assert LineOk(m, c) && ServerOk(1, m, q.loc);
    LoseDrops(max, 1, m, c, again, q);
  }

  /** The second of two requests waits: it does come to that. */
  lemma SecondWaits(r: Request, q: Request)
    requires r != q && r.loc == q.loc
    ensures Quiet(1, EMPTY) && Quiet(1, Submit(1, EMPTY, r))
    ensures var m := Submit(1, Submit(1, EMPTY, r), q);
            CanLose(1, m, 0) && q in m.at && m.at[q] == Waiting && q.loc == m.lines[0].loc
  {
    EmptyQuiet(1);
    SubmitQuiet(1, EMPTY, r);
    var a := Submit(1, EMPTY, r);
    assert a.servers[r.loc].conns == [0] && a.servers[r.loc].requests == [] && a.lines[0] == Line(r.loc, [], [r]);
    SubmitPlaces(1, EMPTY, r);
    SubmitQuiet(1, a, q);
  }

  /** The state in which the second waits. */
  lemma SecondBehind(r: Request, q: Request)
    requires r != q && r.loc == q.loc
    ensures var b := Submit(1, Submit(1, EMPTY, r), q);
            && b.at.Keys == {r, q} && 0 in b.lines && b.lines[0] == Line(r.loc, [], [r]) && WaitingAt(b, r.loc) == [q]
  {
    var a := Submit(1, EMPTY, r);
    assert a.servers[r.loc].conns == [0] && a.servers[r.loc].requests == [] && a.lines[0] == Line(r.loc, [], [r]);
    assert a.at.Keys == {r};
    var e := Enqueue(a, q);
    assert e.servers[r.loc].requests == [q] && e.servers[r.loc].conns == [0] && e.lines == a.lines;
    assert FirstIdle(e.lines, [0]) == -1;
    assert Dispatch(1, e, r.loc) == e;
  }

  lemma ThirdIsNew(r: Request, q: Request, s: Request)
    requires r != q && s != r && s != q && r.loc == q.loc == s.loc
    ensures Fresh(Submit(1, Submit(1, EMPTY, r), q), [s]) && CountAt([s], s.loc) == 1
  {
    SecondBehind(r, q);
    assert [s][1..] == [];
  }

  lemma PendsThen(b: State, s: Request)
    requires MayFinish(1, b, 0, [s]) && WaitingAt(b, b.lines[0].loc) != [] && CountAt([s], b.lines[0].loc) == 1
    ensures var m := BodyDone(1, b, 0, [s]); 0 in m.lines && m.lines[0].submitted != [] && !Can(m, Lose(0, []))
  {
    PendingIff(1, b, 0, [s]);
  }

  /** With one connection per server, two requests to it and a callback that submits a third when the first is
      done: the connection is left with a request pending, and losing it fails the assertion. */
  lemma ReentryLeavesPending(r: Request, q: Request, s: Request)
    requires r != q && s != r && s != q && r.loc == q.loc == s.loc
    ensures var b := Submit(1, Submit(1, EMPTY, r), q);
            MayFinish(1, b, 0, [s]) && Can(b, Done(0, [s])) &&
            var m := BodyDone(1, b, 0, [s]); 0 in m.lines && m.lines[0].submitted != [] && !Can(m, Lose(0, []))
  {
    SecondWaits(r, q);
    SecondBehind(r, q);
    ThirdIsNew(r, q, s);
    PendsThen(Submit(1, Submit(1, EMPTY, r), q), s);
  }
}
