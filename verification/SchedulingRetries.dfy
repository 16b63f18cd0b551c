/** How often a request is tried, over whole runs of the connection manager, and where a submission goes. */
module SchedulingRetries {
  import opened Scheduling
  import opened SchedulingRuns
  import opened SchedulingLoss

  // ---- the tries of a request are the losses it has survived ----

  /** The operation loses the connection `q` is active on. */
  predicate LosesIt(m: State, op: Op, q: Request) {
    Can(m, op) && op.Lose? && m.lines[op.c].active == [q]
  }

  lemma {:induction false} SubmitAllTries(cap: nat, m: State, rs: seq<Request>)
    requires Wf(cap, m) && Linked(m) && Fresh(m, rs)
    ensures SubmitAll(cap, m, rs).tries == m.tries
    decreases |rs|
  {
    if rs != [] {
      SubmitFresh(cap, m, rs);
      SubmitPlaces(cap, m, rs[0]);
      SubmitAllTries(cap, Submit(cap, m, rs[0]), rs[1..]);
    }
  }

  lemma DoneTries(cap: nat, m: State, c: nat, again: seq<Request>)
    requires MayFinish(cap, m, c, again)
    ensures BodyDone(cap, m, c, again).tries == m.tries
  {
    FinishFresh(cap, m, c, again);
    SubmitAllTries(cap, Finish(m, c), again);
  }

  /** A granted retry counts one and submits the request again. */
  lemma GrantedOne(max: nat, cap: nat, u: State, r: Request)
    requires Wf(cap, u) && Linked(u) && r in u.at && u.at[r] == Retrying && Tries(u, r) != max
    ensures var u' := RetryOne(max, cap, u, r);
            && Tries(u', r) == Tries(u, r) + 1 && (forall q | q != r :: Tries(u', q) == Tries(u, q))
            && r in u'.at && (u'.at[r] == Waiting || u'.at[r].Active?)
  {
    CountTryWf(cap, u, r);
    SubmitPlaces(cap, CountTry(u, r), r);
  }

  lemma LostTries(max: nat, cap: nat, m: State, c: nat, q: Request)
    requires CanLose(cap, m, c)
    ensures Tries(Lost(max, cap, m, c), q) ==
            Tries(m, q) + (if m.lines[c].active == [q] && Tries(m, q) != max then 1 else 0)
  {
    var u := Release(m, c);
    ReleaseQuiet(cap, m, c);
    LostOne(max, cap, m, c);
    assert LineOk(m, c);
    if m.lines[c].active != [] {
      var r := m.lines[c].active[0];
      assert u.tries == m.tries;
      if Tries(u, r) != max { GrantedOne(max, cap, u, r); }
    }
  }

  /** One operation counts a try of `q` exactly when it loses the connection `q` is active on and `q` has
      retries left. */
  lemma DoTries(max: nat, cap: nat, m: State, op: Op, q: Request)
    requires Quiet(cap, m) && Can(m, op)
    ensures Tries(Do(max, cap, m, op), q) ==
            Tries(m, q) + (if LosesIt(m, op, q) && Tries(m, q) != max then 1 else 0)
  {
    match op
    case UserSubmit(r) => SubmitPlaces(cap, m, r);
    case Done(c, again) => DoneTries(cap, m, c, again);
    case Lose(c, again) =>
      LostTries(max, cap, m, c, q);
      if Fails(max, m, c) {
        LostFresh(max, cap, m, c, again);
        SubmitAllTries(cap, Lost(max, cap, m, c), again);
      }
    case Clear =>
  }

  /** And such a loss submits it again. */
  lemma LoseRetries(max: nat, cap: nat, m: State, c: nat, again: seq<Request>, q: Request)
    requires CanLose(cap, m, c) && Fresh(m, again) && m.lines[c].active == [q] && Tries(m, q) != max
    ensures var m' := Do(max, cap, m, Lose(c, again));
            q in m'.at && (m'.at[q] == Waiting || m'.at[q].Active?) && Tries(m', q) == Tries(m, q) + 1
  {
    var u := Release(m, c);
    ReleaseQuiet(cap, m, c);
    LostOne(max, cap, m, c);
    GrantedOne(max, cap, u, q);
  }

  /** How many operations of the run lose the connection `q` is active on. */
  function Losses(max: nat, cap: nat, m: State, ops: seq<Op>, q: Request): nat
    requires Quiet(cap, m)
    decreases |ops|
  {
    if ops == [] then 0
    else (if LosesIt(m, ops[0], q) then 1 else 0) + Losses(max, cap, Next(max, cap, m, ops[0]), ops[1..], q)
  }

  predicate IsFailed(m: State, q: Request) { q in m.at && m.at[q] == Failed }

  /** `q` is active on no connection once it has failed or vanished. */
  lemma {:induction false} NoMoreLosses(max: nat, cap: nat, m: State, ops: seq<Op>, q: Request)
    requires Quiet(cap, m) && IsFailed(m, q)
    ensures Losses(max, cap, m, ops, q) == 0
    decreases |ops|
  {
    if ops != [] {
      if Can(m, ops[0]) {
        if ops[0].Lose? { assert LineOk(m, ops[0].c); }
        FailedStays(max, cap, m, ops[0], q);
      }
      NoMoreLosses(max, cap, Next(max, cap, m, ops[0]), ops[1..], q);
    }
  }

  /** `q` fails in one operation exactly when that loses the connection it is active on for once too often. */
  lemma DoFails(max: nat, cap: nat, m: State, op: Op, q: Request)
    requires Quiet(cap, m) && Can(m, op) && !IsFailed(m, q)
    ensures IsFailed(Do(max, cap, m, op), q) <==> LosesIt(m, op, q) && Tries(m, q) == max
  {
    var m' := Do(max, cap, m, op);
    match op
    case UserSubmit(r) => SubmitEnds(cap, m, r);
    case Done(c, again) => DoneEnds(cap, m, c, again);
    case Lose(c, again) =>
      assert LineOk(m, c);
      LostThenEnds(max, cap, m, c, again);
      if q in m.at && m.at[q] != Dropped {
        LoseFails(max, cap, m, c, again, q);
      } else {
        LostEnded(max, cap, m, c, q);
      }
    case Clear =>
  }

  /** What was dropped, or never submitted, does not fail. */
  lemma LostEnded(max: nat, cap: nat, m: State, c: nat, q: Request)
    requires CanLose(cap, m, c) && (q in m.at ==> m.at[q] == Dropped)
    ensures !IsFailed(Lost(max, cap, m, c), q)
  {
    var u := Release(m, c);
    LostKeys(max, cap, m, c);
    ReleaseQuiet(cap, m, c);
    LostOne(max, cap, m, c);
    if q in m.at && m.lines[c].active != [] {
      assert LineOk(m, c);
      assert u.at[q] == Dropped;
      RetryKeeps(max, cap, u, m.lines[c].active[0], q);
    }
  }

  /** Over every run: the tries of `q` grow by the losses of connections it was active on, but for the one
      that fails it; and it fails exactly at the loss that comes after max others. */
  lemma {:induction false} RetriesAreLosses(max: nat, cap: nat, m: State, ops: seq<Op>, q: Request)
    requires Quiet(cap, m) && !IsFailed(m, q) && Tries(m, q) <= max
    ensures var m', n := Run(max, cap, m, ops), Losses(max, cap, m, ops, q);
            && (IsFailed(m', q) <==> Tries(m, q) + n == max + 1)
            && (!IsFailed(m', q) ==> Tries(m', q) == Tries(m, q) + n <= max)
            && (IsFailed(m', q) ==> Tries(m', q) == max)
    decreases |ops|
  {
    if ops != [] {
      var u := Next(max, cap, m, ops[0]);
      if Can(m, ops[0]) {
        DoTries(max, cap, m, ops[0], q);
        DoFails(max, cap, m, ops[0], q);
      }
      if IsFailed(u, q) {
        NoMoreLosses(max, cap, u, ops[1..], q);
        FailedTries(max, cap, u, ops[1..], q);
      } else {
        RetriesAreLosses(max, cap, u, ops[1..], q);
      }
    }
  }

  lemma {:induction false} FailedTries(max: nat, cap: nat, m: State, ops: seq<Op>, q: Request)
    requires Quiet(cap, m) && IsFailed(m, q)
    ensures var m' := Run(max, cap, m, ops); IsFailed(m', q) && Tries(m', q) == Tries(m, q)
    decreases |ops|
  {
    if ops != [] {
      if Can(m, ops[0]) {
        if ops[0].Lose? { assert LineOk(m, ops[0].c); }
        FailedStays(max, cap, m, ops[0], q);
        DoTries(max, cap, m, ops[0], q);
      }
      FailedTries(max, cap, Next(max, cap, m, ops[0]), ops[1..], q);
    }
  }

  /** So from the beginning: `q` fails exactly at the (max + 1)-th loss of a connection it is active on. */
  lemma FailsAtLast(max: nat, cap: nat, ops: seq<Op>, q: Request)
    requires cap > 0
    ensures Quiet(cap, EMPTY)
    ensures var m', n := Run(max, cap, EMPTY, ops), Losses(max, cap, EMPTY, ops, q);
            (IsFailed(m', q) <==> n == max + 1) && n <= max + 1 && (n <= max ==> Tries(m', q) == n)
  {
    EmptyQuiet(cap);
    RetriesAreLosses(max, cap, EMPTY, ops, q);
  }

  // ---- where a submission goes ----

  /** The first connection of the list without a request, or as many as there are. */
  ghost predicate FirstFree(m: State, conns: seq<nat>, i: nat) {
    && i <= |conns| && (forall j | 0 <= j < i :: Busy(m, conns[j]))
    && (i < |conns| ==> !Busy(m, conns[i]))
  }

  /** With a free connection, a submission opens none: the request goes to the first free one. */
  lemma SubmitReuses(cap: nat, m: State, r: Request, i: nat)
    requires Quiet(cap, m) && r !in m.at && r.loc in m.servers
    requires FirstFree(m, m.servers[r.loc].conns, i) && i < |m.servers[r.loc].conns|
    ensures var m', c := Submit(cap, m, r), m.servers[r.loc].conns[i];
            && m'.lines == m.lines[c := Line(r.loc, [], [r])] && m'.next == m.next && c in m.lines
            && r.loc in m'.servers && m'.servers[r.loc].conns == m.servers[r.loc].conns
            && WaitingAt(m', r.loc) == []
  {
    var s, e := m.servers[r.loc], Enqueue(m, r);
    assert ServerOk(cap, m, r.loc) && Works(m, r.loc);
    assert s.conns[i] in s.conns && LineOk(m, s.conns[i]);
    EnqueueWf(cap, m, r);
    assert FirstIdle(e.lines, s.conns) == i;
  }

  lemma NoneFree(m: State, conns: seq<nat>)
    requires FirstFree(m, conns, |conns|)
    ensures forall c <- conns :: Busy(m, c)
  {
    forall c <- conns ensures Busy(m, c) {
      var j :| 0 <= j < |conns| && conns[j] == c;
    }
  }

  /** With none free and fewer than the cap, it opens one, and the request that has waited longest goes there. */
  lemma SubmitOpens(cap: nat, m: State, r: Request)
    requires Quiet(cap, m) && r !in m.at
    requires r.loc in m.servers ==>
      |m.servers[r.loc].conns| < cap && FirstFree(m, m.servers[r.loc].conns, |m.servers[r.loc].conns|)
    ensures var m', all := Submit(cap, m, r), WaitingAt(m, r.loc) + [r];
            && m'.lines == m.lines[m.next := Line(r.loc, [], [all[0]])] && m'.next == m.next + 1
            && r.loc in m'.servers && WaitingAt(m', r.loc) == all[1..]
            && m'.servers[r.loc].conns == ServerOf(m, r.loc).conns + [m.next]
  {
    var conns, e := ServerOf(m, r.loc).conns, Enqueue(m, r);
    if r.loc in m.servers {
      assert ServerOk(cap, m, r.loc);
      NoneFree(m, conns);
    }
    EnqueueWf(cap, m, r);
    assert FirstIdle(e.lines, conns) == -1;
    OpensFor(cap, e, r.loc);
  }

  lemma OpensFor(cap: nat, e: State, n: NetLoc)
    requires Wf(cap, e) && Linked(e) && n in e.servers && e.servers[n].requests != [] && |e.servers[n].conns| < cap
    requires FirstIdle(e.lines, e.servers[n].conns) == -1
    ensures var m', s := Dispatch(cap, e, n), e.servers[n];
            && m'.lines == e.lines[e.next := Line(n, [], [s.requests[0]])] && m'.next == e.next + 1
            && n in m'.servers && m'.servers[n].requests == s.requests[1..] && m'.servers[n].conns == s.conns + [e.next]
  {
    assert Accept(Line(n, [], []), e.servers[n].requests[0]) == Line(n, [], [e.servers[n].requests[0]]);
  }

  /** With the cap reached and none free, it waits at the end of the list. */
  lemma SubmitQueues(cap: nat, m: State, r: Request)
    requires Quiet(cap, m) && r !in m.at && r.loc in m.servers && |m.servers[r.loc].conns| == cap
    requires FirstFree(m, m.servers[r.loc].conns, cap)
    ensures var m' := Submit(cap, m, r);
            && m'.lines == m.lines && m'.next == m.next && WaitingAt(m', r.loc) == WaitingAt(m, r.loc) + [r]
            && r.loc in m'.servers && m'.servers[r.loc].conns == m.servers[r.loc].conns
            && r in m'.at && m'.at[r] == Waiting
  {
    var conns, e := m.servers[r.loc].conns, Enqueue(m, r);
    assert ServerOk(cap, m, r.loc);
    EnqueueWf(cap, m, r);
    NoneFree(m, conns);
    assert FirstIdle(e.lines, conns) == -1;
  }
}
