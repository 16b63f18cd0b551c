/** web/utility/connection_manager.cc on values: which request is where, and what each operation moves. */
module Scheduling {

  datatype NetLoc = NetLoc(host: string, port: nat)

  datatype Request = Request(id: nat, loc: NetLoc)

  /** The two queues of a Connection, and where it is connected. */
  datatype Line = Line(loc: NetLoc, submitted: seq<Request>, active: seq<Request>)

  /** A Server; `joined` and `left` record every request that has entered and left its list. */
  datatype Server = Server(requests: seq<Request>, conns: seq<nat>, joined: seq<Request>, left: seq<Request>)

  /** Where a submitted request is. Retrying is the moment between losing its connection and
      retry_requests; Dropped, that the list it waited in is gone. */
  datatype Place = Waiting | Pending(c: nat) | Active(c: nat) | Retrying | Finished | Failed | Dropped

  /** The manager, its connections, and a record `at` of every request ever submitted. */
  datatype State = State(
    servers: map<NetLoc, Server>, lines: map<nat, Line>, next: nat, tries: map<Request, nat>, at: map<Request, Place>)

  const EMPTY: State := State(map[], map[], 0, map[], map[])

  function QueueSize(l: Line): nat { |l.submitted| + |l.active| }

  /** http_write_to_outbuf */
  function Flow(l: Line): Line {
    if l.submitted == [] || l.active != [] then l else Line(l.loc, l.submitted[1..], [l.submitted[0]])
  }

  /** Connection::submit_request */
  function Accept(l: Line, r: Request): Line { Flow(l.(submitted := l.submitted + [r])) }

  /** The record after line `c` has become `l`. */
  function Noted(at: map<Request, Place>, c: nat, l: Line): map<Request, Place> {
    var a := if l.active != [] then at[l.active[0] := Active(c)] else at;
    if l.submitted != [] then a[l.submitted[0] := Pending(c)] else a
  }

  function SetLine(m: State, c: nat, l: Line): State { m.(lines := m.lines[c := l], at := Noted(m.at, c, l)) }

  /** The first connection in the list with empty queues, or -1. */
  function FirstIdle(lines: map<nat, Line>, conns: seq<nat>): (i: int)
    requires forall c <- conns :: c in lines
    ensures i == -1 <==> forall c <- conns :: QueueSize(lines[c]) > 0
    ensures i != -1 ==> 0 <= i < |conns| && QueueSize(lines[conns[i]]) == 0
    ensures i != -1 ==> forall j | 0 <= j < i :: QueueSize(lines[conns[j]]) > 0
  {
    if conns == [] then -1
    else if QueueSize(lines[conns[0]]) == 0 then 0
    else
      var i := FirstIdle(lines, conns[1..]);
      if i == -1 then -1 else i + 1
  }

  // ---- the moves ----

  function ServerOf(m: State, n: NetLoc): Server {
    if n in m.servers then m.servers[n] else Server([], [], [], [])
  }

  function Enqueue(m: State, r: Request): State {
    var s := ServerOf(m, r.loc);
    m.(servers := m.servers[r.loc := s.(requests := s.requests + [r], joined := s.joined + [r])],
      at := m.at[r := Waiting])
  }

  function Connect(m: State, n: NetLoc): State
    requires n in m.servers
  {
    m.(servers := m.servers[n := m.servers[n].(conns := m.servers[n].conns + [m.next])],
       lines := m.lines[m.next := Line(n, [], [])], next := m.next + 1)
  }

  /** The front request of `n` goes to connection `c`. */
  function Hand(m: State, n: NetLoc, c: nat): State
    requires n in m.servers && m.servers[n].requests != [] && c in m.lines
  {
    var s := m.servers[n];
    var r := s.requests[0];
    SetLine(m.(servers := m.servers[n := s.(requests := s.requests[1..], left := s.left + [r])]), c,
      Accept(m.lines[c], r))
  }

  /** The connections of every server exist. */
  predicate Linked(m: State) { forall n, c | n in m.servers && c in m.servers[n].conns :: c in m.lines }

  function Dispatch(cap: nat, m: State, n: NetLoc): State
    requires Linked(m) && n in m.servers && m.servers[n].requests != []
  {
    var s := m.servers[n];
    var i := FirstIdle(m.lines, s.conns);
    if i != -1 then Hand(m, n, s.conns[i])
    else if |s.conns| < cap then Hand(Connect(m, n), n, m.next)
    else m
  }

  /** ConnectionManager::submit_request */
  function Submit(cap: nat, m: State, r: Request): State
    requires Linked(m)
  {
    Dispatch(cap, Enqueue(m, r), r.loc)
  }

  /** The active request of `c` has its whole body. */
  function Finish(m: State, c: nat): State
    requires c in m.lines && m.lines[c].active != []
  {
    m.(lines := m.lines[c := m.lines[c].(active := m.lines[c].active[1..])],
      at := m.at[m.lines[c].active[0] := Finished])
  }

  /** cnx_request_done_cb */
  function RequestDone(m: State, c: nat): State
    requires c in m.lines
  {
    var n := m.lines[c].loc;
    if n in m.servers && m.servers[n].requests != [] then Hand(m, n, c) else m
  }

  function Resume(m: State, c: nat): State
    requires c in m.lines
  {
    SetLine(m, c, Flow(m.lines[c]))
  }

  function Without(conns: seq<nat>, c: nat): (r: seq<nat>)
    ensures forall d :: d in r ==> d in conns
    ensures c !in conns ==> r == conns
    ensures c in conns ==> |r| == |conns| - 1
  {
    if conns == [] then [] else if conns[0] == c then conns[1..] else [conns[0]] + Without(conns[1..], c)
  }

  /** release_conn: with its last connection a server goes, and with it the list of those who wait. */
  function Release(m: State, c: nat): State
    requires c in m.lines
  {
    var n, l := m.lines[c].loc, m.lines[c];
    var s := ServerOf(m, n);
    var conns := Without(s.conns, c);
    m.(servers := if conns == [] then m.servers - {n} else m.servers[n := s.(conns := conns)],
       lines := m.lines - {c},
       at := map r | r in m.at :: if r in l.active then Retrying
                                  else if conns == [] && r in s.requests then Dropped
                                  else m.at[r])
  }

  /** get_num_retries */
  function Tries(m: State, r: Request): nat { if r in m.tries then m.tries[r] else 0 }

  function GiveUp(m: State, r: Request): State { m.(at := m.at[r := Failed]) }

  function CountTry(m: State, r: Request): State { m.(tries := m.tries[r := Tries(m, r) + 1]) }

  /** One turn of the retry_requests loop. */
  function RetryOne(max: nat, cap: nat, m: State, r: Request): State
    requires Linked(m)
  {
    if Tries(m, r) == max then GiveUp(m, r) else Submit(cap, CountTry(m, r), r)
  }

  /** retry_requests */
  function RetryAll(max: nat, cap: nat, m: State, q: seq<Request>): State
    requires Linked(m)
    decreases |q|
  {
    if q == [] then m else
      RetryLinked(max, cap, m, q[0]);
      RetryAll(max, cap, RetryOne(max, cap, m, q[0]), q[1..])
  }

  lemma HandLinked(m: State, n: NetLoc, c: nat)
    requires Linked(m) && n in m.servers && m.servers[n].requests != [] && c in m.lines
    ensures Linked(Hand(m, n, c))
  {
    var m' := Hand(m, n, c);
    forall k, d | k in m'.servers && d in m'.servers[k].conns ensures d in m'.lines {
      assert k in m.servers && d in m.servers[k].conns;
    }
  }

  lemma ConnectLinked(m: State, n: NetLoc)
    requires Linked(m) && n in m.servers
    ensures Linked(Connect(m, n))
  {
    var m' := Connect(m, n);
    forall k, d | k in m'.servers && d in m'.servers[k].conns ensures d in m'.lines {
      assert k in m.servers && (d in m.servers[k].conns || d == m.next);
    }
  }

  lemma DispatchLinked(cap: nat, m: State, n: NetLoc)
    requires Linked(m) && n in m.servers && m.servers[n].requests != []
    ensures Linked(Dispatch(cap, m, n))
  {
    var conns := m.servers[n].conns;
    var i := FirstIdle(m.lines, conns);
    if i != -1 {
      HandLinked(m, n, conns[i]);
    } else if |conns| < cap {
      ConnectLinked(m, n);
      HandLinked(Connect(m, n), n, m.next);
    }
  }

  lemma EnqueueLinked(m: State, r: Request)
    requires Linked(m)
    ensures Linked(Enqueue(m, r))
  {
    var m' := Enqueue(m, r);
    forall k, d | k in m'.servers && d in m'.servers[k].conns ensures d in m'.lines {
      assert k in m.servers && d in m.servers[k].conns;
    }
  }

  lemma RetryLinked(max: nat, cap: nat, m: State, r: Request)
    requires Linked(m)
    ensures Linked(RetryOne(max, cap, m, r))
  {
    if Tries(m, r) != max {
      var t := CountTry(m, r);
      EnqueueLinked(t, r);
      DispatchLinked(cap, Enqueue(t, r), r.loc);
    }
  }

  /** reset: every connection and every list goes; the Request objects are left alone. */
  function Reset(m: State): State {
    m.(servers := map[], lines := map[],
       at := map r | r in m.at :: if m.at[r] in {Finished, Failed, Dropped} then m.at[r] else Dropped)
  }

  // ---- the invariant ----

  predicate Distinct<T(==)>(s: seq<T>) { forall i, j | 0 <= i < j < |s| :: s[i] != s[j] }

  /** A server's list and connections. Requests leave the list in the order they joined it. */
  predicate ServerOk(cap: nat, m: State, n: NetLoc)
    requires n in m.servers
  {
    var s := m.servers[n];
    && Distinct(s.conns) && |s.conns| <= cap && (forall c <- s.conns :: c in m.lines && m.lines[c].loc == n)
    && Distinct(s.requests) && (forall r <- s.requests :: r.loc == n && r in m.at && m.at[r] == Waiting)
    && s.joined == s.left + s.requests
  }

  /** A connection carries at most one active and one pending request, both for its own server. */
  predicate LineOk(m: State, c: nat)
    requires c in m.lines
  {
    var l := m.lines[c];
    && c < m.next && l.loc in m.servers && c in m.servers[l.loc].conns
    && |l.active| <= 1 && |l.submitted| <= 1
    && (l.active != [] ==> l.active[0] in m.at && m.at[l.active[0]] == Active(c) && l.active[0].loc == l.loc)
    && (l.submitted != [] ==>
        l.submitted[0] in m.at && m.at[l.submitted[0]] == Pending(c) && l.submitted[0].loc == l.loc)
  }

  /** A request is where the record says. */
  predicate PlaceOk(m: State, r: Request)
    requires r in m.at
  {
    match m.at[r]
    case Waiting => r.loc in m.servers && r in m.servers[r.loc].requests
    case Pending(c) => c in m.lines && m.lines[c].submitted == [r]
    case Active(c) => c in m.lines && m.lines[c].active == [r]
    case _ => true
  }

  /** What holds at every step. It puts every request ever submitted in exactly one place. */
  predicate Wf(cap: nat, m: State) {
    && (forall n {:trigger ServerOk(cap, m, n)} | n in m.servers :: ServerOk(cap, m, n))
    && (forall c {:trigger LineOk(m, c)} | c in m.lines :: LineOk(m, c))
    && (forall r {:trigger PlaceOk(m, r)} | r in m.at :: PlaceOk(m, r))
  }

  lemma WfLinked(cap: nat, m: State)
    requires Wf(cap, m)
    ensures Linked(m)
  {
    forall n, c | n in m.servers && c in m.servers[n].conns ensures c in m.lines {
      assert ServerOk(cap, m, n);
    }
  }

  lemma ResetWf(cap: nat, m: State)
    ensures Wf(cap, Reset(m)) && Linked(Reset(m))
  {
    var m' := Reset(m);
    forall r | r in m'.at ensures PlaceOk(m', r) { assert m'.at[r] in {Finished, Failed, Dropped}; }
  }

  lemma EnqueueServer(cap: nat, m: State, r: Request, n: NetLoc)
    requires Wf(cap, m) && (r in m.at ==> m.at[r] == Retrying) && n in Enqueue(m, r).servers
    ensures ServerOk(cap, Enqueue(m, r), n)
  {
    if n in m.servers { assert ServerOk(cap, m, n); }
  }

  lemma EnqueueLine(cap: nat, m: State, r: Request, c: nat)
    requires Wf(cap, m) && (r in m.at ==> m.at[r] == Retrying) && c in m.lines
    ensures LineOk(Enqueue(m, r), c)
  {
    assert LineOk(m, c);
  }

  lemma EnqueuePlace(cap: nat, m: State, r: Request, q: Request)
    requires Wf(cap, m) && (r in m.at ==> m.at[r] == Retrying) && q in Enqueue(m, r).at
    ensures PlaceOk(Enqueue(m, r), q)
  {
    if q != r { assert PlaceOk(m, q); }
  }

  lemma EnqueueWf(cap: nat, m: State, r: Request)
    requires Wf(cap, m) && (r in m.at ==> m.at[r] == Retrying)
    ensures Wf(cap, Enqueue(m, r))
  {
    var m' := Enqueue(m, r);
    forall n <- m'.servers ensures ServerOk(cap, m', n) { EnqueueServer(cap, m, r, n); }
    forall c <- m'.lines ensures LineOk(m', c) { EnqueueLine(cap, m, r, c); }
    forall q <- m'.at ensures PlaceOk(m', q) { EnqueuePlace(cap, m, r, q); }
  }

  lemma DistinctSnoc<T>(s: seq<T>, x: T)
    requires Distinct(s) && x !in s
    ensures Distinct(s + [x])
  {
  }

  lemma NextIsFresh(cap: nat, m: State)
    requires Wf(cap, m)
    ensures m.next !in m.lines && forall n | n in m.servers :: m.next !in m.servers[n].conns
  {
    forall c <- m.lines ensures c < m.next { assert LineOk(m, c); }
    forall n | n in m.servers ensures m.next !in m.servers[n].conns { assert ServerOk(cap, m, n); }
  }

  lemma ConnectServer(cap: nat, m: State, n: NetLoc, k: NetLoc)
    requires Wf(cap, m) && n in m.servers && |m.servers[n].conns| < cap && k in m.servers
    ensures ServerOk(cap, Connect(m, n), k)
  {
    assert ServerOk(cap, m, k);
    NextIsFresh(cap, m);
    DistinctSnoc(m.servers[k].conns, m.next);
  }

  lemma ConnectPlace(cap: nat, m: State, n: NetLoc, q: Request)
    requires Wf(cap, m) && n in m.servers && q in m.at
    ensures PlaceOk(Connect(m, n), q)
  {
    assert PlaceOk(m, q);
    NextIsFresh(cap, m);
  }

  lemma ConnectWf(cap: nat, m: State, n: NetLoc)
    requires Wf(cap, m) && n in m.servers && |m.servers[n].conns| < cap
    ensures Wf(cap, Connect(m, n))
  {
    var m' := Connect(m, n);
    forall k <- m'.servers ensures ServerOk(cap, m', k) { ConnectServer(cap, m, n, k); }
    forall c <- m'.lines ensures LineOk(m', c) { if c != m.next { assert LineOk(m, c); } }
    forall q <- m'.at ensures PlaceOk(m', q) { ConnectPlace(cap, m, n, q); }
  }

  // ---- moves that change one line and the places of the requests on it ----

  /** `m'` differs from `m` in line `c`, in the places of `moved`, and perhaps in one server's list. */
  predicate Touches(m: State, m': State, c: nat, moved: set<Request>) {
    && m'.next == m.next && m'.lines.Keys == m.lines.Keys && c in m.lines
    && m'.servers.Keys == m.servers.Keys && (forall n <- m.servers :: m'.servers[n].conns == m.servers[n].conns)
    && (forall d <- m.lines :: if d == c then m'.lines[d].loc == m.lines[d].loc else m'.lines[d] == m.lines[d])
    && m'.at.Keys == m.at.Keys && (forall q <- m.at :: q !in moved ==> m'.at[q] == m.at[q])
  }

  lemma UntouchedServer(cap: nat, m: State, m': State, c: nat, moved: set<Request>, n: NetLoc)
    requires Wf(cap, m) && Touches(m, m', c, moved) && n in m.servers && m'.servers[n] == m.servers[n]
    requires forall q | q in m.servers[n].requests :: q !in moved
    ensures ServerOk(cap, m', n)
  {
    assert ServerOk(cap, m, n);
  }

  lemma UntouchedLine(cap: nat, m: State, m': State, c: nat, moved: set<Request>, d: nat)
    requires Wf(cap, m) && Touches(m, m', c, moved) && d in m.lines && d != c
    requires forall q <- moved :: q in m.at && m.at[q] in {Waiting, Active(c), Pending(c)}
    ensures LineOk(m', d)
  {
    assert LineOk(m, d);
  }

  lemma UntouchedPlace(cap: nat, m: State, m': State, c: nat, moved: set<Request>, q: Request)
    requires Wf(cap, m) && Touches(m, m', c, moved) && q in m.at && q !in moved
    requires m.at[q] == Waiting ==> q.loc in m'.servers && q in m'.servers[q.loc].requests
    requires forall p | p in m.at && m.at[p] in {Active(c), Pending(c)} :: p in moved
    ensures PlaceOk(m', q)
  {
    assert PlaceOk(m, q);
  }

  /** The requests on line `c`. */
  function On(l: Line): set<Request> {
    (if l.active == [] then {} else {l.active[0]}) + (if l.submitted == [] then {} else {l.submitted[0]})
  }

  lemma OnLine(cap: nat, m: State, c: nat)
    requires Wf(cap, m) && c in m.lines
    ensures forall q | q in m.at && m.at[q] in {Active(c), Pending(c)} :: q in On(m.lines[c])
    ensures forall q <- On(m.lines[c]) :: q in m.at && m.at[q] in {Active(c), Pending(c)}
  {
    assert LineOk(m, c);
    forall q | q in m.at && m.at[q] in {Active(c), Pending(c)} ensures q in On(m.lines[c]) { assert PlaceOk(m, q); }
  }

  lemma WaitingNotOn(cap: nat, m: State, c: nat, n: NetLoc)
    requires Wf(cap, m) && c in m.lines && n in m.servers
    ensures forall q <- m.servers[n].requests :: q.loc == n && q in m.at && m.at[q] == Waiting && q !in On(m.lines[c])
  {
    assert ServerOk(cap, m, n);
    OnLine(cap, m, c);
  }

  predicate CanHand(cap: nat, m: State, n: NetLoc, c: nat) {
    Wf(cap, m) && n in m.servers && m.servers[n].requests != [] && c in m.lines && m.lines[c].loc == n
      && QueueSize(m.lines[c]) <= 1
  }

  /** The requests a hand-over is about. */
  function HandMoves(m: State, n: NetLoc, c: nat): set<Request>
    requires n in m.servers && m.servers[n].requests != [] && c in m.lines
  {
    On(m.lines[c]) + {m.servers[n].requests[0]}
  }

  lemma HandTouches(cap: nat, m: State, n: NetLoc, c: nat)
    requires CanHand(cap, m, n, c)
    ensures Touches(m, Hand(m, n, c), c, HandMoves(m, n, c))
  {
    OnLine(cap, m, c);
    WaitingNotOn(cap, m, c, n);
  }

  lemma HandPlaces(cap: nat, m: State, n: NetLoc, c: nat)
    requires CanHand(cap, m, n, c)
    ensures LineOk(Hand(m, n, c), c)
    ensures forall q <- HandMoves(m, n, c) :: q in m.at && PlaceOk(Hand(m, n, c), q)
  {
    OnLine(cap, m, c);
    WaitingNotOn(cap, m, c, n);
    assert LineOk(m, c);
  }

  lemma HandServer(cap: nat, m: State, n: NetLoc, c: nat)
    requires CanHand(cap, m, n, c) && Touches(m, Hand(m, n, c), c, HandMoves(m, n, c))
    ensures ServerOk(cap, Hand(m, n, c), n)
  {
    var s := m.servers[n];
    WaitingNotOn(cap, m, c, n);
    assert ServerOk(cap, m, n);
    TailDistinct(s.requests);
    assert Hand(m, n, c).servers[n].requests == s.requests[1..];
    assert forall q <- s.requests[1..] :: q !in HandMoves(m, n, c);
  }

  lemma TailDistinct<T>(s: seq<T>)
    requires s != [] && Distinct(s)
    ensures Distinct(s[1..]) && s[0] !in s[1..] && s == [s[0]] + s[1..]
  {
  }

  lemma HandWf(cap: nat, m: State, n: NetLoc, c: nat)
    requires CanHand(cap, m, n, c)
    ensures Wf(cap, Hand(m, n, c))
  {
    var m', moved := Hand(m, n, c), HandMoves(m, n, c);
    HandTouches(cap, m, n, c);
    HandPlaces(cap, m, n, c);
    OnLine(cap, m, c);
    WaitingNotOn(cap, m, c, n);
    forall k <- m'.servers ensures ServerOk(cap, m', k) {
      if k == n {
        HandServer(cap, m, n, c);
      } else {
        WaitingNotOn(cap, m, c, k);
        UntouchedServer(cap, m, m', c, moved, k);
      }
    }
    forall d <- m'.lines ensures LineOk(m', d) { if d != c { UntouchedLine(cap, m, m', c, moved, d); } }
    forall q <- m'.at ensures PlaceOk(m', q) { if q !in moved { HandPlace(cap, m, n, c, q); } }
  }

  lemma HandPlace(cap: nat, m: State, n: NetLoc, c: nat, q: Request)
    requires CanHand(cap, m, n, c) && q in m.at && q !in On(m.lines[c]) && q != m.servers[n].requests[0]
    ensures PlaceOk(Hand(m, n, c), q)
  {
    HandTouches(cap, m, n, c);
    OnLine(cap, m, c);
    assert PlaceOk(m, q);
    assert m.servers[n].requests == [m.servers[n].requests[0]] + m.servers[n].requests[1..];
    UntouchedPlace(cap, m, Hand(m, n, c), c, HandMoves(m, n, c), q);
  }

  /** A move among the requests of one line. */
  lemma LineWf(cap: nat, m: State, m': State, c: nat)
    requires Wf(cap, m) && c in m.lines && Touches(m, m', c, On(m.lines[c])) && m'.servers == m.servers
    requires LineOk(m', c) && forall q <- On(m.lines[c]) :: q in m.at && PlaceOk(m', q)
    ensures Wf(cap, m')
  {
    var moved := On(m.lines[c]);
    OnLine(cap, m, c);
    forall k <- m'.servers ensures ServerOk(cap, m', k) {
      WaitingNotOn(cap, m, c, k);
      UntouchedServer(cap, m, m', c, moved, k);
    }
    forall d <- m'.lines ensures LineOk(m', d) { if d != c { UntouchedLine(cap, m, m', c, moved, d); } }
    forall q <- m'.at ensures PlaceOk(m', q) {
      if q !in moved { assert PlaceOk(m, q); UntouchedPlace(cap, m, m', c, moved, q); }
    }
  }

  lemma FinishWf(cap: nat, m: State, c: nat)
    requires Wf(cap, m) && c in m.lines && m.lines[c].active != []
    ensures Wf(cap, Finish(m, c))
  {
    assert LineOk(m, c);
    OnLine(cap, m, c);
    LineWf(cap, m, Finish(m, c), c);
  }

  lemma ResumeWf(cap: nat, m: State, c: nat)
    requires Wf(cap, m) && c in m.lines
    ensures Wf(cap, Resume(m, c))
  {
    assert LineOk(m, c);
    OnLine(cap, m, c);
    LineWf(cap, m, Resume(m, c), c);
  }

  lemma DistinctCons(s: seq<nat>, t: seq<nat>)
    requires s != [] && Distinct(s) && Distinct(t) && forall d :: d in t ==> d in s[1..]
    ensures Distinct([s[0]] + t)
  {
    assert s[0] !in s[1..];
  }

  lemma WithoutDistinct(conns: seq<nat>, c: nat)
    requires Distinct(conns)
    ensures Distinct(Without(conns, c)) && c !in Without(conns, c)
    ensures forall d :: d in conns && d != c ==> d in Without(conns, c)
  {
    if conns != [] {
      assert conns == [conns[0]] + conns[1..];
      if conns[0] != c {
        WithoutDistinct(conns[1..], c);
        DistinctCons(conns, Without(conns[1..], c));
      }
    }
  }

  predicate CanRelease(cap: nat, m: State, c: nat) {
    Wf(cap, m) && c in m.lines && m.lines[c].submitted == []
  }

  lemma ReleaseServer(cap: nat, m: State, c: nat, k: NetLoc)
    requires CanRelease(cap, m, c) && k in Release(m, c).servers
    ensures ServerOk(cap, Release(m, c), k)
  {
    if k == m.lines[c].loc { ReleaseHere(cap, m, c); } else { ReleaseElsewhere(cap, m, c, k); }
  }

  lemma ReleaseHere(cap: nat, m: State, c: nat)
    requires CanRelease(cap, m, c) && m.lines[c].loc in Release(m, c).servers
    ensures ServerOk(cap, Release(m, c), m.lines[c].loc)
  {
    var n := m.lines[c].loc;
    assert LineOk(m, c) && ServerOk(cap, m, n);
    WithoutDistinct(m.servers[n].conns, c);
  }

  lemma ReleaseElsewhere(cap: nat, m: State, c: nat, k: NetLoc)
    requires CanRelease(cap, m, c) && k in Release(m, c).servers && k != m.lines[c].loc
    ensures ServerOk(cap, Release(m, c), k)
  {
    assert LineOk(m, c) && ServerOk(cap, m, k) && ServerOk(cap, m, m.lines[c].loc);
  }

  lemma ReleaseLine(cap: nat, m: State, c: nat, d: nat)
    requires CanRelease(cap, m, c) && d in m.lines && d != c
    ensures LineOk(Release(m, c), d)
  {
    assert LineOk(m, c) && LineOk(m, d) && ServerOk(cap, m, m.lines[c].loc);
    WithoutDistinct(m.servers[m.lines[c].loc].conns, c);
  }

  lemma ReleasePlace(cap: nat, m: State, c: nat, q: Request)
    requires CanRelease(cap, m, c) && q in m.at
    ensures PlaceOk(Release(m, c), q)
  {
    assert LineOk(m, c) && PlaceOk(m, q) && ServerOk(cap, m, m.lines[c].loc);
  }

  lemma ReleaseWf(cap: nat, m: State, c: nat)
    requires CanRelease(cap, m, c)
    ensures Wf(cap, Release(m, c))
  {
    var m' := Release(m, c);
    forall k <- m'.servers ensures ServerOk(cap, m', k) { ReleaseServer(cap, m, c, k); }
    forall d <- m'.lines ensures LineOk(m', d) { ReleaseLine(cap, m, c, d); }
    forall q <- m'.at ensures PlaceOk(m', q) { ReleasePlace(cap, m, c, q); }
  }
}
