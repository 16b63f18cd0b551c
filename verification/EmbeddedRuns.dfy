/** What holds in every run of the embedded-object scheduler. */
module EmbeddedRuns {
  import opened EmbeddedObjects

  // ---- the queues, the connections and the record of every object agree ----

  predicate NoDup(q: seq<Path>) { forall i, j | 0 <= i < j < |q| :: q[i] != q[j] }

  predicate TasksOk(s: State, h: Host)
    requires h in s.tasks
  {
    && NoDup(s.tasks[h].pending)
    && (forall p <- s.tasks[h].added :: Object(h, p) in s.at)
    && (forall p <- s.tasks[h].pending :: Object(h, p) in s.at && s.at[Object(h, p)] == Queued)
  }

  predicate ObjectOk(s: State, o: Object)
    requires o in s.at
  {
    && o.host in s.tasks && o.path in s.tasks[o.host].added && s.tasks[o.host].reachable
    && (s.at[o].Queued? ==> o.path in s.tasks[o.host].pending)
    && (s.at[o].InFlight? ==> s.at[o].fd in s.conns && s.conns[s.at[o].fd] == o)
  }

  ghost predicate QueuesOk(s: State) {
    && (forall h {:trigger TasksOk(s, h)} | h in s.tasks :: TasksOk(s, h))
    && (forall o {:trigger ObjectOk(s, o)} | o in s.at :: ObjectOk(s, o))
  }

  predicate Flying(s: State, fd: nat)
    requires fd in s.conns
  {
    fd < s.next && s.conns[fd] in s.at && s.at[s.conns[fd]] == InFlight(fd)
  }

  ghost predicate FlightsOk(s: State) { forall fd {:trigger Flying(s, fd)} | fd in s.conns :: Flying(s, fd) }

  function Done(at: map<Object, Place>): set<Object> { set o | o in at && at[o] == Completed }

  function Waiting(at: map<Object, Place>): set<Object> { set o | o in at && at[o] == Queued }

  function LostOf(at: map<Object, Place>, h: Host): set<Object> { set o | o in at && o.host == h && at[o] == Lost }

  function To(conns: map<nat, Object>, h: Host): set<nat> { set fd | fd in conns && conns[fd].host == h }

  /** The connections to a host. */
  function Open(s: State, h: Host): set<nat> { To(s.conns, h) }

  lemma ToInsert(conns: map<nat, Object>, fd: nat, o: Object, h: Host)
    requires fd !in conns
    ensures To(conns[fd := o], h) == To(conns, h) + if o.host == h then {fd} else {}
  {
  }

  /** The maximum, except that the document's own connection may be used again whatever that is. */
  function Limit(c: Config, h: Host): int {
    if h == c.first && c.max < 1 then 1 else if c.max < 0 then 0 else c.max
  }

  /** Connections never exceed `running`, and that never the limit. */
  predicate SlotsOk(c: Config, s: State, h: Host)
    requires h in s.tasks
  {
    |Open(s, h)| <= s.tasks[h].running <= Limit(c, h)
  }

  ghost predicate AllSlotsOk(c: Config, s: State) { forall h {:trigger SlotsOk(c, s,
          h)} | h in s.tasks :: SlotsOk(c, s, h) }

  /** A host with objects waiting has the maximum of connections, less those it has lost. */
  predicate Served(c: Config, s: State, h: Host)
    requires h in s.tasks
  {
    s.tasks[h].pending != [] ==> |Open(s, h)| + |LostOf(s.at, h)| >= c.max
  }

  ghost predicate AllServed(c: Config, s: State) { forall h {:trigger Served(c, s,
          h)} | h in s.tasks :: Served(c, s, h) }

  // ---- browser_get_embedded_objects ----

  /** As the document is parsed: nothing but queues. */
  ghost predicate Loaded(c: Config, s: State, n: nat) {
    && n == |s.at| && (forall o <- s.at :: s.at[o] == Queued)
    && (forall h <- s.tasks :: s.tasks[h].running == 0 && s.tasks[h].reachable == (h in c.reachable))
  }

  ghost predicate Parsing(c: Config, s: State, n: nat) { QueuesOk(s) && Loaded(c, s, n) }

  lemma InitQueues(c: Config, s: State, h: Host)
    requires QueuesOk(s)
    ensures QueuesOk(InitHost(c, s, h))
  {
    var s1 := InitHost(c, s, h);
    forall x | x in s1.tasks ensures TasksOk(s1, x) { assert x in s.tasks ==> TasksOk(s, x); }
    forall o | o in s1.at ensures ObjectOk(s1, o) { assert ObjectOk(s, o); }
  }

  lemma PushQueues(s: State, o: Object)
    requires QueuesOk(s) && o.host in s.tasks && Wanted(s, o)
    ensures o !in s.at && QueuesOk(Push(s, o))
  {
    var s1 := Push(s, o);
    assert TasksOk(s, o.host) && (o in s.at ==> ObjectOk(s, o));
    forall h | h in s1.tasks ensures TasksOk(s1, h) { assert TasksOk(s, h); }
    forall x | x in s1.at ensures ObjectOk(s1, x) { assert x != o ==> ObjectOk(s, x); }
  }

  /** Parsing changes queues only, and adds `more`. */
  ghost predicate Grown(s: State, s1: State, more: set<Object>) {
    s1 == s.(tasks := s1.tasks, at := s1.at) && s1.at.Keys == s.at.Keys + more && s.tasks.Keys <= s1.tasks.Keys
  }

  lemma PushLoaded(c: Config, s: State, n: nat, o: Object)
    requires Loaded(c, s, n) && o.host in s.tasks && o !in s.at
    ensures Loaded(c, Push(s, o), n + 1) && Grown(s, Push(s, o), {o})
  {
    assert Push(s, o).at.Keys == s.at.Keys + {o};
  }

  function If(b: bool, o: Object): set<Object> { if b then {o} else {} }

  lemma AddParsing(c: Config, s: State, n: nat, u: Url)
    requires Parsing(c, s, n)
    ensures var r, o := Add(c, s, n, u), Resolve(c.first, u);
            Parsing(c, r.0, r.1) && Grown(s, r.0, If(o.host in c.reachable, o))
  {
    var o := Resolve(c.first, u);
    InitParsing(c, s, n, o.host);
    AddResolved(c, InitHost(c, s, o.host), n, o);
  }

  lemma InitLoaded(c: Config, s: State, n: nat, h: Host)
    requires Loaded(c, s, n)
    ensures Loaded(c, InitHost(c, s, h), n)
  {
  }

  lemma InitParsing(c: Config, s: State, n: nat, h: Host)
    requires Parsing(c, s, n)
    ensures var s1 := InitHost(c, s, h);
            Parsing(c, s1, n) && s1 == s.(tasks := s1.tasks) && s1.tasks.Keys == s.tasks.Keys + {h}
  {
    InitQueues(c, s, h);
    InitLoaded(c, s, n, h);
  }

  lemma AddResolved(c: Config, s: State, n: nat, o: Object)
    requires Parsing(c, s, n) && o.host in s.tasks
    ensures var r := if Wanted(s, o) then (Push(s, o), n + 1) else (s, n);
            Parsing(c, r.0, r.1) && Grown(s, r.0, If(o.host in c.reachable, o))
  {
    if Wanted(s, o) {
      PushQueues(s, o);
      PushLoaded(c, s, n, o);
    } else if o.host in c.reachable {
      assert TasksOk(s, o.host) && o in s.at;
      assert s.at.Keys + {o} == s.at.Keys;
    }
  }

  /** The objects a document embeds: each resolved URL whose host resolves, once. */
  function Embedded(c: Config, urls: seq<Url>): set<Object>
    decreases |urls|
  {
    if urls == [] then {}
    else var o := Resolve(c.first, urls[0]); If(o.host in c.reachable, o) + Embedded(c, urls[1..])
  }

  /** What a URL of the document stands for: an absolute one names host and path; a relative one a path from
      the root of the first host, whether it begins with a slash or not. */
  predicate Denotes(first: Host, u: Url, o: Object) {
    match u
    case Absolute(host, path) => o.host == host && o.path == path
    case Relative(text) =>
      && o.host == first && o.path != "" && o.path[0] == '/'
      && (if text != "" && text[0] == '/' then o.path == text else o.path[1..] == text)
  }

  predicate Meant(first: Host, urls: seq<Url>, o: Object) { exists u :: u in urls && Denotes(first, u, o) }

  lemma ResolveDenotes(first: Host, u: Url, o: Object)
    ensures Denotes(first, u, o) <==> o == Resolve(first, u)
  {
    if u.Relative? {
      var text := u.text;
      assert "/" <= text <==> text != "" && text[0] == '/';
      if Denotes(first, u, o) && !("/" <= text) { assert o.path == [o.path[0]] + o.path[1..]; }
    }
  }

  lemma MeantFirst(first: Host, urls: seq<Url>, o: Object)
    requires urls != []
    ensures Meant(first, urls, o) <==> o == Resolve(first, urls[0]) || Meant(first, urls[1..], o)
  {
    ResolveDenotes(first, urls[0], o);
    if Meant(first, urls, o) {
      var u :| u in urls && Denotes(first, u, o);
      assert u == urls[0] || u in urls[1..];
    }
  }

  lemma {:induction false} EmbeddedMeant(c: Config, urls: seq<Url>, o: Object)
    ensures o in Embedded(c, urls) <==> o.host in c.reachable && Meant(c.first, urls, o)
    decreases |urls|
  {
    if urls != [] {
      MeantFirst(c.first, urls, o);
      EmbeddedMeant(c, urls[1..], o);
    }
  }

  lemma GrownTwice(s: State, s1: State, s2: State, a: set<Object>, b: set<Object>)
    requires Grown(s, s1, a) && Grown(s1, s2, b)
    ensures Grown(s, s2, a + b)
  {
    assert s.at.Keys + a + b == s.at.Keys + (a + b);
  }

  /** Parsing queues exactly what the URLs of the document stand for on hosts that resolve, each once. */
  lemma AddAllParsing(c: Config, s: State, n: nat, urls: seq<Url>)
    requires Parsing(c, s, n)
    ensures var r := AddAll(c, s, n, urls);
            && Parsing(c, r.0, r.1) && Grown(s, r.0, Embedded(c, urls))
            && (forall o :: o in r.0.at <==> o in s.at || (o.host in c.reachable && Meant(c.first, urls, o)))
  {
    AddAllGrows(c, s, n, urls);
    var r := AddAll(c, s, n, urls);
    forall o ensures o in r.0.at <==> o in s.at || (o.host in c.reachable && Meant(c.first, urls, o)) {
      EmbeddedMeant(c, urls, o);
      assert o in r.0.at <==> o in s.at.Keys + Embedded(c, urls);
    }
  }

  lemma {:induction false} AddAllGrows(c: Config, s: State, n: nat, urls: seq<Url>)
    requires Parsing(c, s, n)
    ensures var r := AddAll(c, s, n, urls); Parsing(c, r.0, r.1) && Grown(s, r.0, Embedded(c, urls))
    decreases |urls|
  {
    if urls == [] {
      assert s.at.Keys + {} == s.at.Keys;
    } else {
      var r, o := Add(c, s, n, urls[0]), Resolve(c.first, urls[0]);
      AddParsing(c, s, n, urls[0]);
      AddAllGrows(c, r.0, r.1, urls[1..]);
      GrownTwice(s, r.0, AddAll(c, r.0, r.1, urls[1..]).0, If(o.host in c.reachable, o), Embedded(c, urls[1..]));
    }
  }

  function Pending(s: State, h: Host): seq<Path> { if h in s.tasks then s.tasks[h].pending else [] }

  function Added(s: State, h: Host): set<Path> { if h in s.tasks then s.tasks[h].added else {} }

  /** The paths on host `h` that a document names, in the order in which it first names them. */
  function Named(c: Config, urls: seq<Url>, h: Host, before: set<Path>): seq<Path>
    decreases |urls|
  {
    if urls == [] then [] else
    var o := Resolve(c.first, urls[0]);
    if o.host == h && o.path !in before then [o.path] + Named(c, urls[1..], h, before + {o.path})
    else Named(c, urls[1..], h, before)
  }

  lemma AddOrder(c: Config, s: State, n: nat, u: Url, h: Host)
    requires forall k <- s.tasks :: s.tasks[k].reachable == (k in c.reachable)
    ensures var s1, o := Add(c, s, n, u).0, Resolve(c.first, u);
            if h in c.reachable && o.host == h && o.path !in Added(s, h)
            then Pending(s1, h) == Pending(s, h) + [o.path] && Added(s1, h) == Added(s, h) + {o.path}
            else Pending(s1, h) == Pending(s, h) && Added(s1, h) == Added(s, h)
  {
  }

  /** The objects of a host whose name resolves are queued in the order in which the document first names
      them. */
  lemma {:induction false} AddAllOrder(c: Config, s: State, n: nat, urls: seq<Url>, h: Host)
    requires Parsing(c, s, n)
    ensures Pending(AddAll(c, s, n, urls).0, h) ==
            Pending(s, h) + if h in c.reachable then Named(c, urls, h, Added(s, h)) else []
    decreases |urls|
  {
    if urls != [] {
      var r := Add(c, s, n, urls[0]);
      AddParsing(c, s, n, urls[0]);
      AddOrder(c, s, n, urls[0], h);
      AddAllOrder(c, r.0, r.1, urls[1..], h);
      NamedOn(c, urls, h, Pending(s, h), Pending(r.0, h), Added(s, h), Added(r.0, h));
    }
  }

  /** The first place in the document where an object is named. */
  predicate FirstNamed(first: Host, urls: seq<Url>, o: Object, i: nat) {
    && i < |urls| && Denotes(first, urls[i], o)
    && forall j | 0 <= j < i :: !Denotes(first, urls[j], o)
  }

  /** That queue holds what the document means on the host, but for what was added before, each once. */
  lemma {:induction false} NamedMeans(c: Config, urls: seq<Url>, h: Host, before: set<Path>, k: nat)
    requires k < |Named(c, urls, h, before)|
    ensures var q := Named(c, urls, h, before);
            q[k] !in before && Meant(c.first, urls, Object(h, q[k])) && forall l | 0 <= l < k :: q[l] != q[k]
    decreases |urls|
  {
    var o, q := Resolve(c.first, urls[0]), Named(c, urls, h, before);
    MeantFirst(c.first, urls, Object(h, q[k]));
    if o.host == h && o.path !in before {
      if k > 0 { NamedMeans(c, urls[1..], h, before + {o.path}, k - 1); }
    } else {
      NamedMeans(c, urls[1..], h, before, k);
    }
  }

  lemma NamedLater(first: Host, urls: seq<Url>, o: Object, i: nat)
    requires FirstNamed(first, urls, o, i)
    ensures urls != [] && (i == 0 <==> o == Resolve(first, urls[0]))
    ensures i > 0 ==> FirstNamed(first, urls[1..], o, i - 1)
  {
    ResolveDenotes(first, urls[0], o);
    if i > 0 {
      var rest := urls[1..];
      assert forall j | 0 <= j < i - 1 :: rest[j] == urls[j + 1];
    }
  }

  /** And what the document names first is first in it. */
  lemma {:induction false} NamedInOrder(c: Config, urls: seq<Url>, h: Host, before: set<Path>, l: nat, k: nat,
          i: nat, j: nat)
    requires l < k < |Named(c, urls, h, before)|
    requires FirstNamed(c.first, urls, Object(h, Named(c, urls, h, before)[l]), i)
    requires FirstNamed(c.first, urls, Object(h, Named(c, urls, h, before)[k]), j)
    ensures i < j
    decreases |urls|
  {
    var o, q := Resolve(c.first, urls[0]), Named(c, urls, h, before);
    NamedLater(c.first, urls, Object(h, q[l]), i);
    NamedLater(c.first, urls, Object(h, q[k]), j);
    NamedMeans(c, urls, h, before, l);
    NamedMeans(c, urls, h, before, k);
    if o.host == h && o.path !in before {
      assert q[0] == o.path && q[0] != q[k] && j > 0;
      if l > 0 {
        assert q[0] != q[l] && i > 0;
        NamedInOrder(c, urls[1..], h, before + {o.path}, l - 1, k - 1, i - 1, j - 1);
      }
    } else {
      assert o != Object(h, q[l]) && o != Object(h, q[k]);
      NamedInOrder(c, urls[1..], h, before, l, k, i - 1, j - 1);
    }
  }

  /** One URL more, as a sequence of paths. */
  lemma NamedOn(c: Config, urls: seq<Url>, h: Host, q: seq<Path>, q1: seq<Path>, a: set<Path>, a1: set<Path>)
    requires urls != []
    requires var o := Resolve(c.first, urls[0]);
             if h in c.reachable && o.host == h && o.path !in a then q1 == q + [o.path] && a1 == a + {o.path}
             else q1 == q && a1 == a
    ensures h in c.reachable ==> q1 + Named(c, urls[1..], h, a1) == q + Named(c, urls, h, a)
  {
  }

  // ---- one object goes out, comes in or is lost ----

  ghost predicate Agree(s: State) { QueuesOk(s) && FlightsOk(s) }

  /** Connection `fd`, open or not, is about to be given an object or closed. */
  ghost predicate AgreeBut(s: State, fd: nat) {
    && QueuesOk(s) && (forall f {:trigger Flying(s, f)} | f in s.conns && f != fd :: Flying(s, f))
    && (forall o <- s.at :: s.at[o] != InFlight(fd))
  }

  lemma MarkAgrees(s: State, fd: nat, p: Place)
    requires Agree(s) && fd in s.conns && p in {Completed, Missing, Lost}
    ensures Flying(s, fd) && AgreeBut(Mark(s, fd, p), fd)
  {
    var s1 := Mark(s, fd, p);
    assert Flying(s, fd);
    forall h | h in s1.tasks ensures TasksOk(s1, h) { assert TasksOk(s, h); }
    forall o | o in s1.at ensures ObjectOk(s1, o) && s1.at[o] != InFlight(fd) { assert ObjectOk(s, o); }
    forall f | f in s1.conns && f != fd ensures Flying(s1, f) { assert Flying(s, f); }
  }

  lemma DropAgrees(s: State, fd: nat, stale: nat)
    requires AgreeBut(s, fd)
    ensures Agree(s.(conns := s.conns - {fd}, stale := stale))
  {
    var s1 := s.(conns := s.conns - {fd}, stale := stale);
    forall h | h in s1.tasks ensures TasksOk(s1, h) { assert TasksOk(s, h); }
    forall o | o in s1.at ensures ObjectOk(s1, o) { assert ObjectOk(s, o); }
    forall f | f in s1.conns ensures Flying(s1, f) { assert Flying(s, f); }
  }

  lemma BeginAgrees(s: State, h: Host, fd: nat)
    requires AgreeBut(s, fd) && h in s.tasks && s.tasks[h].pending != [] && fd < s.next
    ensures Agree(Begin(s, h, fd))
  {
    var s1, o := Begin(s, h, fd), Object(h, s.tasks[h].pending[0]);
    assert TasksOk(s, h) && ObjectOk(s, o);
    forall x | x in s1.tasks ensures TasksOk(s1, x) { assert TasksOk(s, x); }
    forall x | x in s1.at ensures ObjectOk(s1, x) { assert ObjectOk(s, x); }
    forall f | f in s1.conns ensures Flying(s1, f) { assert f != fd ==> Flying(s, f); }
  }

  /** Neither `running` nor the phase nor the counters matter here. */
  lemma AgreeAlike(s: State, s1: State)
    requires Agree(s) && s1.at == s.at && s1.conns == s.conns && s1.next >= s.next && s1.tasks.Keys == s.tasks.Keys
    requires forall h <- s.tasks :: s1.tasks[h] == s.tasks[h].(running := s1.tasks[h].running)
    ensures Agree(s1)
  {
    forall h | h in s1.tasks ensures TasksOk(s1, h) { assert TasksOk(s, h); }
    forall o | o in s1.at ensures ObjectOk(s1, o) { assert ObjectOk(s, o); }
    forall f | f in s1.conns ensures Flying(s1, f) { assert Flying(s, f); }
  }

  // ---- browser_start_tasks ----

  /** As connections are opened: each host has as many as `running` says, and none is lost yet. */
  ghost predicate Opening(s: State) {
    && Agree(s) && (forall h <- s.tasks :: |Open(s, h)| == s.tasks[h].running)
    && (forall o <- s.at :: s.at[o].Queued? || s.at[o].InFlight?)
  }

  predicate Within(c: Config, s: State, h: Host)
    requires h in s.tasks
  {
    s.tasks[h].running <= Limit(c, h)
  }

  ghost predicate AllWithin(c: Config, s: State) { forall h {:trigger Within(c, s,
          h)} | h in s.tasks :: Within(c, s, h) }

  /** What `browser_start_tasks` has done with host `h`. */
  predicate Full(c: Config, s: State, h: Host)
    requires h in s.tasks
  {
    s.tasks[h].pending == [] || s.tasks[h].running >= c.max
  }

  lemma StartOneAgrees(s: State, h: Host)
    requires Agree(s) && h in s.tasks && s.tasks[h].pending != []
    ensures s.next !in s.conns && Agree(StartOne(s, h))
  {
    var s0 := s.(next := s.next + 1);
    AgreeAlike(s, s0);
    assert s.next in s.conns ==> Flying(s, s.next);
    FreshAgrees(s0, s.next);
    BeginAgrees(s0, h, s.next);
    AgreeAlike(Begin(s0, h, s.next), StartOne(s, h));
  }

  lemma StartOneCounts(c: Config, s: State, h: Host, x: Host)
    requires h in s.tasks && s.tasks[h].pending != [] && s.next !in s.conns && x in s.tasks
    requires |Open(s, x)| == s.tasks[x].running
    ensures |Open(StartOne(s, h), x)| == StartOne(s, h).tasks[x].running
  {
    ToInsert(s.conns, s.next, Object(h, s.tasks[h].pending[0]), x);
  }

  lemma StartOneOpens(c: Config, s: State, h: Host)
    requires Opening(s) && AllWithin(c, s) && h in s.tasks && s.tasks[h].pending != [] && s.tasks[h].running < c.max
    ensures Opening(StartOne(s, h)) && AllWithin(c, StartOne(s, h))
  {
    var s1 := StartOne(s, h);
    StartOneAgrees(s, h);
    forall x | x in s1.tasks ensures |Open(s1, x)| == s1.tasks[x].running { StartOneCounts(c, s, h, x); }
    forall x | x in s1.tasks ensures Within(c, s1, x) { assert Within(c, s, x); }
  }

  lemma FreshAgrees(s: State, fd: nat)
    requires Agree(s) && fd !in s.conns
    ensures AgreeBut(s, fd)
  {
    assert forall o | o in s.at :: ObjectOk(s, o);
  }

  /** `browser_start_tasks` touches neither the table of hosts nor the counters, and only host `h`. */
  ghost predicate Kept(s: State, s1: State) {
    s1.tasks.Keys == s.tasks.Keys && s1.at.Keys == s.at.Keys && s1.phase == s.phase && s1.stale == s.stale &&
    s1.expected == s.expected && s1.completed == s.completed
  }

  ghost predicate OnlyHost(s: State, s1: State, h: Host) {
    Kept(s, s1) && (forall x <- s.tasks :: x != h ==> s1.tasks[x] == s.tasks[x])
  }

  lemma StartOneKeeps(s: State, h: Host)
    requires QueuesOk(s) && h in s.tasks && s.tasks[h].pending != []
    ensures OnlyHost(s, StartOne(s, h), h)
  {
    assert TasksOk(s, h);
    assert StartOne(s, h).at.Keys == s.at.Keys;
  }

  lemma {:induction false} StartHostOpens(c: Config, s: State, h: Host)
    requires Opening(s) && AllWithin(c, s) && h in s.tasks
    ensures var s1 := StartHost(c, s, h);
            Opening(s1) && AllWithin(c, s1) && OnlyHost(s, s1, h) && Full(c, s1, h)
    decreases |s.tasks[h].pending|
  {
    if s.tasks[h].running < c.max && s.tasks[h].pending != [] {
      StartOneOpens(c, s, h);
      StartOneKeeps(s, h);
      StartHostOpens(c, StartOne(s, h), h);
    }
  }

  lemma {:induction false} StartAllOpens(c: Config, s: State, order: seq<Host>)
    requires Opening(s) && AllWithin(c, s)
    ensures var s1 := StartAll(c, s, order);
            && Opening(s1) && AllWithin(c, s1) && Kept(s, s1)
            && (forall h {:trigger Full(c, s1, h)} | h in s.tasks && (h in order || Full(c, s, h)) :: Full(c, s1, h))
    decreases |order|
  {
    if order != [] {
      var h, s1 := order[0], StartHost(c, s, order[0]);
      if h in s.tasks { StartHostOpens(c, s, h); }
      StartAllOpens(c, s1, order[1..]);
      assert order == [h] + order[1..];
      assert forall x | x in s.tasks && (x in order || Full(c, s, x)) :: x in order[1..] || Full(c, s1, x);
    }
  }

  // ---- the invariant of a run ----

  /** Before the document is there. */
  ghost predicate Before(c: Config, s: State) {
    && s.at == map[] && s.tasks.Keys == {c.first} && s.tasks[c.first] == Tasks([], 0, {}, c.first in c.reachable)
    && (forall fd <- s.conns :: fd < s.next && s.conns[fd].host == c.first)
    && s.expected == s.completed == 0
    && (s.phase == Document ==> |s.conns| == 1) && (s.phase == Hibernate ==> s.conns == map[])
  }

  /** The part of the invariant that does not depend on the phase. */
  ghost predicate Running(c: Config, s: State) {
    && Agree(s) && AllSlotsOk(c, s) && AllServed(c, s)
    && s.expected == |s.at| && s.completed == |Done(s.at)|
  }

  ghost predicate After(c: Config, s: State) {
    && Running(c, s)
    && (s.phase == Success ==> s.conns == map[] && (s.stale == 0 || s.at == map[]))
  }

  ghost predicate Inv(c: Config, s: State) {
    match s.phase
    case Document => Before(c, s)
    case Hibernate => Before(c, s)
    case Objects => After(c, s) && (s.conns == map[] ==> s.stale > 0 || c.max < 1)
    case Success => After(c, s)
    case _ => true
  }

  lemma OpenedIsAfter(c: Config, s: State)
    requires Opening(s) && AllWithin(c, s) && (forall h | h in s.tasks :: Full(c, s, h)) && s.phase == Objects
    requires s.expected == |s.at| && s.completed == 0
    ensures After(c, s)
  {
    forall h | h in s.tasks ensures SlotsOk(c, s, h) && Served(c, s, h) { assert Within(c, s, h) && Full(c, s, h); }
    assert Done(s.at) == {};
  }

  // ---- browser_downloaded_document ----

  lemma DocumentParses(c: Config, s: State, urls: seq<Url>)
    requires Before(c, s)
    ensures var r := AddAll(c, s, 0, urls);
            && Parsing(c, r.0, r.1) && r.0 == s.(tasks := r.0.tasks, at := r.0.at)
            && r.0.at.Keys == Embedded(c, urls) && c.first in r.0.tasks
  {
    assert Parsing(c, s, 0) by { assert TasksOk(s, c.first); }
    AddAllParsing(c, s, 0, urls);
    assert s.at.Keys + Embedded(c, urls) == Embedded(c, urls);
  }

  /** The document's connection goes on with the first object of its host, or closes. */
  function Reused(c: Config, s: State, fd: nat): State
    requires fd in s.conns
  {
    var s1 := ReuseOrDrop(s, fd);
    if fd in s1.conns && c.first in s1.tasks then SetRunning(s1, c.first, 1) else s1
  }

  /** Parsing is over, and `fd` is the document's connection. */
  ghost predicate Parsed(c: Config, s: State, n: nat, fd: nat) {
    Parsing(c, s, n) && c.first in s.tasks && s.conns.Keys == {fd} && s.conns[fd].host == c.first && fd < s.next
  }

  lemma ReuseOpens(c: Config, s: State, n: nat, fd: nat)
    requires Parsed(c, s, n, fd) && s.tasks[c.first].pending != []
    ensures Opening(Reused(c, s, fd)) && Reused(c, s, fd).at.Keys == s.at.Keys
  {
    var s1 := Reused(c, s, fd);
    assert AgreeBut(s, fd) && TasksOk(s, c.first);
    BeginAgrees(s, c.first, fd);
    AgreeAlike(Begin(s, c.first, fd), s1);
    assert forall h | h in s1.tasks :: Open(s1, h) == if h == c.first then {fd} else {};
  }

  lemma DropOpens(c: Config, s: State, n: nat, fd: nat)
    requires Parsed(c, s, n, fd) && s.tasks[c.first].pending == []
    ensures Opening(Reused(c, s, fd)) && Reused(c, s, fd).conns == map[]
  {
    assert AgreeBut(s, fd);
    DropAgrees(s, fd, s.stale);
    assert forall h | h in s.tasks :: Open(Reused(c, s, fd), h) == {};
  }

  lemma ReusedOpens(c: Config, s: State, n: nat, fd: nat)
    requires Parsed(c, s, n, fd)
    ensures var s1 := Reused(c, s, fd);
            && Opening(s1) && AllWithin(c, s1) && s1.at.Keys == s.at.Keys && s1.tasks.Keys == s.tasks.Keys
            && (s1.conns == map[] <==> s.tasks[c.first].pending == [])
            && s1.stale == s.stale && s1.phase == s.phase
            && (forall h <- s.tasks :: s.tasks[h].pending == [] ==> s1.tasks[h].pending == [])
  {
    if s.tasks[c.first].pending != [] { ReuseOpens(c, s, n, fd); } else { DropOpens(c, s, n, fd); }
  }

  lemma {:induction false} NoneStarted(c: Config, s: State, order: seq<Host>)
    requires c.max <= 0
    ensures StartAll(c, s, order) == s
    decreases |order|
  {
    if order != [] { NoneStarted(c, s, order[1..]); }
  }

  lemma SomethingOpen(c: Config, s: State)
    requires Opening(s) && (forall h | h in s.tasks :: Full(c, s, h)) && s.at != map[] && c.max > 0
    ensures s.conns != map[]
  {
    var o :| o in s.at;
    assert ObjectOk(s, o);
    if s.at[o].Queued? {
      assert Full(c, s, o.host) && |Open(s, o.host)| > 0;
      var fd :| fd in Open(s, o.host);
    }
  }

  lemma FirstHasObjects(c: Config, s: State, n: nat)
    requires Parsing(c, s, n) && c.first in s.tasks
    ensures s.tasks[c.first].pending == [] <==> forall o <- s.at :: o.host != c.first
  {
    assert TasksOk(s, c.first);
    assert forall o | o in s.at :: ObjectOk(s, o);
    if s.tasks[c.first].pending != [] { assert Object(c.first, s.tasks[c.first].pending[0]) in s.at; }
  }

  /** What is there once the document has been parsed. */
  lemma DocumentDone(c: Config, s: State, fd: nat, urls: seq<Url>, order: seq<Host>)
    requires Before(c, s) && s.phase == Document && fd in s.conns && Visits(AddAll(c, s, 0, urls).0, order)
    ensures var s1 := OnDocument(c, s, fd, urls, order);
            && After(c, s1) && s1.at.Keys == Embedded(c, urls) && s1.stale == s.stale
            && s1.phase == (if Embedded(c, urls) == {} then Success else Objects)
            && (s1.phase == Objects ==>
                 (s1.conns == map[] <==> c.max <= 0 && forall o <- Embedded(c, urls) :: o.host != c.first))
  {
    DocumentParses(c, s, urls);
    var r := AddAll(c, s, 0, urls);
    assert s.conns.Keys == {fd} by { OnlyKey(s.conns, fd); }
    var s1 := Reused(c, r.0, fd);
    ReusedOpens(c, r.0, r.1, fd);
    FirstHasObjects(c, r.0, r.1);
    if r.1 == 0 {
      NothingEmbedded(c, r.0, s1);
    } else {
      var s2 := s1.(phase := Objects, expected := r.1, completed := 0);
      OpeningAlike(c, s1, s2);
      StartAllOpens(c, s2, order);
      var s3 := StartAll(c, s2, order);
      assert forall h | h in s3.tasks :: Full(c, s3, h);
      OpenedIsAfter(c, s3);
      if c.max <= 0 { NoneStarted(c, s2, order); } else { SomethingOpen(c, s3); }
    }
  }

  lemma OnlyKey(m: map<nat, Object>, k: nat)
    requires k in m && |m| == 1
    ensures m.Keys == {k}
  {
    assert |m.Keys - {k}| == 0;
  }

  lemma OpeningAlike(c: Config, s: State, s1: State)
    requires Opening(s) && AllWithin(c, s) && s1.at == s.at && s1.conns == s.conns && s1.next == s.next
    requires s1.tasks == s.tasks
    ensures Opening(s1) && AllWithin(c, s1)
  {
    AgreeAlike(s, s1);
    assert forall h | h in s.tasks :: Open(s1, h) == Open(s, h) && Within(c, s, h);
  }

  lemma QueueHolds(s: State, h: Host)
    requires QueuesOk(s) && h in s.tasks
    ensures s.tasks[h].pending != [] ==> s.at != map[]
  {
    assert TasksOk(s, h);
    if s.tasks[h].pending != [] { assert Object(h, s.tasks[h].pending[0]) in s.at; }
  }

  lemma NothingEmbedded(c: Config, s: State, s1: State)
    requires Opening(s1) && AllWithin(c, s1) && s1.at == map[] && s1.conns == map[] && s1.completed == s1.expected == 0
    ensures After(c, s1.(phase := Success))
  {
    var s2 := s1.(phase := Success);
    OpeningAlike(c, s1, s2);
    forall h | h in s2.tasks ensures SlotsOk(c, s2, h) && Served(c, s2, h) {
      assert Within(c, s2, h);
      QueueHolds(s2, h);
    }
    assert Done(s2.at) == {};
  }

  // ---- the outcome of an object ----

  predicate Losing(code: Code) { code in {Died, Refused, Other} }

  /** Whether the connection goes on with another object. */
  predicate Goes(s: State, fd: nat, code: Code)
    requires fd in s.conns
  {
    code == WouldBlock || (!Losing(code) && s.conns[fd].host in s.tasks && s.tasks[s.conns[fd].host].pending != [])
  }

  lemma OutcomeAgrees(s: State, fd: nat, code: Code)
    requires Agree(s) && fd in s.conns
    ensures Agree(OnOutcome(s, fd, code))
  {
    assert Flying(s, fd);
    if code != WouldBlock {
      var p := if code == Ok200 then Completed else if code == Err404 then Missing else Lost;
      MarkAgrees(s, fd, p);
      var s1 := if code == Ok200 then Mark(s, fd, p).(completed := s.completed + 1) else Mark(s, fd, p);
      assert AgreeBut(s1, fd) by { AgreeButAlike(Mark(s, fd, p), s1, fd); }
      if Goes(s, fd, code) { BeginAgrees(s1, s.conns[fd].host, fd); }
      else { DropAgrees(s1, fd, if code == Died then s.stale + 1 else s.stale); }
    }
  }

  lemma AgreeButAlike(s: State, s1: State, fd: nat)
    requires AgreeBut(s, fd) && s1 == s.(completed := s1.completed)
    ensures AgreeBut(s1, fd)
  {
    forall h | h in s1.tasks ensures TasksOk(s1, h) { assert TasksOk(s, h); }
    forall o | o in s1.at ensures ObjectOk(s1, o) { assert ObjectOk(s, o); }
    forall f | f in s1.conns && f != fd ensures Flying(s1, f) { assert Flying(s, f); }
  }

  lemma OutcomeOpen(s: State, fd: nat, code: Code, h: Host)
    requires Agree(s) && fd in s.conns
    ensures Open(OnOutcome(s, fd, code), h) ==
            Open(s, h) - if !Goes(s, fd, code) && h == s.conns[fd].host then {fd} else {}
  {
  }

  lemma OutcomeLost(s: State, fd: nat, code: Code, h: Host)
    requires Agree(s) && fd in s.conns
    ensures LostOf(OnOutcome(s, fd, code).at, h) ==
            LostOf(s.at, h) + if Losing(code) && h == s.conns[fd].host then {s.conns[fd]} else {}
  {
    var o := s.conns[fd];
    assert Flying(s, fd);
    if Goes(s, fd, code) && code != WouldBlock { assert TasksOk(s, o.host); }
  }

  /** The whole effect of an outcome on connections, losses and queues, host by host. */
  lemma OutcomeEffect(s: State, fd: nat, code: Code, h: Host)
    requires Agree(s) && fd in s.conns && h in s.tasks
    ensures var s1 := OnOutcome(s, fd, code);
            && h in s1.tasks && s1.tasks[h].running == s.tasks[h].running
            && Open(s1, h) == Open(s, h) - (if !Goes(s, fd, code) && h == s.conns[fd].host then {fd} else {})
            && LostOf(s1.at, h) ==
               LostOf(s.at, h) + (if Losing(code) && h == s.conns[fd].host then {s.conns[fd]} else {})
            && s1.tasks[h].pending == (if code != WouldBlock && Goes(s, fd, code) && h == s.conns[fd].host
                                       then s.tasks[h].pending[1..] else s.tasks[h].pending)
  {
    OutcomeOpen(s, fd, code, h);
    OutcomeLost(s, fd, code, h);
  }

  lemma DoneUpdate(at: map<Object, Place>, o: Object, p: Place)
    requires o in at && at[o] != Completed
    ensures at[o := p].Keys == at.Keys && |at[o := p]| == |at|
    ensures |Done(at[o := p])| == |Done(at)| + if p == Completed then 1 else 0
  {
    assert at[o := p].Keys == at.Keys;
    assert |at[o := p]| == |at[o := p].Keys| && |at| == |at.Keys|;
    assert Done(at[o := p]) == Done(at) + if p == Completed then {o} else {};
  }

  lemma OutcomeCounts(s: State, fd: nat, code: Code)
    requires Agree(s) && fd in s.conns && s.expected == |s.at| && s.completed == |Done(s.at)|
    ensures var s1 := OnOutcome(s, fd, code);
            s1.at.Keys == s.at.Keys && s1.expected == |s1.at| && s1.completed == |Done(s1.at)|
  {
    var o := s.conns[fd];
    assert Flying(s, fd);
    if code != WouldBlock {
      var p := if code == Ok200 then Completed else if code == Err404 then Missing else Lost;
      DoneUpdate(s.at, o, p);
      if Goes(s, fd, code) {
        assert TasksOk(s, o.host);
        DoneUpdate(s.at[o := p], Object(o.host, s.tasks[o.host].pending[0]), InFlight(fd));
      }
    }
  }

  lemma OutcomeSlots(c: Config, s: State, fd: nat, code: Code, h: Host)
    requires Agree(s) && fd in s.conns && h in s.tasks && SlotsOk(c, s, h) && Served(c, s, h)
    ensures var s1 := OnOutcome(s, fd, code); h in s1.tasks && SlotsOk(c, s1, h) && Served(c, s1, h)
  {
    OutcomeEffect(s, fd, code, h);
    assert Flying(s, fd) && s.conns[fd] !in LostOf(s.at, h);
    assert h == s.conns[fd].host ==> fd in Open(s, h);
  }

  lemma RunningAlike(c: Config, s: State)
    requires Running(c, s)
    ensures Running(c, s.(phase := Success))
  {
    var s1 := s.(phase := Success);
    AgreeAlike(s, s1);
    forall h | h in s1.tasks
      ensures SlotsOk(c, s1, h) && Served(c, s1, h)
    {
      assert SlotsOk(c, s, h) && Served(c, s, h);
    }
  }

  lemma OutcomeRunning(c: Config, s: State, fd: nat, code: Code)
    requires Running(c, s) && fd in s.conns
    ensures Running(c, OnOutcome(s, fd, code))
  {
    var s1 := OnOutcome(s, fd, code);
    OutcomeAgrees(s, fd, code);
    OutcomeCounts(s, fd, code);
    assert s1.tasks.Keys == s.tasks.Keys by { assert Flying(s, fd) && ObjectOk(s, s.conns[fd]); }
    forall h | h in s1.tasks ensures SlotsOk(c, s1, h) && Served(c, s1, h) {
      assert SlotsOk(c, s, h) && Served(c, s, h);
      OutcomeSlots(c, s, fd, code, h);
    }
  }

  lemma ObjectAfter(c: Config, s: State, fd: nat, code: Code)
    requires After(c, s) && s.phase == Objects && fd in s.conns
    ensures After(c, OnObject(s, fd, code))
  {
    OutcomeRunning(c, s, fd, code);
    RunningAlike(c, OnOutcome(s, fd, code));
  }

  // ---- whole runs ----

  lemma WakeInv(c: Config, s: State)
    requires Inv(c, s)
    ensures Inv(c, Step(c, s, Woken))
  {
  }

  lemma DocumentInv(c: Config, s: State, e: Event)
    requires s.phase == Document && Before(c, s) && e.Activated? && e.fd in s.conns && Fair(c, s, e)
    ensures Inv(c, OnDocumentCode(c, s, e))
  {
    if e.code == Ok200 { DocumentDone(c, s, e.fd, e.urls, e.order); }
    else { OnlyKey(s.conns, e.fd); }
  }

  lemma ObjectInv(c: Config, s: State, fd: nat, code: Code)
    requires s.phase == Objects && After(c, s) && fd in s.conns
    ensures Inv(c, OnObject(s, fd, code))
  {
    ObjectAfter(c, s, fd, code);
  }

  lemma RestInv(c: Config, s: State, e: Event)
    requires Inv(c, s) && (e == Woken || s.phase !in {Document, Objects})
    ensures Inv(c, Step(c, s, e))
  {
    if e == Woken { WakeInv(c, s); }
  }

  lemma StepInv(c: Config, s: State, e: Event)
    requires Inv(c, s) && Fair(c, s, e)
    ensures Inv(c, Step(c, s, e))
  {
    if e == Woken || s.phase !in {Document, Objects} { RestInv(c, s, e); }
    else if e.fd in s.conns {
      if s.phase == Document { DocumentInv(c, s, e); } else { ObjectInv(c, s, e.fd, e.code); }
    }
  }

  /** browser_activate and browser_wakeup, in any order and with any outcomes, keep the invariant. */
  lemma {:induction false} RunInv(c: Config, s: State, events: seq<Event>)
    requires Inv(c, s) && FairRun(c, s, events)
    ensures Inv(c, Run(c, s, events))
    decreases |events|
  {
    if events != [] {
      StepInv(c, s, events[0]);
      RunInv(c, Step(c, s, events[0]), events[1..]);
    }
  }

  lemma LaunchInv(c: Config)
    ensures Inv(c, Launch(c))
  {
  }

  function MissingOf(at: map<Object, Place>): set<Object> { set o | o in at && at[o] == Missing }

  function Gone(at: map<Object, Place>): set<Object> { set o | o in at && at[o] == Lost }

  function Carried(at: map<Object, Place>): set<Object> { set o | o in at && at[o].InFlight? }

  lemma {:induction false} Bijection(conns: map<nat, Object>, at: map<Object, Place>, flying: set<Object>)
    requires forall o <- flying :: o in at && at[o].InFlight? && at[o].fd in conns && conns[at[o].fd] == o
    requires forall fd <- conns :: conns[fd] in flying && at[conns[fd]].fd == fd
    ensures |conns| == |flying|
    decreases |conns|
  {
    if conns == map[] {
      assert flying == {};
    } else {
      var fd :| fd in conns;
      Bijection(conns - {fd}, at, flying - {conns[fd]});
    }
  }

  lemma OnePerConnection(s: State)
    requires Agree(s)
    ensures |s.conns| == |Carried(s.at)|
  {
    assert forall fd | fd in s.conns :: Flying(s, fd);
    assert forall o | o in s.at :: ObjectOk(s, o);
    Bijection(s.conns, s.at, Carried(s.at));
  }

  lemma SizesAdd(a: set<Object>, b: set<Object>)
    requires a !! b
    ensures |a + b| == |a| + |b|
  {
  }

  lemma Cover(at: map<Object, Place>)
    ensures at.Keys == Done(at) + MissingOf(at) + Gone(at) + Carried(at) + Waiting(at)
  {
  }

  lemma Parts(at: map<Object, Place>)
    ensures |at| == |Done(at)| + |MissingOf(at)| + |Gone(at)| + |Carried(at)| + |Waiting(at)|
  {
    Cover(at);
    SizesAdd(Done(at), MissingOf(at));
    SizesAdd(Done(at) + MissingOf(at), Gone(at));
    SizesAdd(Done(at) + MissingOf(at) + Gone(at), Carried(at));
    SizesAdd(Done(at) + MissingOf(at) + Gone(at) + Carried(at), Waiting(at));
    assert |at| == |at.Keys|;
  }

  /** No object is forgotten: all that were found are completed, missing, lost, in flight or waiting. */
  lemma Conserved(c: Config, s: State)
    requires After(c, s)
    ensures s.expected == s.completed + |MissingOf(s.at)| + |Gone(s.at)| + |s.conns| + |Waiting(s.at)|
  {
    OnePerConnection(s);
    Parts(s.at);
  }

  /** max_concurrent_downloads holds for every host, whatever happens to the connections. */
  lemma WithinMaximum(c: Config, s: State, h: Host)
    requires After(c, s) && c.max >= 1
    ensures |Open(s, h)| <= c.max
  {
    if h in s.tasks {
      assert SlotsOk(c, s, h);
    } else {
      assert forall fd | fd in s.conns :: Flying(s, fd);
      assert forall o | o in s.at :: ObjectOk(s, o);
      assert Open(s, h) == {};
    }
  }

  // ---- what success means ----

  /** Objects wait for `h` and no connection is left to fetch them. */
  predicate Stranded(s: State, h: Host) { h in s.tasks && s.tasks[h].pending != [] && Open(s, h) == {} }

  /** The activation loses the last connection to `h` while objects wait for it. */
  predicate LosesLast(s: State, e: Event, h: Host) {
    && e.Activated? && Losing(e.code) && s.phase == Objects && h in s.tasks
    && s.tasks[h].pending != [] && Open(s, h) == {e.fd}
  }

  lemma OutcomeStrands(s: State, fd: nat, code: Code, h: Host)
    requires Agree(s) && fd in s.conns
    ensures Stranded(OnOutcome(s, fd, code), h) <==>
            Stranded(s, h) || (h in s.tasks && Losing(code) && s.tasks[h].pending != [] && Open(s, h) == {fd})
  {
    assert Flying(s, fd) && ObjectOk(s, s.conns[fd]);
    assert OnOutcome(s, fd, code).tasks.Keys == s.tasks.Keys;
    if h in s.tasks {
      OutcomeEffect(s, fd, code, h);
      assert h == s.conns[fd].host <==> fd in Open(s, h);
    }
  }

  lemma StepStrands(c: Config, s: State, e: Event, h: Host)
    requires Inv(c, s) && s.phase in {Objects, Success}
    ensures Stranded(Step(c, s, e), h) <==> Stranded(s, h) || LosesLast(s, e, h)
    ensures Step(c, s, e).phase in {Objects, Success}
  {
    if s.phase == Objects && e.Activated? {
      if e.fd in s.conns {
        OutcomeStrands(s, e.fd, e.code, h);
        assert Open(Step(c, s, e), h) == Open(OnOutcome(s, e.fd, e.code), h);
      } else {
        assert e.fd !in Open(s, h);
      }
    }
  }

  ghost predicate EverLosesLast(c: Config, s: State, events: seq<Event>, h: Host)
    decreases |events|
  {
    events != [] && (LosesLast(s, events[0], h) || EverLosesLast(c, Step(c, s, events[0]), events[1..], h))
  }

  /** Over any run: a host is stranded if and only if its last connection was lost while objects waited. */
  lemma {:induction false} RunStrands(c: Config, s: State, events: seq<Event>, h: Host)
    requires Inv(c, s) && FairRun(c, s, events) && s.phase in {Objects, Success}
    ensures Stranded(Run(c, s, events), h) <==> Stranded(s, h) || EverLosesLast(c, s, events, h)
    ensures Run(c, s, events).phase in {Objects, Success}
    decreases |events|
  {
    if events != [] {
      StepInv(c, s, events[0]);
      StepStrands(c, s, events[0], h);
      RunStrands(c, Step(c, s, events[0]), events[1..], h);
    }
  }

  /** SB_SUCCESS after embedded objects: no getter has ever died, every object has its outcome or was left
      waiting, and it was left waiting only at a host that has lost the maximum of connections. */
  lemma SuccessMeans(c: Config, s: State)
    requires After(c, s) && s.phase == Success && s.at != map[]
    ensures s.stale == 0 && s.expected == s.completed + |MissingOf(s.at)| + |Gone(s.at)| + |Waiting(s.at)|
    ensures forall o <- s.at ::
            !s.at[o].InFlight? && (s.at[o] == Queued <==> Stranded(s, o.host) && o.path in s.tasks[o.host].pending)
    ensures forall o <- Waiting(s.at) :: |LostOf(s.at, o.host)| >= c.max
  {
    Conserved(c, s);
    forall o | o in s.at
      ensures !s.at[o].InFlight? && (s.at[o] == Queued <==> Stranded(s, o.host) && o.path in s.tasks[o.host].pending)
      ensures s.at[o] == Queued ==> |LostOf(s.at, o.host)| >= c.max
    {
      assert ObjectOk(s, o) && TasksOk(s, o.host) && Served(c, s, o.host);
      assert Open(s, o.host) == {};
    }
  }

  /** Without a loss, all objects have been completed or found missing. */
  lemma CleanSuccess(c: Config, s: State)
    requires After(c, s) && s.phase == Success && s.at != map[] && c.max >= 1 && Gone(s.at) == {}
    ensures Waiting(s.at) == {} && s.expected == s.completed + |MissingOf(s.at)|
  {
    assert forall o <- Waiting(s.at) :: LostOf(s.at, o.host) <= Gone(s.at) && |LostOf(s.at, o.host)| == 0;
    SuccessMeans(c, s);
    assert Waiting(s.at) == {};
  }

  lemma DocumentStale(c: Config, s: State, e: Event)
    requires s.phase == Document && Before(c, s) && e.Activated? && e.fd in s.conns && Fair(c, s, e) && s.stale > 0
    ensures var s1 := OnDocumentCode(c, s, e); s1.stale > 0 || s1.phase == Failure
  {
    if e.code == Ok200 { DocumentDone(c, s, e.fd, e.urls, e.order); }
  }

  lemma ObjectStale(s: State, fd: nat, code: Code)
    requires fd in s.conns
    ensures OnObject(s, fd, code).stale >= s.stale
  {
  }

  lemma StepStale(c: Config, s: State, e: Event)
    requires Inv(c, s) && Fair(c, s, e) && (s.stale > 0 || s.phase == Failure)
    ensures var s1 := Step(c, s, e); s1.stale > 0 || s1.phase == Failure
  {
    if e.Activated? && e.fd in s.conns {
      match s.phase
      case Document => DocumentStale(c, s, e);
      case Objects => ObjectStale(s, e.fd, e.code);
      case _ =>
    }
  }

  /** Once a getter has died, even while the document was fetched, a page with embedded objects never
      succeeds: its entry stays in the table. */
  lemma {:induction false} DeathIsFinal(c: Config, s: State, events: seq<Event>)
    requires Inv(c, s) && FairRun(c, s, events) && (s.stale > 0 || s.phase == Failure)
    ensures var s1 := Run(c, s, events);
            (s1.stale > 0 || s1.phase == Failure) && (s1.phase == Success ==> s1.at == map[])
    decreases |events|
  {
    if events != [] {
      StepInv(c, s, events[0]);
      StepStale(c, s, events[0]);
      DeathIsFinal(c, Step(c, s, events[0]), events[1..]);
    }
  }

  // ---- each object once ----

  function Rank(p: Place): nat { match p case Queued => 0 case InFlight(_) => 1 case _ => 2 }

  /** A step moves an object forward or leaves it alone. */
  predicate Forward(s: State, s1: State, o: Object)
    requires o in s.at
  {
    o in s1.at && (s1.at[o] == s.at[o] || Rank(s.at[o]) < Rank(s1.at[o]))
  }

  lemma OutcomeForward(s: State, fd: nat, code: Code, o: Object)
    requires Agree(s) && fd in s.conns && o in s.at
    ensures Forward(s, OnOutcome(s, fd, code), o)
  {
    assert Flying(s, fd) && ObjectOk(s, s.conns[fd]) && TasksOk(s, s.conns[fd].host);
  }

  /** So each object is requested at most once, and has one outcome. */
  lemma {:induction false} RunForward(c: Config, s: State, events: seq<Event>, o: Object)
    requires Inv(c, s) && FairRun(c, s, events) && s.phase in {Objects, Success} && o in s.at
    ensures Forward(s, Run(c, s, events), o)
    decreases |events|
  {
    if events != [] {
      var s1 := Step(c, s, events[0]);
      StepInv(c, s, events[0]);
      StepStrands(c, s, events[0], o.host);
      if s.phase == Objects && events[0].Activated? && events[0].fd in s.conns {
        OutcomeForward(s, events[0].fd, events[0].code, o);
      }
      assert Forward(s, s1, o);
      RunForward(c, s1, events[1..], o);
    }
  }

  // ---- the way to the end ----

  function Work(s: State): nat { |Waiting(s.at)| + |s.conns| }

  /** Some connection has an outcome. */
  predicate Busy(s: State, e: Event) { s.phase == Objects && e.Activated? && e.fd in s.conns && e.code != WouldBlock }

  lemma WaitingUpdate(at: map<Object, Place>, o: Object, p: Place)
    requires o in at && p != Queued
    ensures |Waiting(at[o := p])| == |Waiting(at)| - if at[o] == Queued then 1 else 0
  {
    assert Waiting(at[o := p]) == Waiting(at) - {o};
  }

  lemma WorkFalls(s: State, fd: nat, code: Code)
    requires Agree(s) && fd in s.conns && code != WouldBlock
    ensures Work(OnOutcome(s, fd, code)) == Work(s) - 1
  {
    var o, p := s.conns[fd], if code == Ok200 then Completed else if code == Err404 then Missing else Lost;
    assert Flying(s, fd);
    WaitingUpdate(s.at, o, p);
    if Goes(s, fd, code) {
      assert TasksOk(s, o.host);
      WaitingUpdate(s.at[o := p], Object(o.host, s.tasks[o.host].pending[0]), InFlight(fd));
    }
  }

  ghost predicate AllBusy(c: Config, s: State, events: seq<Event>)
    decreases |events|
  {
    events == [] || (Busy(s, events[0]) && AllBusy(c, Step(c, s, events[0]), events[1..]))
  }

  /** No run has more outcomes than objects were waiting or in flight. */
  lemma {:induction false} BusyEnds(c: Config, s: State, events: seq<Event>)
    requires Inv(c, s) && FairRun(c, s, events) && AllBusy(c, s, events)
    ensures |events| <= Work(s)
    decreases |events|
  {
    if events != [] {
      WorkFalls(s, events[0].fd, events[0].code);
      StepInv(c, s, events[0]);
      BusyEnds(c, Step(c, s, events[0]), events[1..]);
      assert Work(Step(c, s, events[0])) == Work(OnOutcome(s, events[0].fd, events[0].code));
    }
  }

  /** Until it is over there is a connection whose outcome is awaited, unless a getter has died or no
      connection was allowed: with BusyEnds, such a page ends in success. */
  lemma NeverStuck(c: Config, s: State)
    requires Inv(c, s) && s.phase == Objects && s.stale == 0 && c.max >= 1
    ensures exists fd :: fd in s.conns && (forall code :: code != WouldBlock ==> Busy(s, Activated(fd, code, [], [])))
  {
    var fd :| fd in s.conns;
    assert forall code :: code != WouldBlock ==> Busy(s, Activated(fd, code, [], []));
  }

  /** With a dead getter and no live connection left nothing ever happens again. */
  lemma {:induction false} Stuck(c: Config, s: State, events: seq<Event>)
    requires s.phase == Objects && s.conns == map[]
    ensures Run(c, s, events) == s
    decreases |events|
  {
    if events != [] { Stuck(c, s, events[1..]); }
  }

  /** The getter of `fd` dies in the run. */
  predicate Dies(events: seq<Event>, fd: nat) {
    exists i | 0 <= i < |events| :: events[i].Activated? && events[i].fd == fd && events[i].code == Died
  }

  lemma DiesFirst(events: seq<Event>, fd: nat)
    requires events != []
    ensures var e := events[0];
            Dies(events, fd) <==> (e.Activated? && e.fd == fd && e.code == Died) || Dies(events[1..], fd)
  {
    var rest := events[1..];
    assert forall i | 0 < i < |events| :: rest[i - 1] == events[i];
    assert forall i | 0 <= i < |rest| :: events[i + 1] == rest[i];
  }

  function Surviving(conns: map<nat, Object>, events: seq<Event>): map<nat, Object> {
    map fd | fd in conns && !Dies(events, fd) :: conns[fd]
  }

  lemma SurvivingFirst(conns: map<nat, Object>, events: seq<Event>)
    requires events != []
    ensures var e := events[0];
            var left := if e.Activated? && e.code == Died then conns - {e.fd} else conns;
            Surviving(conns, events) == Surviving(left, events[1..])
  {
    forall fd | fd in conns
      ensures var e := events[0];
              Dies(events, fd) <==> (e.Activated? && e.fd == fd && e.code == Died) || Dies(events[1..], fd)
    {
      DiesFirst(events, fd);
    }
  }

  lemma OneFewer(conns: map<nat, Object>, fd: nat)
    ensures fd in conns ==> |conns - {fd}| == |conns| - 1
    ensures fd !in conns ==> conns - {fd} == conns
  {
    assert (conns - {fd}).Keys == conns.Keys - {fd};
  }

  lemma EndStays(c: Config, s: State, e: Event)
    requires s.phase in {Success, NotFound404, Failure}
    ensures var s1 := Step(c, s, e);
            var conns := if e.Activated? && e.code == Died then s.conns - {e.fd} else s.conns;
            && s1 == s.(conns := conns, stale := s1.stale)
            && |s1.conns| + s1.stale == |s.conns| + s.stale
  {
    if e.Activated? { OneFewer(s.conns, e.fd); }
  }

  /** After success or failure nothing happens any more but that getters still there may die, whose entries
      stay in the table. */
  lemma {:induction false} EndIsFinal(c: Config, s: State, events: seq<Event>)
    requires s.phase in {Success, NotFound404, Failure}
    ensures var s1 := Run(c, s, events);
            && s1 == s.(conns := Surviving(s.conns, events), stale := s1.stale)
            && |s1.conns| + s1.stale == |s.conns| + s.stale
    decreases |events|
  {
    if events == [] {
      assert Surviving(s.conns, []) == s.conns;
    } else {
      SurvivingFirst(s.conns, events);
      EndStays(c, s, events[0]);
      EndIsFinal(c, Step(c, s, events[0]), events[1..]);
    }
  }

  /** An error of the document's getter that is none of the others closes everything, for good. */
  lemma OtherErrorEnds(c: Config, s: State, fd: nat, events: seq<Event>)
    requires Inv(c, s) && s.phase == Document && fd in s.conns
    ensures var s1 := Run(c, Step(c, s, Activated(fd, Other, [], [])), events);
            s1.phase == Failure && s1.conns == map[] && s1.stale == 0
  {
    EndIsFinal(c, Step(c, s, Activated(fd, Other, [], [])), events);
    assert Surviving(map[], events) == map[];
  }

  lemma TwoParsed(c: Config, a: Path, b: Path)
    requires c.first in c.reachable && a != b
    ensures var s, h := Launch(c), c.first;
            AddAll(c, s, 0, [Absolute(h, a), Absolute(h, b)]) == (Push(Push(s, Object(h, a)), Object(h, b)), 2)
  {
    var s, h := Launch(c), c.first;
    var s1, s2 := Push(s, Object(h, a)), Push(Push(s, Object(h, a)), Object(h, b));
    assert Add(c, s, 0, Absolute(h, a)) == (s1, 1) && Add(c, s1, 1, Absolute(h, b)) == (s2, 2);
    assert [Absolute(h, a), Absolute(h, b)][1..] == [Absolute(h, b)];
    assert AddAll(c, s1, 1, [Absolute(h, b)]) == AddAll(c, s2, 2, []);
  }

  lemma TwoStarted(c: Config, a: Path, b: Path)
    requires c.first in c.reachable && a != b && c.max == 1
    ensures var h := c.first;
            var s := OnDocument(c, Launch(c), 0, [Absolute(h, a), Absolute(h, b)], [h]);
            s.phase == Objects && s.stale == 0 && s.conns == map[0 := Object(h, a)] &&
            s.at == map[Object(h, a) := InFlight(0), Object(h, b) := Queued]
  {
    var h := c.first;
    TwoParsed(c, a, b);
    var s := Push(Push(Launch(c), Object(h, a)), Object(h, b));
    assert s.tasks[h].pending == [a, b] && [a, b][1..] == [b];
    var s1 := SetRunning(Begin(s, h, 0), h, 1).(phase := Objects, expected := 2, completed := 0);
    assert StartHost(c, s1, h) == s1;
    assert StartAll(c, s1, [h]) == s1;
  }

  /** So success can leave a queue that is not empty: one connection, two objects, one refusal. */
  lemma LeftBehind(c: Config, a: Path, b: Path)
    requires c.first in c.reachable && a != b && c.max == 1
    ensures var h := c.first;
            var s := Step(c, Launch(c), Activated(0, Ok200, [Absolute(h, a), Absolute(h, b)], [h]));
            var s1 := Step(c, s, Activated(0, Refused, [], []));
            s1.phase == Success && s1.at == map[Object(h, a) := Lost, Object(h, b) := Queued]
  {
    TwoStarted(c, a, b);
    var s := Step(c, Launch(c), Activated(0, Ok200, [Absolute(c.first, a), Absolute(c.first, b)], [c.first]));
    LastRefused(s, 0, Object(c.first, a));
  }

  lemma LastRefused(s: State, fd: nat, o: Object)
    requires s.phase == Objects && s.stale == 0 && s.conns == map[fd := o]
    ensures OnObject(s, fd, Refused).phase == Success && OnObject(s, fd, Refused).at == s.at[o := Lost]
  {
    assert map[fd := o] - {fd} == map[];
  }
}
