/** browser/browser.c on values: a document, the objects it embeds, and the connections they share.
    A descriptor is never handed out twice. */
module EmbeddedObjects {
  type Host = string
  type Path = string

  datatype Object = Object(host: Host, path: Path)

  datatype Url = Absolute(host: Host, path: Path) | Relative(text: string)

  /** A browser_download_tasks_t. */
  datatype Tasks = Tasks(pending: seq<Path>, running: nat, added: set<Path>, reachable: bool)

  datatype Phase = Document | Hibernate | Objects | Success | NotFound404 | Failure

  /** Where an object is; the two counters of the source are sizes of these. */
  datatype Place = Queued | InFlight(fd: nat) | Completed | Missing | Lost

  /** What filegetter_activate may return. Died is FG_ERR_FATAL, when the getter has closed its socket
      and set sockd to 0; the socket is still there after Refused, FG_ERR_SOCKSCONN, and after Other. */
  datatype Code = Ok200 | Err404 | Died | Refused | Other | WouldBlock

  /** max_concurrent_downloads as atoi() read it, first_hostname, and the host names that resolve. */
  datatype Config = Config(max: int, first: Host, document: Path, reachable: set<Host>)

  /** `conns` are the entries of the connections table that a lookup finds. The table's key is a pointer
      to sockd, so once a getter has set it to 0 the entry is stored under the hash of a number that is
      no longer its key: no lookup finds it, and g_hash_table_steal leaves it in the table. `stale`
      counts those entries. */
  datatype State = State(phase: Phase, tasks: map<Host, Tasks>, conns: map<nat, Object>, stale: nat, next: nat,
                         expected: nat, completed: nat, at: map<Object, Place>)

  /** browser_launch */
  function Launch(c: Config): State {
    var tasks := map[c.first := Tasks([], 0, {}, c.first in c.reachable)];
    State(Document, tasks, map[0 := Object(c.first, c.document)], 0, 1, 0, 0, map[])
  }

  // ---- browser_get_embedded_objects ----

  function Resolve(first: Host, u: Url): Object {
    match u
    case Absolute(host, path) => Object(host, path)
    case Relative(text) => Object(first, if "/" <= text then text else "/" + text)
  }

  function InitHost(c: Config, s: State, h: Host): State {
    if h in s.tasks then s else s.(tasks := s.tasks[h := Tasks([], 0, {}, h in c.reachable)])
  }

  /** Whether an object is added to its host's queue. */
  predicate Wanted(s: State, o: Object)
    requires o.host in s.tasks
  {
    s.tasks[o.host].reachable && o.path !in s.tasks[o.host].added
  }

  function Push(s: State, o: Object): State
    requires o.host in s.tasks
  {
    var t := s.tasks[o.host];
    s.(tasks := s.tasks[o.host := t.(pending := t.pending + [o.path], added := t.added + {o.path})],
      at := s.at[o := Queued])
  }

  /** One URL of the document; the second result is obj_count. */
  function Add(c: Config, s: State, n: nat, u: Url): (State, nat) {
    var o := Resolve(c.first, u);
    var s1 := InitHost(c, s, o.host);
    if Wanted(s1, o) then (Push(s1, o), n + 1) else (s1, n)
  }

  function AddAll(c: Config, s: State, n: nat, urls: seq<Url>): (State, nat)
    decreases |urls|
  {
    if urls == [] then (s, n) else var r := Add(c, s, n, urls[0]); AddAll(c, r.0, r.1, urls[1..])
  }

  // ---- connections ----

  /** The front of a host's queue goes out on connection `fd`. */
  function Begin(s: State, h: Host, fd: nat): State
    requires h in s.tasks && s.tasks[h].pending != []
  {
    var t := s.tasks[h];
    var o := Object(h, t.pending[0]);
    s.(tasks := s.tasks[h := t.(pending := t.pending[1..])], conns := s.conns[fd := o], at := s.at[o := InFlight(fd)])
  }

  function SetRunning(s: State, h: Host, n: nat): State
    requires h in s.tasks
  {
    s.(tasks := s.tasks[h := s.tasks[h].(running := n)])
  }

  /** One pass of the loop in browser_start_tasks. */
  function StartOne(s: State, h: Host): State
    requires h in s.tasks && s.tasks[h].pending != []
  {
    var s1 := Begin(s, h, s.next);
    SetRunning(s1, h, s1.tasks[h].running + 1).(next := s.next + 1)
  }

  function StartHost(c: Config, s: State, h: Host): State
    decreases if h in s.tasks then |s.tasks[h].pending| else 0
  {
    if h in s.tasks && s.tasks[h].running < c.max && s.tasks[h].pending != [] then StartHost(c, StartOne(s, h), h)
    else s
  }

  /** g_hash_table_foreach over the hosts, in some order. */
  function StartAll(c: Config, s: State, order: seq<Host>): State
    decreases |order|
  {
    if order == [] then s else StartAll(c, StartHost(c, s, order[0]), order[1..])
  }

  /** browser_reuse_connection, and otherwise the connection leaves the table. */
  function ReuseOrDrop(s: State, fd: nat): State
    requires fd in s.conns
  {
    var h := s.conns[fd].host;
    if h in s.tasks && s.tasks[h].pending != [] then Begin(s, h, fd) else s.(conns := s.conns - {fd})
  }

  // ---- browser_activate ----

  /** browser_downloaded_document */
  function OnDocument(c: Config, s: State, fd: nat, urls: seq<Url>, order: seq<Host>): State
    requires fd in s.conns
  {
    var r := AddAll(c, s, 0, urls);
    var s1 := if fd in r.0.conns then ReuseOrDrop(r.0, fd) else r.0;
    var s2 := if fd in s1.conns && c.first in s1.tasks then SetRunning(s1, c.first, 1) else s1;
    if r.1 == 0 then s2.(phase := Success)
    else StartAll(c, s2.(phase := Objects, expected := r.1, completed := 0), order)
  }

  /** The getter of `fd` has died: nothing is found to take out of the table. */
  function Bury(s: State, fd: nat): State { s.(conns := s.conns - {fd}, stale := s.stale + 1) }

  function Mark(s: State, fd: nat, p: Place): State
    requires fd in s.conns
  {
    s.(at := s.at[s.conns[fd] := p])
  }

  /** The outcome of one object; a blocked call has none. */
  function OnOutcome(s: State, fd: nat, code: Code): State
    requires fd in s.conns
  {
    match code
    case Ok200 => ReuseOrDrop(Mark(s, fd, Completed).(completed := s.completed + 1), fd)
    case Err404 => ReuseOrDrop(Mark(s, fd, Missing), fd)
    case Died => Bury(Mark(s, fd, Lost), fd)
    case WouldBlock => s
    case _ => var s1 := Mark(s, fd, Lost); s1.(conns := s1.conns - {fd})
  }

  /** SB_EMBEDDED_OBJECTS: done when the table is empty. */
  function OnObject(s: State, fd: nat, code: Code): State
    requires fd in s.conns
  {
    var s1 := OnOutcome(s, fd, code);
    if |s1.conns| + s1.stale == 0 then s1.(phase := Success) else s1
  }

  datatype Event = Activated(fd: nat, code: Code, urls: seq<Url>, order: seq<Host>) | Woken

  function OnDocumentCode(c: Config, s: State, e: Event): State
    requires e.Activated? && e.fd in s.conns
  {
    match e.code
    case Ok200 => OnDocument(c, s, e.fd, e.urls, e.order)
    case Err404 => s.(phase := NotFound404)
    case Died => Bury(s, e.fd).(phase := Hibernate)
    case Refused => s.(conns := s.conns - {e.fd}, phase := Hibernate)
    case Other => s.(conns := map[], stale := 0, phase := Failure)
    case WouldBlock => s
  }

  function Step(c: Config, s: State, e: Event): State {
    match e
    case Woken =>
      if s.phase != Hibernate then s
      else s.(phase := Document, conns := s.conns[s.next := Object(c.first, c.document)], next := s.next + 1)
    case Activated(fd, code, _, _) =>
      if fd !in s.conns then s
      else match s.phase
        case Document => OnDocumentCode(c, s, e)
        case Objects => OnObject(s, fd, code)
        case _ => if code == Died then Bury(s, fd) else s
  }

  function Run(c: Config, s: State, events: seq<Event>): State
    decreases |events|
  {
    if events == [] then s else Run(c, Step(c, s, events[0]), events[1..])
  }

  /** Every host is visited. */
  predicate Visits(s: State, order: seq<Host>) { forall h <- s.tasks :: h in order }

  /** What browser_start_tasks is run over is the table the document has filled. */
  predicate Fair(c: Config, s: State, e: Event) {
    e.Activated? ==> Visits(AddAll(c, s, 0, e.urls).0, e.order)
  }

  ghost predicate FairRun(c: Config, s: State, events: seq<Event>)
    decreases |events|
  {
    events == [] || (Fair(c, s, events[0]) && FairRun(c, Step(c, s, events[0]), events[1..]))
  }
}
