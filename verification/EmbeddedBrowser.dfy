/** The browser_t object: its tables, counters and state updated in place, proved against EmbeddedObjects. */
module EmbeddedBrowser {
  import opened EmbeddedObjects
  import opened EmbeddedRuns

  class Browser {
    const config: Config
    var phase: Phase                       // state
    var tasks: map<Host, Tasks>            // download_tasks
    var conns: map<nat, Object>            // connections, by descriptor
    var stale: nat
    var next: nat
    var expected: nat                      // embedded_downloads_expected
    var completed: nat                     // embedded_downloads_completed
    ghost var at: map<Object, Place>

    ghost function Now(): State reads this { State(phase, tasks, conns, stale, next, expected, completed, at) }

    ghost predicate Valid() reads this { Inv(config, Now()) }

    /** browser_launch */
    constructor (config: Config)
      ensures Valid() && this.config == config && Now() == Launch(config)
    {
      this.config := config;
      phase, stale, next, expected, completed, at := Document, 0, 1, 0, 0, map[];
      tasks := map[config.first := Tasks([], 0, {}, config.first in config.reachable)];
      conns := map[0 := Object(config.first, config.document)];
      new;
      LaunchInv(config);
    }

    /** browser_get_embedded_objects, from the list html_parse has made. */
    method GetEmbeddedObjects(urls: seq<Url>) returns (objCount: nat)
      modifies this`tasks, this`at
      ensures (Now(), objCount) == AddAll(config, old(Now()), 0, urls)
    {
      objCount := 0;
      var i := 0;
      while i < |urls|
        invariant i <= |urls|
        invariant AddAll(config, Now(), objCount, urls[i..]) == AddAll(config, old(Now()), 0, urls)
      {
        assert urls[i..][0] == urls[i] && urls[i..][1..] == urls[i + 1..];
        var o;
        match urls[i] {
          case Absolute(host, path) => o := Object(host, path);
          case Relative(text) =>
            if !("/" <= text) { o := Object(config.first, "/" + text); } else { o := Object(config.first, text); }
        }
        if o.host !in tasks { tasks := tasks[o.host := Tasks([], 0, {}, o.host in config.reachable)]; }
        var t := tasks[o.host];
        if t.reachable && o.path !in t.added {
          tasks := tasks[o.host := t.(pending := t.pending + [o.path], added := t.added + {o.path})];
          at := at[o := Queued];
          objCount := objCount + 1;
        }
        i := i + 1;
      }
    }

    /** browser_reuse_connection */
    method ReuseConnection(fd: nat) returns (reused: bool)
      requires fd in conns && conns[fd].host in tasks
      modifies this`tasks, this`conns, this`at
      ensures reused == (old(tasks[conns[fd].host]).pending != [])
      ensures Now() == if reused then Begin(old(Now()), old(conns[fd].host), fd) else old(Now())
    {
      var h := conns[fd].host;
      var t := tasks[h];
      if t.pending == [] { return false; }
      var path := t.pending[0];
      tasks := tasks[h := t.(pending := t.pending[1..])];
      conns := conns[fd := Object(h, path)];
      at := at[Object(h, path) := InFlight(fd)];
      return true;
    }

    /** browser_start_tasks */
    method StartTasks(h: Host)
      requires h in tasks
      modifies this`tasks, this`conns, this`at, this`next
      ensures Now() == StartHost(config, old(Now()), h)
    {
      while tasks[h].running < config.max && tasks[h].pending != []
        invariant h in tasks
        invariant StartHost(config, Now(), h) == StartHost(config, old(Now()), h)
        decreases |tasks[h].pending|
      {
        var path := tasks[h].pending[0];
        tasks := tasks[h := tasks[h].(pending := tasks[h].pending[1..])];
        conns := conns[next := Object(h, path)];
        at := at[Object(h, path) := InFlight(next)];
        tasks := tasks[h := tasks[h].(running := tasks[h].running + 1)];
        next := next + 1;
      }
    }

    /** g_hash_table_foreach with browser_start_tasks. */
    method StartAllTasks(order: seq<Host>)
      requires forall h <- order :: h in tasks
      modifies this`tasks, this`conns, this`at, this`next
      ensures Now() == StartAll(config, old(Now()), order)
    {
      var i := 0;
      while i < |order|
        invariant i <= |order| && (forall h <- order :: h in tasks)
        invariant StartAll(config, Now(), order[i..]) == StartAll(config, old(Now()), order)
      {
        assert order[i..][0] == order[i] && order[i..][1..] == order[i + 1..];
        ghost var was := Now();
        StartTasks(order[i]);
        StartKeepsHosts(config, was, order[i]);
        i := i + 1;
      }
    }

    /** Try to reuse the initial connection. */
    method ReuseInitial(fd: nat)
      requires fd in conns && conns[fd].host == config.first && config.first in tasks
      modifies this`tasks, this`conns, this`at
      ensures Now() == Reused(config, old(Now()), fd)
    {
      var reused := ReuseConnection(fd);
      if reused {
        tasks := tasks[config.first := tasks[config.first].(running := 1)];
      } else {
        conns := conns - {fd};
      }
    }

    /** browser_downloaded_document */
    method DownloadedDocument(fd: nat, urls: seq<Url>, order: seq<Host>)
      requires Before(config, Now()) && phase == Document && fd in conns
      requires forall h <- order :: h in AddAll(config, Now(), 0, urls).0.tasks
      modifies this
      ensures Now() == OnDocument(config, old(Now()), fd, urls, order)
    {
      DocumentParses(config, Now(), urls);
      ghost var parsed := AddAll(config, Now(), 0, urls).0;
      var objCount := GetEmbeddedObjects(urls);
      ReuseInitial(fd);
      assert tasks.Keys == parsed.tasks.Keys;
      if objCount == 0 {
        phase := Success;
      } else {
        phase, expected, completed := Objects, objCount, 0;
        StartAllTasks(order);
      }
    }

    /** The end of an object whose connection is still open. */
    method DownloadedObject(fd: nat, found: bool)
      requires Agree(Now()) && fd in conns
      modifies this`tasks, this`conns, this`at, this`completed
      ensures Now() == OnOutcome(old(Now()), fd, if found then Ok200 else Err404)
    {
      assert Flying(Now(), fd) && ObjectOk(Now(), conns[fd]);
      at := at[conns[fd] := if found then Completed else Missing];
      if found { completed := completed + 1; }
      var reused := ReuseConnection(fd);
      if !reused { conns := conns - {fd}; }
    }

    /** SB_DOCUMENT */
    method ActivateDocument(fd: nat, code: Code, urls: seq<Url>, order: seq<Host>)
      requires Before(config, Now()) && phase == Document && fd in conns
      requires forall h <- order :: h in AddAll(config, Now(), 0, urls).0.tasks
      modifies this
      ensures Now() == OnDocumentCode(config, old(Now()), Activated(fd, code, urls, order))
    {
      match code {
        case Ok200 => DownloadedDocument(fd, urls, order);
        case Err404 => phase := NotFound404;
        case Died => conns, stale, phase := conns - {fd}, stale + 1, Hibernate;
        case Refused => conns, phase := conns - {fd}, Hibernate;
        case Other => conns, stale, phase := map[], 0, Failure;
        case WouldBlock =>
      }
    }

    /** SB_EMBEDDED_OBJECTS */
    method ActivateObject(fd: nat, code: Code)
      requires Agree(Now()) && fd in conns
      modifies this
      ensures Now() == OnObject(old(Now()), fd, code)
    {
      if code == Ok200 || code == Err404 {
        DownloadedObject(fd, code == Ok200);
      } else if code != WouldBlock {
        at := at[conns[fd] := Lost];
        conns := conns - {fd};
        if code == Died { stale := stale + 1; }
      }
      if |conns| + stale == 0 { phase := Success; }
    }

    /** browser_activate, with what filegetter_activate returned. */
    method Activate(fd: nat, code: Code, urls: seq<Url>, order: seq<Host>)
      requires Valid() && Fair(config, Now(), Activated(fd, code, urls, order))
      requires forall h <- order :: h in AddAll(config, Now(), 0, urls).0.tasks
      modifies this
      ensures Valid() && Now() == Step(config, old(Now()), Activated(fd, code, urls, order))
    {
      StepInv(config, Now(), Activated(fd, code, urls, order));
      if fd !in conns { return; }
      if phase == Document {
        ActivateDocument(fd, code, urls, order);
      } else if phase == Objects {
        ActivateObject(fd, code);
      } else if code == Died {
        conns, stale := conns - {fd}, stale + 1;
      }
    }

    /** browser_wakeup, 60 seconds after the document could not be fetched. */
    method Wakeup()
      requires Valid() && phase == Hibernate
      modifies this`phase, this`conns, this`next
      ensures Valid() && Now() == Step(config, old(Now()), Woken)
    {
      WakeInv(config, Now());
      conns := conns[next := Object(config.first, config.document)];
      next := next + 1;
      phase := Document;
    }
  }

  lemma {:induction false} StartKeepsHosts(c: Config, s: State, h: Host)
    ensures StartHost(c, s, h).tasks.Keys == s.tasks.Keys
    decreases if h in s.tasks then |s.tasks[h].pending| else 0
  {
    if h in s.tasks && s.tasks[h].running < c.max && s.tasks[h].pending != [] { StartKeepsHosts(c, StartOne(s, h), h); }
  }
}
