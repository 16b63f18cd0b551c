/** A buffered parser that alternates between whole CRLF lines and single octets, as a small-step
    machine over its input buffer: why the way recv() splits the octets cannot matter to it. */
module LineMachine {
  import opened Text
  import opened HeadText

  /** What the parser wants next. */
  datatype Mode = Lines | Octets | Halted

  datatype Machine<!S> = Machine(mode: S -> Mode, onLine: (S, string) -> S, onOctet: (S, char) -> S)

  datatype Buffered<S> = Buffered(inbuf: string, st: S)

  predicate Enabled<S>(m: Machine<S>, c: Buffered<S>) {
    match m.mode(c.st)
    case Lines => ReadLine(c.inbuf).Line?
    case Octets => c.inbuf != ""
    case Halted => false
  }

  function Step<S>(m: Machine<S>, c: Buffered<S>): (r: Buffered<S>)
    requires Enabled(m, c)
    ensures |r.inbuf| < |c.inbuf|
  {
    if m.mode(c.st).Octets? then Buffered(c.inbuf[1..], m.onOctet(c.st, c.inbuf[0]))
    else Buffered(ReadLine(c.inbuf).rest, m.onLine(c.st, ReadLine(c.inbuf).line))
  }

  function Drain<S>(m: Machine<S>, c: Buffered<S>): (r: Buffered<S>)
    ensures !Enabled(m, r)
    decreases |c.inbuf|
  {
    if Enabled(m, c) then Drain(m, Step(m, c)) else c
  }

  function Push<S>(c: Buffered<S>, chunk: string): Buffered<S> { Buffered(c.inbuf + chunk, c.st) }

  function Receive<S>(m: Machine<S>, c: Buffered<S>, chunk: string): Buffered<S> { Drain(m, Push(c, chunk)) }

  function ReceiveAll<S>(m: Machine<S>, c: Buffered<S>, chunks: seq<string>): Buffered<S> {
    if chunks == [] then c
    else Receive(m, ReceiveAll(m, c, chunks[..|chunks| - 1]), chunks[|chunks| - 1])
  }

  function Concat(chunks: seq<string>): string {
    if chunks == [] then "" else Concat(chunks[..|chunks| - 1]) + chunks[|chunks| - 1]
  }

  lemma ConcatSnoc(chunks: seq<string>, n: nat)
    requires n < |chunks|
    ensures Concat(chunks[..n + 1]) == Concat(chunks[..n]) + chunks[n]
  {
    assert chunks[..n + 1][..n] == chunks[..n];
  }

  lemma StepPush<S>(m: Machine<S>, c: Buffered<S>, b: string)
    requires Enabled(m, c)
    ensures Enabled(m, Push(c, b)) && Step(m, Push(c, b)) == Push(Step(m, c), b)
  {
    if m.mode(c.st).Octets? {
      assert (c.inbuf + b)[1..] == c.inbuf[1..] + b;
    } else {
      ReadLineAppend(c.inbuf, b);
    }
  }

  /** Processing what is there and then more is the same as processing all of it at once. */
  lemma {:induction false} DrainPush<S>(m: Machine<S>, c: Buffered<S>, b: string)
    ensures Drain(m, Push(Drain(m, c), b)) == Drain(m, Push(c, b))
    decreases |c.inbuf|
  {
    if Enabled(m, c) {
      StepPush(m, c, b);
      DrainPush(m, Step(m, c), b);
    }
  }

  lemma PushPush<S>(c: Buffered<S>, a: string, b: string)
    ensures Push(Push(c, a), b) == Push(c, a + b)
    ensures Push(c, "") == c
  {
    assert c.inbuf + a + b == c.inbuf + (a + b);
    assert c.inbuf + "" == c.inbuf;
  }

  lemma ReceiveReceive<S>(m: Machine<S>, c: Buffered<S>, a: string, b: string)
    ensures Receive(m, Receive(m, c, a), b) == Receive(m, c, a + b)
  {
    DrainPush(m, Push(c, a), b);
    PushPush(c, a, b);
  }

  /** The parser ignores how recv() split the octets. */
  lemma {:induction false} ReceiveAllIsReceive<S>(m: Machine<S>, c: Buffered<S>, chunks: seq<string>)
    requires !Enabled(m, c)
    ensures ReceiveAll(m, c, chunks) == Receive(m, c, Concat(chunks))
  {
    if chunks == [] {
      PushPush(c, "", "");
    } else {
      ReceiveAllIsReceive(m, c, chunks[..|chunks| - 1]);
      ReceiveReceive(m, c, Concat(chunks[..|chunks| - 1]), chunks[|chunks| - 1]);
    }
  }

  // ---- a message head that arrives in pieces ----

  function FoldLines<S>(m: Machine<S>, s: S, ls: seq<string>): S
    decreases |ls|
  {
    if ls == [] then s else FoldLines(m, m.onLine(s, ls[0]), ls[1..])
  }

  /** Every state on the way through the lines is one that reads another line. */
  predicate HeadStates<S>(m: Machine<S>, s: S, ls: seq<string>)
    decreases |ls|
  {
    m.mode(s).Lines? && (ls != [] ==> HeadStates(m, m.onLine(s, ls[0]), ls[1..]))
  }

  lemma DrainLine<S>(m: Machine<S>, s: S, line: string, rest: string)
    requires m.mode(s).Lines? && '\r' !in line
    ensures Drain(m, Buffered(line + "\r\n" + rest, s)) == Drain(m, Buffered(rest, m.onLine(s, line)))
  {
    ReadLineOf(line, rest);
  }

  lemma DrainPartOfLine<S>(m: Machine<S>, s: S, line: string, k: nat)
    requires m.mode(s).Lines? && '\r' !in line && k < |line| + 2
    ensures var b := Buffered((line + "\r\n")[..k], s); Drain(m, b) == b
  {
    PartOfLine(line, k);
  }

  /** After `k` octets of a head: exactly the complete lines have been processed, the rest waits. */
  lemma {:induction false} DrainHeadPrefix<S>(m: Machine<S>, s: S, ls: seq<string>, k: nat)
    requires CleanLines(ls) && HeadStates(m, s, ls) && k < |Head(ls)|
    ensures var n := LinesIn(ls, k);
            var c := Drain(m, Buffered(Head(ls)[..k], s));
            c.st == FoldLines(m, s, ls[..n]) && m.mode(c.st).Lines? && c.inbuf + Head(ls)[k..] == Head(ls[n..])
    decreases |ls|
  {
    if LinesIn(ls, k) == 0 {
      DrainNoLine(m, s, ls, k);
    } else {
      assert CleanLine(ls[0]);
      var rest, k' := ls[1..], k - |ls[0]| - 2;
      var n := LinesIn(rest, k');
      FirstLineTaken(m, s, ls, k);
      DrainHeadPrefix(m, m.onLine(s, ls[0]), rest, k');
      TakeCons(ls, n);
      assert Head(ls[1 + n..]) == Head(rest[n..]);
    }
  }

  lemma FirstLineTaken<S>(m: Machine<S>, s: S, ls: seq<string>, k: nat)
    requires ls != [] && CleanLine(ls[0]) && m.mode(s).Lines? && |ls[0]| + 2 <= k <= |Head(ls)|
    ensures var k' := k - |ls[0]| - 2;
            && k' <= |Head(ls[1..])| && Head(ls)[k..] == Head(ls[1..])[k'..]
            && LinesIn(ls, k) == 1 + LinesIn(ls[1..], k')
            && Drain(m, Buffered(Head(ls)[..k], s)) == Drain(m, Buffered(Head(ls[1..])[..k'], m.onLine(s, ls[0])))
  {
    HeadPrefix(ls, k);
    HeadSuffix(ls, k);
    DrainLine(m, s, ls[0], Head(ls[1..])[..k - |ls[0]| - 2]);
  }

  lemma TakeCons(ls: seq<string>, n: nat)
    requires ls != [] && n < |ls|
    ensures ls[..1 + n][0] == ls[0] && ls[..1 + n][1..] == ls[1..][..n] && ls[1 + n..] == ls[1..][n..]
  {
  }

  lemma DrainNoLine<S>(m: Machine<S>, s: S, ls: seq<string>, k: nat)
    requires CleanLines(ls) && m.mode(s).Lines? && k < |Head(ls)| && LinesIn(ls, k) == 0
    ensures Drain(m, Buffered(Head(ls)[..k], s)) == Buffered(Head(ls)[..k], s)
    ensures Head(ls)[..k] + Head(ls)[k..] == Head(ls) && ls[..0] == [] && ls[0..] == ls
  {
    if ls == [] {
      assert Head(ls) == "" + "\r\n";
      DrainPartOfLine(m, s, "", k);
    } else {
      assert CleanLine(ls[0]);
      HeadPrefix(ls, k);
      DrainPartOfLine(m, s, ls[0], k);
    }
  }

  /** A whole head and what follows it. */
  lemma {:induction false} DrainHead<S>(m: Machine<S>, s: S, ls: seq<string>, rest: string)
    requires CleanLines(ls) && HeadStates(m, s, ls)
    ensures Drain(m, Buffered(Head(ls) + rest, s)) ==
            Drain(m, Buffered(rest, m.onLine(FoldLines(m, s, ls), "")))
    decreases |ls|
  {
    if ls == [] {
      assert Head(ls) + rest == "" + "\r\n" + rest;
      DrainLine(m, s, "", rest);
    } else {
      assert CleanLine(ls[0]);
      HeadCons(ls);
      assert Head(ls) + rest == ls[0] + "\r\n" + (Head(ls[1..]) + rest);
      DrainLine(m, s, ls[0], Head(ls[1..]) + rest);
      DrainHead(m, m.onLine(s, ls[0]), ls[1..], rest);
    }
  }

  /** The first `n` lines leave the state alone. */
  predicate Steady<S(==)>(m: Machine<S>, s: S, ls: seq<string>, n: nat)
    requires n <= |ls|
  {
    forall j | 0 <= j < n :: m.onLine(s, ls[j]) == s
  }

  lemma SteadyOn<S>(m: Machine<S>, s: S, ls: seq<string>, n: nat)
    requires n < |ls| && m.onLine(s, ls[0]) == s
    ensures Steady(m, s, ls, 1 + n) <==> Steady(m, s, ls[1..], n)
  {
    if Steady(m, s, ls[1..], n) {
      forall j | 0 <= j < 1 + n ensures m.onLine(s, ls[j]) == s { assert j > 0 ==> ls[j] == ls[1..][j - 1]; }
    }
    if Steady(m, s, ls, 1 + n) {
      forall j | 0 <= j < n ensures m.onLine(s, ls[1..][j]) == s { assert ls[1..][j] == ls[1 + j]; }
    }
  }

  /** A head whose lines either leave the state alone or are fatal: fatal it is exactly when one of the
      latter is complete. */
  lemma {:induction false} DrainSteady<S>(m: Machine<S>, s: S, bad: S -> bool, ls: seq<string>, k: nat)
    requires CleanLines(ls) && m.mode(s).Lines? && k <= |Head(ls)|
    requires forall j | 0 <= j < |ls| ::
             m.onLine(s, ls[j]) == s || (bad(m.onLine(s, ls[j])) && m.mode(m.onLine(s, ls[j])).Halted?)
    ensures var c := Drain(m, Buffered(Head(ls)[..k], s));
            if Steady(m, s, ls, LinesIn(ls, k)) then
              || (k < |Head(ls)| && c.st == s && c.inbuf + Head(ls)[k..] == Head(ls[LinesIn(ls, k)..]))
              || (k == |Head(ls)| && c == Drain(m, Buffered("", m.onLine(s, ""))))
            else bad(c.st)
    decreases |ls|
  {
    if LinesIn(ls, k) == 0 {
      if k < |Head(ls)| {
        DrainNoLine(m, s, ls, k);
      } else {
        AllLinesIn(ls, k);
        assert Head(ls)[..k] == "" + "\r\n" + "";
        DrainLine(m, s, "", "");
      }
    } else {
      assert CleanLine(ls[0]);
      var rest, k' := ls[1..], k - |ls[0]| - 2;
      FirstLineTaken(m, s, ls, k);
      if m.onLine(s, ls[0]) == s {
        DrainSteady(m, s, bad, rest, k');
        SteadyOn(m, s, ls, LinesIn(rest, k'));
        assert ls[1 + LinesIn(rest, k')..] == rest[LinesIn(rest, k')..];
      }
    }
  }

  /** A head whose states are known one by one. */
  lemma {:induction false} StagedHead<S>(m: Machine<S>, stage: nat -> S, ls: seq<string>, i: nat, n: nat)
    requires i <= n <= |ls|
    requires forall j: nat | j < |ls| :: m.onLine(stage(j), ls[j]) == stage(j + 1)
    requires forall j: nat | j <= |ls| :: m.mode(stage(j)).Lines?
    ensures FoldLines(m, stage(i), ls[i..n]) == stage(n) && HeadStates(m, stage(i), ls[i..])
    decreases |ls| - i
  {
    if i < |ls| {
      assert ls[i..][0] == ls[i] && ls[i..][1..] == ls[i + 1..];
      if i < n {
        assert ls[i..n][0] == ls[i] && ls[i..n][1..] == ls[i + 1..n];
        StagedHead(m, stage, ls, i + 1, n);
      } else {
        StagedHead(m, stage, ls, i + 1, i + 1);
      }
    }
  }

  // ---- a parser that loses part of its state between reading calls ----

  /** How a reading call treats the state: `open` says whether it reads at all, `forget` drops
      what lives only inside one call. */
  datatype Calls<!S> = Calls(open: S -> bool, forget: S -> S)

  function Forgot<S>(k: Calls<S>, c: Buffered<S>): Buffered<S> { Buffered(c.inbuf, k.forget(c.st)) }

  function Call<S>(m: Machine<S>, k: Calls<S>, c: Buffered<S>, chunks: seq<string>): Buffered<S> {
    if !k.open(c.st) then c else Forgot(k, ReceiveAll(m, Forgot(k, c), chunks))
  }

  function RunCalls<S>(m: Machine<S>, k: Calls<S>, c: Buffered<S>, calls: seq<seq<string>>): Buffered<S> {
    if calls == [] then c else Call(m, k, RunCalls(m, k, c, calls[..|calls| - 1]), calls[|calls| - 1])
  }

  function ConcatCalls(calls: seq<seq<string>>): string {
    if calls == [] then "" else ConcatCalls(calls[..|calls| - 1]) + Concat(calls[|calls| - 1])
  }

  /** `same` is a bisimulation of the machine, and forgetting stays within it. */
  ghost predicate Indifferent<S(!new)>(m: Machine<S>, k: Calls<S>, same: (S, S) -> bool) {
    && (forall s, t | same(s, t) :: m.mode(s) == m.mode(t) && same(t, s))
    && (forall s, t, line | same(s, t) :: same(m.onLine(s, line), m.onLine(t, line)))
    && (forall s, t, b | same(s, t) :: same(m.onOctet(s, b), m.onOctet(t, b)))
    && (forall s, t | same(s, t) :: same(k.forget(s), t))
    && (forall s, t, u | same(s, t) && same(t, u) :: same(s, u))
  }

  ghost predicate Alike<S>(same: (S, S) -> bool, c: Buffered<S>, d: Buffered<S>) {
    c.inbuf == d.inbuf && same(c.st, d.st)
  }

  lemma {:induction false} DrainAlike<S(!new)>(m: Machine<S>, k: Calls<S>, same: (S, S) -> bool,
          c: Buffered<S>, d: Buffered<S>)
    requires Indifferent(m, k, same) && Alike(same, c, d)
    ensures Alike(same, Drain(m, c), Drain(m, d))
    decreases |c.inbuf|
  {
    if Enabled(m, c) {
      DrainAlike(m, k, same, Step(m, c), Step(m, d));
    }
  }

  lemma CallAlike<S(!new)>(m: Machine<S>, k: Calls<S>, same: (S, S) -> bool, p: Buffered<S>, d: Buffered<S>,
          chunks: seq<string>)
    requires Indifferent(m, k, same) && Alike(same, p, d) && !Enabled(m, p) && k.open(p.st)
    ensures Alike(same, Call(m, k, p, chunks), Receive(m, d, Concat(chunks))) && !Enabled(m, Call(m, k, p, chunks))
  {
    var q := Forgot(k, p);
    assert same(q.st, p.st);
    ReceiveAllIsReceive(m, q, chunks);
    DrainAlike(m, k, same, Push(q, Concat(chunks)), Push(d, Concat(chunks)));
  }

  /** What a machine that is indifferent to the forgotten part makes of any number of calls depends,
      up to `same`, only on the concatenation of all that was received. */
  lemma {:induction false} CallsAreReceive<S(!new)>(m: Machine<S>, k: Calls<S>, same: (S, S) -> bool,
          c: Buffered<S>, calls: seq<seq<string>>)
    requires Indifferent(m, k, same) && same(c.st, c.st) && !Enabled(m, c)
    requires forall i | 0 <= i < |calls| :: k.open(RunCalls(m, k, c, calls[..i]).st)
    ensures Alike(same, RunCalls(m, k, c, calls), Receive(m, c, ConcatCalls(calls)))
    ensures !Enabled(m, RunCalls(m, k, c, calls))
  {
    if calls == [] {
      PushPush(c, "", "");
    } else {
      var init, last := calls[..|calls| - 1], calls[|calls| - 1];
      forall i | 0 <= i < |init| ensures k.open(RunCalls(m, k, c, init[..i]).st) {
        assert init[..i] == calls[..i];
      }
      CallsAreReceive(m, k, same, c, init);
      CallAlike(m, k, same, RunCalls(m, k, c, init), Receive(m, c, ConcatCalls(init)), last);
      ReceiveReceive(m, c, ConcatCalls(init), Concat(last));
    }
  }

  // ---- parts of the state the parser does not look at ----

  /** On the states in `within`, `f` changes nothing the machine acts on. */
  ghost predicate Commutes<S(!new)>(m: Machine<S>, k: Calls<S>, within: S -> bool, f: S -> S) {
    && (forall s | within(s) :: m.mode(f(s)) == m.mode(s) && k.open(f(s)) == k.open(s))
    && (forall s | within(s) :: within(k.forget(s)) && k.forget(f(s)) == f(k.forget(s)))
    && (forall s, line | within(s) :: within(m.onLine(s, line)) && m.onLine(f(s), line) == f(m.onLine(s, line)))
    && (forall s, b | within(s) :: within(m.onOctet(s, b)) && m.onOctet(f(s), b) == f(m.onOctet(s, b)))
  }

  function Mapped<S>(f: S -> S, c: Buffered<S>): Buffered<S> { Buffered(c.inbuf, f(c.st)) }

  lemma {:induction false} DrainCommutes<S(!new)>(m: Machine<S>, k: Calls<S>, within: S -> bool, f: S -> S,
          c: Buffered<S>)
    requires Commutes(m, k, within, f) && within(c.st)
    ensures Drain(m, Mapped(f, c)) == Mapped(f, Drain(m, c)) && within(Drain(m, c).st)
    decreases |c.inbuf|
  {
    if Enabled(m, c) { DrainCommutes(m, k, within, f, Step(m, c)); }
  }

  lemma {:induction false} ReceivesCommute<S(!new)>(m: Machine<S>, k: Calls<S>, within: S -> bool, f: S -> S,
                                                   c: Buffered<S>, chunks: seq<string>)
    requires Commutes(m, k, within, f) && within(c.st)
    ensures ReceiveAll(m, Mapped(f, c), chunks) == Mapped(f, ReceiveAll(m, c, chunks))
    ensures within(ReceiveAll(m, c, chunks).st)
  {
    if chunks != [] {
      var init, last := chunks[..|chunks| - 1], chunks[|chunks| - 1];
      ReceivesCommute(m, k, within, f, c, init);
      DrainCommutes(m, k, within, f, Push(ReceiveAll(m, c, init), last));
    }
  }

  lemma CallCommutes<S(!new)>(m: Machine<S>, k: Calls<S>, within: S -> bool, f: S -> S, c: Buffered<S>,
          chunks: seq<string>)
    requires Commutes(m, k, within, f) && within(c.st)
    ensures Call(m, k, Mapped(f, c), chunks) == Mapped(f, Call(m, k, c, chunks)) && within(Call(m, k, c, chunks).st)
  {
    ReceivesCommute(m, k, within, f, Forgot(k, c), chunks);
  }
}
