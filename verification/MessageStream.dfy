/** A message, head and body, read over several calls by a parser that forgets part of its state
    between calls. Everything about the parser enters through `Script`. */
module MessageStream {
  import opened Text
  import opened HeadText
  import opened LineMachine
  import opened CallBoundaries

  /** stage(j) is the state after j lines of the head; bodyStart, after the empty line; arrived(n), after
      n octets of the body. */
  datatype Script<!S> = Script(
    m: Machine<S>, k: Calls<S>, bad: S -> bool,
    lines: seq<string>, body: string, stage: nat -> S, bodyStart: S, arrived: nat -> S)

  function Size<S>(x: Script<S>): nat { |Head(x.lines)| }

  /** Does it matter that a call ends behind the last header line? */
  predicate Fragile<S(==)>(x: Script<S>) { x.k.forget(x.stage(|x.lines|)) != x.stage(|x.lines|) }

  function Stream<S(==)>(x: Script<S>): Setting<S> {
    Setting(x.m, x.k, x.bad, x.stage(0), Head(x.lines) + x.body, if Fragile(x) then Size(x) - 2 else Size(x), Size(x))
  }

  ghost predicate MachineFacts<S(!new)>(x: Script<S>) {
    && (forall s: S {:trigger x.k.forget(x.k.forget(s))} :: x.k.forget(x.k.forget(s)) == x.k.forget(s))
    && (forall s: S {:trigger x.m.mode(x.k.forget(s))} :: x.m.mode(x.k.forget(s)) == x.m.mode(s))
    && (forall s: S {:trigger x.bad(s)} :: x.bad(s) ==> x.m.mode(s).Halted?)
    && (forall s: S {:trigger x.bad(x.k.forget(s))} :: x.bad(x.k.forget(s)) == x.bad(s))
  }

  ghost predicate HeadFacts<S(!new)>(x: Script<S>) {
    && CleanLines(x.lines)
    && (forall j: nat | j < |x.lines| ::
        x.m.onLine(x.stage(j), x.lines[j]) == x.stage(j + 1) && x.k.forget(x.stage(j)) == x.stage(j))
    && (forall j: nat | j <= |x.lines| ::
        x.m.mode(x.stage(j)).Lines? && !x.bad(x.stage(j)) && x.k.open(x.k.forget(x.stage(j))))
    && x.m.onLine(x.stage(|x.lines|), "") == x.bodyStart
    && (Fragile(x) ==> x.lines != [] && x.bad(x.m.onLine(x.k.forget(x.stage(|x.lines|)), "")))
  }

  ghost predicate BodyFacts<S(!new)>(x: Script<S>) {
    && (forall n: nat | n <= |x.body| ::
          Drain(x.m, Buffered(x.body[..n], x.bodyStart)) == Buffered("", x.arrived(n)) &&
          x.k.forget(x.arrived(n)) == x.arrived(n) && !x.bad(x.arrived(n)))
    && (forall n: nat | n < |x.body| :: x.k.open(x.arrived(n)))
  }

  ghost predicate Plays<S(!new)>(x: Script<S>) { MachineFacts(x) && HeadFacts(x) && BodyFacts(x) }

  lemma StagesOf<S(!new)>(x: Script<S>, n: nat)
    requires HeadFacts(x) && n <= |x.lines|
    ensures FoldLines(x.m, x.stage(0), x.lines[..n]) == x.stage(n) && HeadStates(x.m, x.stage(0), x.lines)
  {
    StagedHead(x.m, x.stage, x.lines, 0, n);
    assert x.lines[0..n] == x.lines[..n] && x.lines[0..] == x.lines;
  }

  /** Inside the head: as many stages as lines are complete; the rest waits. */
  lemma AfterInHead<S(!new)>(x: Script<S>, k: nat)
    requires HeadFacts(x) && k < Size(x)
    ensures var c, n := After(Stream(x), k), LinesIn(x.lines, k);
            c.st == x.stage(n) && c.inbuf + Head(x.lines)[k..] == Head(x.lines[n..])
  {
    var ls := x.lines;
    StagesOf(x, LinesIn(ls, k));
    DrainHeadPrefix(x.m, x.stage(0), ls, k);
    assert (Head(ls) + x.body)[..k] == Head(ls)[..k];
    assert "" + Head(ls)[..k] == Head(ls)[..k];
  }

  lemma AfterNothing<S(!new)>(x: Script<S>)
    requires HeadFacts(x)
    ensures After(Stream(x), 0) == Buffered("", x.stage(0))
  {
    assert "" + (Head(x.lines) + x.body)[..0] == "";
    NothingRead(x.m, x.stage(0));
  }

  /** In the gap: all lines are in, and part of the empty line waits. */
  lemma AfterInGap<S(!new)>(x: Script<S>, k: nat)
    requires HeadFacts(x) && Size(x) - 2 <= k < Size(x)
    ensures After(Stream(x), k) == Buffered("\r\n"[..k - (Size(x) - 2)], x.stage(|x.lines|))
  {
    AfterInHead(x, k);
    AllLinesIn(x.lines, k);
    TailOfHead(x.lines, k, After(Stream(x), k).inbuf);
  }

  lemma NothingRead<S>(m: Machine<S>, s: S)
    requires m.mode(s).Lines?
    ensures Drain(m, Buffered("", s)) == Buffered("", s)
  {
    assert ReadLine("").NoLine?;
  }

  lemma TailOfHead(ls: seq<string>, k: nat, inbuf: string)
    requires |Head(ls)| - 2 <= k < |Head(ls)| && inbuf + Head(ls)[k..] == Head(ls[|ls|..])
    ensures inbuf == "\r\n"[..k - (|Head(ls)| - 2)]
  {
    assert Head(ls[|ls|..]) == "\r\n";
    assert inbuf == (inbuf + Head(ls)[k..])[..|inbuf|];
  }

  /** Past the head: exactly what the body script says. */
  lemma AfterInBody<S(!new)>(x: Script<S>, n: nat)
    requires HeadFacts(x) && BodyFacts(x) && n <= |x.body|
    ensures After(Stream(x), Size(x) + n) == Buffered("", x.arrived(n))
  {
    StagesOf(x, |x.lines|);
    assert x.lines[..|x.lines|] == x.lines;
    assert (Head(x.lines) + x.body)[..Size(x) + n] == Head(x.lines) + x.body[..n];
    assert "" + (Head(x.lines) + x.body[..n]) == Head(x.lines) + x.body[..n];
    DrainHead(x.m, x.stage(0), x.lines, x.body[..n]);
  }

  /** At rest inside the gap: part of the empty line, and the last stage without what was forgotten. */
  lemma RestInGap<S(!new)>(x: Script<S>, i: nat)
    requires HeadFacts(x) && Fragile(x) && Size(x) - 2 <= i < Size(x)
    ensures AtRest(Stream(x), i) == Buffered("\r\n"[..i - (Size(x) - 2)], x.k.forget(x.stage(|x.lines|)))
  {
    AfterInGap(x, i);
  }

  lemma GapToGap<S(!new)>(x: Script<S>, i: nat, j: nat)
    requires MachineFacts(x) && HeadFacts(x) && Fragile(x) && Size(x) - 2 <= i <= j < Size(x)
    ensures Receive(x.m, AtRest(Stream(x), i), Stream(x).stream[i..j]) == AtRest(Stream(x), j)
  {
    var s, n := x.k.forget(x.stage(|x.lines|)), j - (Size(x) - 2);
    RestInGap(x, i);
    RestInGap(x, j);
    GapText(CrlfLines(x.lines), x.body, i, j);
    assert x.m.mode(s).Lines?;
    assert ("" + "\r\n")[..n] == "\r\n"[..n];
    DrainPartOfLine(x.m, s, "", n);
  }

  lemma BadAfterGap<S(!new)>(x: Script<S>, tail: string)
    requires MachineFacts(x) && HeadFacts(x) && Fragile(x)
    ensures x.bad(Drain(x.m, Buffered("" + "\r\n" + tail, x.k.forget(x.stage(|x.lines|)))).st)
  {
    var s := x.k.forget(x.stage(|x.lines|));
    assert x.m.mode(s).Lines?;
    DrainLine(x.m, s, "", tail);
    assert x.m.mode(x.m.onLine(s, "")).Halted?;
  }

  lemma GapToBodyText<S(!new)>(x: Script<S>, i: nat, j: nat)
    requires Size(x) - 2 <= i < Size(x) <= j <= Size(x) + |x.body|
    ensures var w := Head(x.lines) + x.body;
            "\r\n"[..i - (Size(x) - 2)] + w[i..j] == "" + "\r\n" + w[Size(x)..j]
  {
    GapText(CrlfLines(x.lines), x.body, i, j);
  }

  lemma GapToBody<S(!new)>(x: Script<S>, i: nat, j: nat)
    requires MachineFacts(x) && HeadFacts(x) && Fragile(x) && Size(x) - 2 <= i < Size(x) <= j <= Size(x) + |x.body|
    ensures x.bad(Receive(x.m, AtRest(Stream(x), i), Stream(x).stream[i..j]).st)
  {
    var r, w := AtRest(Stream(x), i), Stream(x).stream;
    RestInGap(x, i);
    GapToBodyText(x, i, j);
    assert r.inbuf + w[i..j] == "" + "\r\n" + w[Size(x)..j];
    BadAfterGap(x, w[Size(x)..j]);
  }

  lemma GapText(a: string, body: string, i: nat, j: nat)
    requires |a| <= i < |a| + 2 && i <= j <= |a| + 2 + |body|
    ensures var w := a + "\r\n" + body; var e := "\r\n";
            (j < |a| + 2 ==> e[..i - |a|] + w[i..j] == e[..j - |a|]) &&
            (j >= |a| + 2 ==> e[..i - |a|] + w[i..j] == "" + e + w[|a| + 2..j])
  {
  }

  predicate SoundAt<S(==)>(x: Script<S>, i: nat)
    requires i <= Size(x) + |x.body|
  {
    var c := After(Stream(x), i);
    !x.bad(c.st) && (i < Size(x) + |x.body| ==> x.k.open(x.k.forget(c.st)))
      && (!InGap(Stream(x), i) ==> Forgot(x.k, c) == c)
  }

  lemma SoundInHead<S(!new)>(x: Script<S>, i: nat)
    requires HeadFacts(x) && i < Size(x)
    ensures SoundAt(x, i)
  {
    AfterInHead(x, i);
    AllLinesIn(x.lines, i);
    var n := LinesIn(x.lines, i);
    assert n <= |x.lines| && x.k.open(x.k.forget(x.stage(n)));
    assert n == |x.lines| || x.k.forget(x.stage(n)) == x.stage(n);
  }

  lemma SoundInBody<S(!new)>(x: Script<S>, i: nat)
    requires Plays(x) && Size(x) <= i <= Size(x) + |x.body|
    ensures SoundAt(x, i)
  {
    var n := i - Size(x);
    AfterInBody(x, n);
    assert After(Stream(x), i) == Buffered("", x.arrived(n));
    assert !x.bad(x.arrived(n)) && (n < |x.body| ==> x.k.open(x.arrived(n)));
  }

  lemma SoundPoint<S(!new)>(x: Script<S>, i: nat)
    requires Plays(x) && i <= Size(x) + |x.body|
    ensures SoundAt(x, i)
  {
    if i < Size(x) {
      SoundInHead(x, i);
    } else {
      SoundInBody(x, i);
    }
  }

  lemma PlaysIsSound<S(!new)>(x: Script<S>)
    requires Plays(x)
    ensures Sound(Stream(x))
  {
    var y := Stream(x);
    AfterNothing(x);
    SoundPoint(x, 0);
    forall i: nat | i <= |y.stream|
      ensures !x.bad(After(y, i).st) && (i < |y.stream| ==> x.k.open(x.k.forget(After(y, i).st))) &&
              (!InGap(y, i) ==> AtRest(y, i) == After(y, i))
    {
      SoundPoint(x, i);
    }
    forall i: nat, j: nat | InGap(y, i) && i <= j <= |y.stream| ensures FromGap(y, i, j) {
      if j < y.hi { GapToGap(x, i, j); } else { GapToBody(x, i, j); }
    }
  }

  lemma OverCalls<S(!new)>(x: Script<S>, calls: seq<seq<string>>)
    requires Plays(x) && ConcatCalls(calls) <= Head(x.lines) + x.body
    ensures var c := RunCalls(x.m, x.k, Buffered("", x.stage(0)), calls);
            && (x.bad(c.st) <==> SplitBadly(Stream(x), calls))
            && (!x.bad(c.st) ==> c == AtRest(Stream(x), |ConcatCalls(calls)|))
  {
    PlaysIsSound(x);
    CallsOnStream(Stream(x), calls);
  }

  lemma RestInHead<S(!new)>(x: Script<S>, n: nat)
    requires HeadFacts(x) && n < Size(x)
    ensures AtRest(Stream(x), n).st == x.k.forget(x.stage(LinesIn(x.lines, n)))
  {
    AfterInHead(x, n);
  }

  lemma RestInBody<S(!new)>(x: Script<S>, n: nat)
    requires HeadFacts(x) && BodyFacts(x) && n <= |x.body|
    ensures AtRest(Stream(x), Size(x) + n) == Buffered("", x.arrived(n))
  {
    AfterInBody(x, n);
  }

  /** However the message, or a prefix of it, is cut into calls and recv() passes: while the head is
      incomplete. */
  lemma HeadOverCalls<S(!new)>(x: Script<S>, calls: seq<seq<string>>)
    requires Plays(x) && ConcatCalls(calls) <= Head(x.lines) + x.body && |ConcatCalls(calls)| < Size(x)
    ensures var c := RunCalls(x.m, x.k, Buffered("", x.stage(0)), calls);
            && (x.bad(c.st) <==> SplitBadly(Stream(x), calls))
            && (!x.bad(c.st) ==> c.st == x.k.forget(x.stage(LinesIn(x.lines, |ConcatCalls(calls)|))))
  {
    OverCalls(x, calls);
    RestInHead(x, |ConcatCalls(calls)|);
  }

  /** And from then on. */
  lemma BodyOverCalls<S(!new)>(x: Script<S>, calls: seq<seq<string>>)
    requires Plays(x) && ConcatCalls(calls) <= Head(x.lines) + x.body && |ConcatCalls(calls)| >= Size(x)
    ensures var c := RunCalls(x.m, x.k, Buffered("", x.stage(0)), calls);
            && (x.bad(c.st) <==> SplitBadly(Stream(x), calls))
            && (!x.bad(c.st) ==> c == Buffered("", x.arrived(|ConcatCalls(calls)| - Size(x))))
  {
    OverCalls(x, calls);
    RestInBody(x, |ConcatCalls(calls)| - Size(x));
  }

  // ---- a head the parser stops at ----

  ghost predicate StopsAtHead<S(!new)>(x: Script<S>) {
    Plays(x) && !Fragile(x) && x.body == "" && x.m.mode(x.bodyStart).Halted?
  }

  lemma Stopped<S(!new)>(x: Script<S>, more: string)
    requires StopsAtHead(x)
    ensures After(Stream(x), Size(x)) == Buffered("", x.bodyStart) && x.k.forget(x.bodyStart) == x.bodyStart
    ensures Receive(x.m, Buffered("", x.bodyStart), more).st == x.bodyStart
  {
    AfterInBody(x, 0);
    assert x.body[..0] == "";
    assert Drain(x.m, Buffered("", x.bodyStart)) == Buffered("", x.bodyStart);
  }

  /** Calls that end within such a head leave the parser where one call would have. */
  lemma HeadBegun<S(!new)>(x: Script<S>, calls: seq<seq<string>>)
    requires StopsAtHead(x) && ConcatCalls(calls) <= Head(x.lines) && |ConcatCalls(calls)| < Size(x)
    ensures var y, n := Stream(x), |ConcatCalls(calls)|;
            var c := After(y, n);
            && RunCalls(x.m, x.k, Buffered("", x.stage(0)), calls) == c
            && !Enabled(x.m, c) && Forgot(x.k, c) == c && x.k.open(c.st)
  {
    var y, n := Stream(x), |ConcatCalls(calls)|;
    assert Head(x.lines) + x.body == Head(x.lines);
    OverCalls(x, calls);
    PlaysIsSound(x);
    RestsDrained(y, n);
    assert !x.bad(After(y, n).st) && AtRest(y, n) == After(y, n);
  }

  /** The rest of such a head, and anything behind it. */
  lemma HeadCompleted<S(!new)>(x: Script<S>, n: nat, more: string)
    requires StopsAtHead(x) && n < Size(x)
    ensures Receive(x.m, After(Stream(x), n), Head(x.lines)[n..] + more).st == x.bodyStart
  {
    var y := Stream(x);
    assert y.stream == Head(x.lines);
    ReceiveReceive(x.m, After(y, n), y.stream[n..], more);
    ReceiveReceive(x.m, Buffered("", y.start), y.stream[..n], y.stream[n..]);
    assert y.stream[..n] + y.stream[n..] == y.stream[..Size(x)];
    Stopped(x, more);
  }

  /** The call that completes such a head stops there, whatever else it receives. */
  lemma LastCallStops<S(!new)>(x: Script<S>, calls: seq<seq<string>>, last: seq<string>, more: string)
    requires StopsAtHead(x) && ConcatCalls(calls) <= Head(x.lines) && |ConcatCalls(calls)| < Size(x)
    requires Concat(last) == Head(x.lines)[|ConcatCalls(calls)|..] + more
    ensures Call(x.m, x.k, RunCalls(x.m, x.k, Buffered("", x.stage(0)), calls), last).st == x.bodyStart
  {
    HeadBegun(x, calls);
    HeadCompleted(x, |ConcatCalls(calls)|, more);
    CallIsReceive(Stream(x), After(Stream(x), |ConcatCalls(calls)|), last);
    Stopped(x, more);
  }
}
