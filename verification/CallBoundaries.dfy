/** A stream read over several calls by a parser that forgets part of its state between calls, when
    that part matters only at the stream positions lo <= i < hi. */
module CallBoundaries {
  import opened Text
  import opened LineMachine

  datatype Setting<!S> = Setting(m: Machine<S>, k: Calls<S>, bad: S -> bool, start: S, stream: string, lo: nat, hi: nat)

  /** The parser after the first `i` octets, received within one call. */
  function After<S>(x: Setting<S>, i: nat): Buffered<S>
    requires i <= |x.stream|
  {
    Receive(x.m, Buffered("", x.start), x.stream[..i])
  }

  function AtRest<S>(x: Setting<S>, i: nat): Buffered<S>
    requires i <= |x.stream|
  {
    Forgot(x.k, After(x, i))
  }

  predicate InGap<S>(x: Setting<S>, i: nat) { x.lo <= i < x.hi }

  /** Outside the gap forgetting changes nothing; a call that starts inside either stays inside or is
      fatal; and what is fatal stays so. */
  ghost predicate Sound<S(!new)>(x: Setting<S>) {
    && x.hi <= |x.stream|
    && After(x, 0) == AtRest(x, 0) == Buffered("", x.start)
    && (forall s: S {:trigger x.k.forget(x.k.forget(s))} :: x.k.forget(x.k.forget(s)) == x.k.forget(s))
    && (forall s: S {:trigger x.m.mode(x.k.forget(s))} :: x.m.mode(x.k.forget(s)) == x.m.mode(s))
    && (forall s: S {:trigger x.bad(s)} :: x.bad(s) ==> x.m.mode(s).Halted?)
    && (forall s: S {:trigger x.bad(x.k.forget(s))} :: x.bad(x.k.forget(s)) == x.bad(s))
    && (forall i: nat {:trigger After(x, i)} | i <= |x.stream| ::
          !x.bad(After(x, i).st) && (i < |x.stream| ==> x.k.open(x.k.forget(After(x, i).st)))
            && (!InGap(x, i) ==> AtRest(x, i) == After(x, i)))
    && (forall i: nat, j: nat | InGap(x, i) && i <= j <= |x.stream| :: FromGap(x, i, j))
  }

  ghost predicate FromGap<S>(x: Setting<S>, i: nat, j: nat)
    requires i <= j <= |x.stream|
  {
    var r := Receive(x.m, AtRest(x, i), x.stream[i..j]);
    if j < x.hi then r == AtRest(x, j) else x.bad(r.st)
  }

  /** Some call ends in the gap although the stream goes on past it. */
  ghost predicate SplitBadly<S>(x: Setting<S>, calls: seq<seq<string>>) {
    |ConcatCalls(calls)| >= x.hi && exists j | 0 <= j < |calls| :: InGap(x, |ConcatCalls(calls[..j])|)
  }

  lemma RestsDrained<S(!new)>(x: Setting<S>, i: nat)
    requires Sound(x) && i <= |x.stream|
    ensures !Enabled(x.m, AtRest(x, i)) && Forgot(x.k, AtRest(x, i)) == AtRest(x, i)
  {
    var r := After(x, i);
    assert !Enabled(x.m, r);
    assert x.m.mode(x.k.forget(r.st)) == x.m.mode(r.st);
  }

  lemma CallIsReceive<S>(x: Setting<S>, c: Buffered<S>, chunks: seq<string>)
    requires !Enabled(x.m, c) && Forgot(x.k, c) == c && (x.k.open(c.st) || Concat(chunks) == "")
    ensures Call(x.m, x.k, c, chunks) == Forgot(x.k, Receive(x.m, c, Concat(chunks)))
  {
    ReceiveAllIsReceive(x.m, c, chunks);
    PushPush(c, "", "");
  }

  lemma OneCall<S(!new)>(x: Setting<S>, p: nat, q: nat, last: seq<string>)
    requires Sound(x) && p <= q <= |x.stream| && Concat(last) == x.stream[p..q]
    ensures var r := Call(x.m, x.k, AtRest(x, p), last);
            if InGap(x, p) && q >= x.hi then x.bad(r.st) else r == AtRest(x, q)
  {
    RestsDrained(x, p);
    RestsDrained(x, q);
    assert x.k.open(x.k.forget(After(x, p).st)) || p == |x.stream|;
    CallIsReceive(x, AtRest(x, p), last);
    if InGap(x, p) {
      assert FromGap(x, p, q);
    } else {
      assert AtRest(x, p) == After(x, p);
      ReceiveReceive(x.m, Buffered("", x.start), x.stream[..p], x.stream[p..q]);
      assert x.stream[..p] + x.stream[p..q] == x.stream[..q];
    }
  }

  lemma BadStays<S(!new)>(x: Setting<S>, c: Buffered<S>, last: seq<string>)
    requires Sound(x) && x.bad(c.st)
    ensures x.bad(Call(x.m, x.k, c, last).st)
  {
    var d := Forgot(x.k, c);
    assert x.bad(x.k.forget(c.st));
    ReceiveAllIsReceive(x.m, d, last);
    assert Receive(x.m, d, Concat(last)).st == d.st;
    assert x.bad(x.k.forget(d.st));
  }

  lemma ConcatMonotone(calls: seq<seq<string>>, j: nat)
    requires j <= |calls|
    ensures |ConcatCalls(calls[..j])| <= |ConcatCalls(calls)|
  {
    if j < |calls| {
      ConcatMonotone(calls[..|calls| - 1], j);
      assert calls[..|calls| - 1][..j] == calls[..j];
    } else {
      assert calls[..j] == calls;
    }
  }

  /** The last call spoils the stream only if it starts in the gap. */
  lemma SplitSnoc<S>(x: Setting<S>, calls: seq<seq<string>>)
    requires calls != []
    ensures var init := calls[..|calls| - 1];
            SplitBadly(x, calls) <==>
            SplitBadly(x, init) || (InGap(x, |ConcatCalls(init)|) && |ConcatCalls(calls)| >= x.hi)
  {
    var init := calls[..|calls| - 1];
    assert calls[..|init|] == init;
    forall j | 0 <= j < |init| ensures init[..j] == calls[..j] && |ConcatCalls(init[..j])| <= |ConcatCalls(init)| {
      ConcatMonotone(init, j);
      assert init[..j] == calls[..j];
    }
  }

  lemma RestsWell<S(!new)>(x: Setting<S>, i: nat)
    requires Sound(x) && i <= |x.stream|
    ensures !x.bad(AtRest(x, i).st)
  {
    var s := After(x, i).st;
    assert x.bad(x.k.forget(s)) == x.bad(s);
  }

  /** What is to be shown of a parser that has read `calls`. */
  ghost predicate Follows<S>(x: Setting<S>, calls: seq<seq<string>>, c: Buffered<S>)
    requires ConcatCalls(calls) <= x.stream
  {
    (x.bad(c.st) <==> SplitBadly(x, calls)) && (!x.bad(c.st) ==> c == AtRest(x, |ConcatCalls(calls)|))
  }

  lemma SplitStream(stream: string, a: string, b: string)
    requires a + b <= stream
    ensures a <= stream && stream[|a|..|a + b|] == b
  {
    assert stream[..|a + b|] == a + b;
  }

  lemma FollowsOn<S(!new)>(x: Setting<S>, init: seq<seq<string>>, last: seq<string>, c: Buffered<S>)
    requires Sound(x) && ConcatCalls(init) + Concat(last) <= x.stream && ConcatCalls(init) <= x.stream
    requires Follows(x, init, c)
    requires ConcatCalls(init + [last]) == ConcatCalls(init) + Concat(last)
    ensures Follows(x, init + [last], Call(x.m, x.k, c, last))
  {
    var calls := init + [last];
    assert calls[..|calls| - 1] == init;
    SplitSnoc(x, calls);
    if x.bad(c.st) {
      BadStays(x, c, last);
    } else {
      var p, q := |ConcatCalls(init)|, |ConcatCalls(calls)|;
      SplitStream(x.stream, ConcatCalls(init), Concat(last));
      OneCall(x, p, q, last);
      RestsWell(x, q);
    }
  }

  /** However the stream, or a prefix of it, is cut into calls and recv() passes: it goes bad if and
      only if it was split badly, and otherwise the parser stands where one call would have put it. */
  lemma {:induction false} CallsOnStream<S(!new)>(x: Setting<S>, calls: seq<seq<string>>)
    requires Sound(x) && ConcatCalls(calls) <= x.stream
    ensures var c := RunCalls(x.m, x.k, Buffered("", x.start), calls);
            (x.bad(c.st) <==> SplitBadly(x, calls)) &&
            (!x.bad(c.st) ==> c == AtRest(x, |ConcatCalls(calls)|))
  {
    if calls == [] {
      assert !x.bad(After(x, 0).st);
    } else {
      var init, last := calls[..|calls| - 1], calls[|calls| - 1];
      assert calls == init + [last];
      SplitStream(x.stream, ConcatCalls(init), Concat(last));
      CallsOnStream(x, init);
      FollowsOn(x, init, last, RunCalls(x.m, x.k, Buffered("", x.start), init));
    }
  }
}
