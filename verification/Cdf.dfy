/** filetransfer/cdf.c: sorted insertion and the two-ended search, with reals for gdouble. */
module Cdf {
  datatype Entry = Entry(fraction: real, value: real)

  datatype Found = Value(value: real) | Fails

  predicate SortedByValue(s: seq<Entry>) { forall i, j | 0 <= i < j < |s| :: s[i].value <= s[j].value }

  predicate Increasing(s: seq<Entry>) { forall i, j | 0 <= i < j < |s| :: s[i].fraction < s[j].fraction }

  /** g_list_insert_sorted with cdfentry_compare: before the first entry that is not smaller. */
  function Insert(s: seq<Entry>, e: Entry): seq<Entry> {
    if s == [] || e.value <= s[0].value then [e] + s else [s[0]] + Insert(s[1..], e)
  }

  /** Where the insertion takes place. */
  function Rank(s: seq<Entry>, e: Entry): (i: nat)
    ensures i <= |s| && (forall k | 0 <= k < i :: s[k].value < e.value) && (i < |s| ==> e.value <= s[i].value)
  {
    if s == [] || e.value <= s[0].value then 0 else 1 + Rank(s[1..], e)
  }

  lemma {:induction false} InsertAt(s: seq<Entry>, i: nat, e: Entry)
    requires i <= |s| && (forall k | 0 <= k < i :: s[k].value < e.value) && (i < |s| ==> e.value <= s[i].value)
    ensures Insert(s, e) == s[..i] + [e] + s[i..]
    decreases i
  {
    if i > 0 { InsertAt(s[1..], i - 1, e); }
  }

  lemma InsertSorts(s: seq<Entry>, e: Entry)
    requires SortedByValue(s)
    ensures SortedByValue(Insert(s, e))
  {
    InsertAt(s, Rank(s, e), e);
  }

  lemma InsertHolds(s: seq<Entry>, e: Entry)
    ensures multiset(Insert(s, e)) == multiset(s) + multiset{e}
  {
    InsertAt(s, Rank(s, e), e);
    Around(s, Rank(s, e), e);
  }

  lemma Around(s: seq<Entry>, i: nat, e: Entry)
    requires i <= |s|
    ensures multiset(s[..i] + [e] + s[i..]) == multiset(s) + multiset{e}
  {
    var a, b := s[..i], s[i..];
    assert s == a + b;
    assert multiset(a + [e] + b) == multiset(a) + multiset{e} + multiset(b);
  }

  /** The simple search: the first entry whose fraction is at least `p`. */
  function First(s: seq<Entry>, p: real): Found {
    if s == [] then Fails else if s[0].fraction >= p then Value(s[0].value) else First(s[1..], p)
  }

  /** The search from the back, over the entries before those already passed; `seen` is the last of them. */
  function Back(s: seq<Entry>, p: real, seen: Found): Found
    decreases |s|
  {
    if s == [] then seen else
    var e := s[|s| - 1];
    if e.fraction == p then Value(e.value) else if e.fraction < p then seen else Back(s[..|s| - 1], p, Value(e.value))
  }

  function Lookup(s: seq<Entry>, p: real): Found { if p > 0.5 then Back(s, p, Fails) else First(s, p) }

  lemma {:induction false} FirstAppend(s: seq<Entry>, e: Entry, p: real)
    ensures First(s + [e], p) == if First(s, p).Value? then First(s, p) else First([e], p)
  {
    if s != [] {
      assert (s + [e])[0] == s[0] && (s + [e])[1..] == s[1..] + [e];
      FirstAppend(s[1..], e, p);
    } else {
      assert s + [e] == [e];
    }
  }

  lemma {:induction false} NoneBelow(s: seq<Entry>, p: real)
    requires forall e <- s :: e.fraction < p
    ensures First(s, p) == Fails
  {
    if s != [] { NoneBelow(s[1..], p); }
  }

  lemma {:induction false} BackIsFirst(s: seq<Entry>, p: real, seen: Found)
    requires Increasing(s)
    ensures Back(s, p, seen) == if First(s, p).Value? then First(s, p) else seen
    decreases |s|
  {
    if s != [] {
      var rest, e := s[..|s| - 1], s[|s| - 1];
      assert s == rest + [e];
      FirstAppend(rest, e, p);
      assert First([e], p) == if e.fraction >= p then Value(e.value) else Fails;
      if e.fraction <= p { NoneBelow(rest, p); } else { BackIsFirst(rest, p, Value(e.value)); }
    }
  }

  /** Where fractions strictly increase the two-ended search is the simple one, on both sides of 0.5. */
  lemma LookupIsFirst(s: seq<Entry>, p: real)
    requires Increasing(s)
    ensures Lookup(s, p) == First(s, p)
  {
    BackIsFirst(s, p, Fails);
  }

  /** With equal fractions the direction does matter: from the back the last of them is found. */
  lemma TiesBreak(s: seq<Entry>, p: real)
    requires s != [] && forall e <- s :: e.fraction == p
    ensures Lookup(s, p) == Value(if p > 0.5 then s[|s| - 1].value else s[0].value)
  {
    assert s[0] in s && s[|s| - 1] in s;
  }

  /** The simple search finds the least entry whose fraction is at least `p`, if the last is. */
  lemma {:induction false} FirstIsLeast(s: seq<Entry>, p: real)
    requires Increasing(s)
    ensures First(s, p) == Fails <==> s == [] || s[|s| - 1].fraction < p
    ensures forall i | 0 <= i < |s| && s[i].fraction >= p && (i == 0 || s[i - 1].fraction < p) ::
            First(s, p) == Value(s[i].value)
  {
    if s != [] {
      FirstIsLeast(s[1..], p);
      assert forall i | 0 < i < |s| :: s[i] == s[1..][i - 1];
    }
  }

  /** cdf_getValue fails, in an assertion or on a null entry, if and only if every fraction is below. */
  lemma LookupFails(s: seq<Entry>, p: real)
    requires Increasing(s)
    ensures Lookup(s, p) == Fails <==> s == [] || s[|s| - 1].fraction < p
  {
    LookupIsFirst(s, p);
    FirstIsLeast(s, p);
  }

  lemma {:induction false} FirstAtLeast(s: seq<Entry>, p: real, low: real)
    requires forall e <- s :: low <= e.value
    ensures First(s, p).Value? ==> low <= First(s, p).value
  {
    if s != [] { FirstAtLeast(s[1..], p, low); }
  }

  lemma {:induction false} FirstMonotone(s: seq<Entry>, p: real, q: real)
    requires SortedByValue(s) && p <= q && First(s, q).Value?
    ensures First(s, p).Value? && First(s, p).value <= First(s, q).value
  {
    if s[0].fraction < p {
      FirstMonotone(s[1..], p, q);
    } else {
      FirstAtLeast(s, q, s[0].value);
    }
  }

  /** So a larger percentile never has a smaller value, also across the switch of direction. */
  lemma LookupMonotone(s: seq<Entry>, p: real, q: real)
    requires SortedByValue(s) && Increasing(s) && p <= q && Lookup(s, q).Value?
    ensures Lookup(s, p).Value? && Lookup(s, p).value <= Lookup(s, q).value
  {
    LookupIsFirst(s, p);
    LookupIsFirst(s, q);
    FirstMonotone(s, p, q);
  }

  // ---- cdf_generate ----

  const WORD: nat := 0x1_0000_0000

  /** The four values, computed in guint. */
  function Values(center: nat, width: nat, tail: nat): seq<nat> {
    [(center - width) % WORD, center % WORD, (center + width) % WORD, (center + width + tail) % WORD]
  }

  function Generate(center: nat, width: nat, tail: nat): seq<Entry> {
    var v := Values(center, width, tail);
    Insert(Insert(Insert(Insert([], Entry(0.10, v[0] as real)), Entry(0.80, v[1] as real)), Entry(0.90, v[2] as real)),
           Entry(0.95, v[3] as real))
  }

  lemma AppendIncreases(s: seq<Entry>, e: Entry)
    requires forall x <- s :: x.fraction < e.fraction
    ensures Increasing(s + [e]) <==> Increasing(s)
  {
    var t := s + [e];
    assert forall i | 0 <= i < |s| :: t[i] == s[i] && s[i] in s;
  }

  lemma MiddleDecreases(s: seq<Entry>, i: nat, e: Entry)
    requires i < |s| && forall x <- s :: x.fraction < e.fraction
    ensures !Increasing(s[..i] + [e] + s[i..])
  {
    var t := s[..i] + [e] + s[i..];
    assert t[i] == e && t[i + 1] == s[i] && s[i] in s;
  }

  /** A larger fraction must come last, which it does when its value is the largest. */
  lemma InsertIncreases(s: seq<Entry>, e: Entry)
    requires SortedByValue(s) && s != [] && forall x <- s :: x.fraction < e.fraction
    ensures Increasing(Insert(s, e)) <==> Increasing(s) && s[|s| - 1].value < e.value
    ensures s[|s| - 1].value < e.value ==> Insert(s, e) == s + [e]
  {
    var i := Rank(s, e);
    InsertAt(s, i, e);
    RankLast(s, e);
    if i == |s| {
      assert s[..i] + [e] + s[i..] == s + [e];
      AppendIncreases(s, e);
    } else {
      MiddleDecreases(s, i, e);
    }
  }

  lemma RankLast(s: seq<Entry>, e: Entry)
    requires SortedByValue(s) && s != []
    ensures Rank(s, e) == |s| <==> s[|s| - 1].value < e.value
  {
    var i := Rank(s, e);
    assert i < |s| ==> s[i].value <= s[|s| - 1].value;
  }

  /** The four values increase exactly when nothing wraps around. */
  lemma ValuesIncrease(center: nat, width: nat, tail: nat)
    requires center < WORD && width < WORD && tail < WORD
    ensures var v := Values(center, width, tail);
            v[0] < v[1] < v[2] < v[3] <==> 0 < width <= center && 0 < tail && center + width + tail < WORD
  {
    WrapOnce(center - width);
    WrapOnce(center);
    WrapOnce(center + width);
    WrapOnce(center + width + tail);
    WrapOnce(center + width + tail - WORD);
  }

  lemma WrapOnce(x: int)
    ensures 0 <= x < WORD ==> x % WORD == x
    ensures WORD <= x < 2 * WORD ==> x % WORD == x - WORD
    ensures 0 <= x + WORD < WORD ==> x % WORD == x + WORD
    ensures 2 * WORD <= x ==> x % WORD == (x - WORD) % WORD
  {
  }

  /** The generated fractions increase exactly when no width is zero and nothing wraps around. */
  lemma GenerateIncreases(center: nat, width: nat, tail: nat)
    requires center < WORD && width < WORD && tail < WORD
    ensures Increasing(Generate(center, width, tail)) <==>
            0 < width <= center && 0 < tail && center + width + tail < WORD
  {
    var v := Values(center, width, tail);
    ValuesIncrease(center, width, tail);
    InOrder(v[0] as real, v[1] as real, v[2] as real, v[3] as real);
  }

  /** Then the search fails exactly above the last fraction. */
  lemma GenerateFails(center: nat, width: nat, tail: nat, p: real)
    requires 0 < width <= center && 0 < tail && center + width + tail < WORD
    ensures Lookup(Generate(center, width, tail), p) == Fails <==> p > 0.95
  {
    var v := Values(center, width, tail);
    ValuesIncrease(center, width, tail);
    InOrder(v[0] as real, v[1] as real, v[2] as real, v[3] as real);
    LookupFails(Generate(center, width, tail), p);
  }

  lemma InOrder(a: real, b: real, c: real, d: real)
    ensures var s := Insert(Insert(Insert(Insert([], Entry(0.10, a)), Entry(0.80, b)), Entry(0.90, c)), Entry(0.95, d));
            (Increasing(s) <==> a < b < c < d) && (a < b < c < d ==> s != [] && s[|s| - 1].fraction == 0.95)
  {
    var e1, e2, e3, e4 := Entry(0.10, a), Entry(0.80, b), Entry(0.90, c), Entry(0.95, d);
    assert Insert([], e1) == [e1];
    var s2 := Insert([e1], e2);
    var s3 := Insert(s2, e3);
    InsertSorts([e1], e2);
    InsertSorts(s2, e3);
    FractionsOf([e1], e2, 0.90);
    FractionsOf(s2, e3, 0.95);
    InsertIncreases([e1], e2);
    InsertIncreases(s2, e3);
    InsertIncreases(s3, e4);
  }

  lemma FractionsOf(s: seq<Entry>, e: Entry, above: real)
    requires e.fraction < above && forall x <- s :: x.fraction < above
    ensures Insert(s, e) != [] && forall x <- Insert(s, e) :: x.fraction < above
  {
    InsertAt(s, Rank(s, e), e);
  }

  /** A cdf as the object that is built and searched. */
  class CumulativeDistribution {
    var entries: seq<Entry>

    ghost predicate Valid() reads this { SortedByValue(entries) }

    constructor ()
      ensures Valid() && entries == []
    {
      entries := [];
    }

    /** One line of the file in cdf_parse. */
    method AddEntry(e: Entry)
      requires Valid()
      modifies this
      ensures Valid() && entries == Insert(old(entries), e)
      ensures multiset(entries) == multiset(old(entries)) + multiset{e}
    {
      InsertSorts(entries, e);
      InsertHolds(entries, e);
      var i := 0;
      while i < |entries| && entries[i].value < e.value
        invariant i <= |entries| && forall k | 0 <= k < i :: entries[k].value < e.value
      {
        i := i + 1;
      }
      InsertAt(entries, i, e);
      entries := entries[..i] + [e] + entries[i..];
    }

    /** cdf_getValue; `found` is false where the source fails. */
    method GetValue(percentile: real) returns (found: bool, value: real)
      requires 0.0 <= percentile <= 1.0
      ensures (if found then Value(value) else Fails) == Lookup(entries, percentile)
    {
      found, value := false, 0.0;
      if percentile > 0.5 {
        var i := |entries|;
        assert entries[..i] == entries;
        while i > 0
          invariant 0 <= i <= |entries|
          invariant Back(entries[..i], percentile, if found then Value(value) else Fails) ==
                    Back(entries, percentile, Fails)
        {
          var entry := entries[i - 1];
          assert entries[..i][..i - 1] == entries[..i - 1];
          if entry.fraction == percentile { return true, entry.value; }
          if entry.fraction < percentile { return; }
          found, value := true, entry.value;
          i := i - 1;
        }
      } else {
        var i := 0;
        while i < |entries|
          invariant 0 <= i <= |entries|
          invariant First(entries[i..], percentile) == First(entries, percentile)
        {
          if entries[i].fraction >= percentile { return true, entries[i].value; }
          assert entries[i..][1..] == entries[i + 1..];
          i := i + 1;
        }
      }
    }
  }
}
