/** Both line machines, client and server, on a message head that arrives in pieces. */
module HeadText {
  import opened Text

  predicate CleanLine(l: string) { l != "" && '\r' !in l && '\0' !in l }

  predicate CleanLines(ls: seq<string>) { forall l <- ls :: CleanLine(l) }

  /** How many of the lines are complete within the first `k` octets of the head. */
  function LinesIn(ls: seq<string>, k: nat): (n: nat)
    ensures n <= |ls|
  {
    if ls == [] || k < |ls[0]| + 2 then 0 else 1 + LinesIn(ls[1..], k - |ls[0]| - 2)
  }

  lemma HeadCons(ls: seq<string>)
    requires ls != []
    ensures Head(ls) == ls[0] + "\r\n" + Head(ls[1..])
  {
  }

  /** A proper prefix of one terminated line holds no complete line. */
  lemma PartOfLine(line: string, k: nat)
    requires '\r' !in line && k < |line| + 2
    ensures ReadLine((line + "\r\n")[..k]).NoLine?
  {
    var p := (line + "\r\n")[..k];
    forall j: nat ensures !CrlfAt(p, j) {
      if j < |line| && j < |p| { assert p[j] == line[j]; }
    }
  }

  lemma HeadPrefix(ls: seq<string>, k: nat)
    requires ls != [] && k <= |Head(ls)|
    ensures k < |ls[0]| + 2 ==> Head(ls)[..k] == (ls[0] + "\r\n")[..k]
    ensures k >= |ls[0]| + 2 ==>
      |Head(ls)| == |ls[0]| + 2 + |Head(ls[1..])| &&
      Head(ls)[..k] == ls[0] + "\r\n" + Head(ls[1..])[..k - |ls[0]| - 2]
  {
    HeadCons(ls);
  }

  lemma HeadSuffix(ls: seq<string>, k: nat)
    requires ls != [] && |ls[0]| + 2 <= k <= |Head(ls)|
    ensures k - |ls[0]| - 2 <= |Head(ls[1..])| && Head(ls)[k..] == Head(ls[1..])[k - |ls[0]| - 2..]
  {
    HeadCons(ls);
  }

  /** All lines are complete exactly when at most the empty line is missing. */
  lemma {:induction false} AllLinesIn(ls: seq<string>, k: nat)
    requires k <= |Head(ls)|
    ensures LinesIn(ls, k) == |ls| <==> k >= |Head(ls)| - 2
  {
    if ls != [] {
      HeadCons(ls);
      if k >= |ls[0]| + 2 { AllLinesIn(ls[1..], k - |ls[0]| - 2); }
    }
  }

  lemma FieldParts(name: string, value: string)
    requires name != "" && ':' !in name && '\0' !in name && '\0' !in value
    ensures var line := Field(name, value);
            CString(line) == line && line != "" && IndexOf(line, ':', 0) == |name| &&
            |name| + 2 <= |line| && line[..|name|] == name && line[|name| + 2..] == value
  {
    var line := Field(name, value);
    CStringOfClean(line);
    assert line[0..|name|] == name;
    IndexOfUnique(line, ':', 0, |name|);
  }
}
