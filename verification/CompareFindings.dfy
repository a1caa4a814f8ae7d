/** Matching the findings a run made against those a case expects
    (cmd/guardana-control/procedure_expect.go). */
module CompareFindings {

  datatype Finding = Finding(rule: string, verdict: nat, run: string, requests: seq<string>, observations: seq<string>)

  datatype Field = Rule | Verdict | Run | Requests | Observations

  type Pair = (Finding, Finding)

  /** One line of the report. */
  datatype Line = Changed(want: Finding, got: Finding, field: Field) | Missing(want: Finding) | Unexpected(got: Finding)

  function Differences(got: Finding, want: Finding): seq<Field> {
    (if got.rule != want.rule then [Rule] else [])
    + (if got.verdict != want.verdict then [Verdict] else [])
    + (if got.run != want.run then [Run] else [])
    + (if got.requests != want.requests then [Requests] else [])
    + (if got.observations != want.observations then [Observations] else [])
  }

  /** want with one field taken from got. */
  function With(want: Finding, field: Field, got: Finding): Finding {
    match field
    case Rule => want.(rule := got.rule)
    case Verdict => want.(verdict := got.verdict)
    case Run => want.(run := got.run)
    case Requests => want.(requests := got.requests)
    case Observations => want.(observations := got.observations)
  }

  lemma DifferencesMean(got: Finding, want: Finding)
    ensures |Differences(got, want)| == 0 <==> got == want
    ensures |Differences(got, want)| == 1 <==>
            got != want && exists f: Field :: With(want, f, got) == got
    ensures |Differences(got, want)| == 1 ==> With(want, Differences(got, want)[0], got) == got
  {
    if |Differences(got, want)| == 1 {
      assert With(want, Differences(got, want)[0], got) == got;
    }
  }

  predicate Fits(k: nat, want: Finding, got: Finding) {
    |Differences(got, want)| == k
  }

  // ---------------------------------------------------------------- one greedy pass

  /** What is left of each side, and the pairs taken. */
  datatype Passed = Passed(want: seq<Finding>, got: seq<Finding>, pairs: seq<Pair>)

  /** The first of got that fits, or |got|. */
  function IndexOf(k: nat, w: Finding, got: seq<Finding>): nat
    ensures IndexOf(k, w, got) <= |got|
  {
    if got == [] || Fits(k, w, got[0]) then 0 else 1 + IndexOf(k, w, got[1..])
  }

  function Without(s: seq<Finding>, i: nat): seq<Finding>
    requires i < |s|
  {
    s[..i] + s[i + 1..]
  }

  /** Each expected finding in turn takes the first made one that fits. */
  function Pass(k: nat, want: seq<Finding>, got: seq<Finding>): Passed
    decreases |want|
  {
    if want == [] then Passed([], got, [])
    else
      var j := IndexOf(k, want[0], got);
      if j == |got| then
        var p := Pass(k, want[1..], got);
        p.(want := [want[0]] + p.want)
      else
        var p := Pass(k, want[1..], Without(got, j));
        p.(pairs := [(want[0], got[j])] + p.pairs)
  }

  function Wants(pairs: seq<Pair>): seq<Finding> {
    if pairs == [] then [] else [pairs[0].0] + Wants(pairs[1..])
  }

  function Gots(pairs: seq<Pair>): seq<Finding> {
    if pairs == [] then [] else [pairs[0].1] + Gots(pairs[1..])
  }

  lemma {:induction false} IndexFits(k: nat, w: Finding, got: seq<Finding>)
    ensures var j := IndexOf(k, w, got);
            && (j < |got| ==> Fits(k, w, got[j]))
            && forall i :: 0 <= i < j ==> !Fits(k, w, got[i])
  {
    if got != [] && !Fits(k, w, got[0]) {
      IndexFits(k, w, got[1..]);
      assert forall i :: 1 <= i < |got| ==> got[i] == got[1..][i - 1];
    }
  }

  lemma WithoutOne(s: seq<Finding>, i: nat)
    requires i < |s|
    ensures multiset(s) == multiset(Without(s, i)) + multiset{s[i]}
    ensures forall x :: x in Without(s, i) ==> x in s
  {
    assert s == s[..i] + [s[i]] + s[i + 1..];
  }

  /** A pass loses and invents nothing: both sides are what is left and what was paired. */
  lemma {:induction false} PassConserves(k: nat, want: seq<Finding>, got: seq<Finding>)
    ensures var p := Pass(k, want, got);
            && multiset(want) == multiset(p.want) + multiset(Wants(p.pairs))
            && multiset(got) == multiset(p.got) + multiset(Gots(p.pairs))
    decreases |want|
  {
    if want != [] {
      assert want == [want[0]] + want[1..];
      var j := IndexOf(k, want[0], got);
      if j == |got| {
        PassConserves(k, want[1..], got);
      } else {
        PassConserves(k, want[1..], Without(got, j));
        WithoutOne(got, j);
        var p := Pass(k, want, got);
        assert p.pairs[1..] == Pass(k, want[1..], Without(got, j)).pairs;
      }
    }
  }

  /** What a pass leaves of the made findings was there before it. */
  lemma {:induction false} PassShrinks(k: nat, want: seq<Finding>, got: seq<Finding>)
    ensures forall g :: g in Pass(k, want, got).got ==> g in got
    decreases |want|
  {
    if want != [] {
      var j := IndexOf(k, want[0], got);
      if j == |got| {
        PassShrinks(k, want[1..], got);
      } else {
        PassShrinks(k, want[1..], Without(got, j));
        WithoutOne(got, j);
      }
    }
  }

  predicate AllFit(k: nat, pairs: seq<Pair>) {
    forall pair :: pair in pairs ==> Fits(k, pair.0, pair.1)
  }

  ghost predicate NoneFit(k: nat, want: seq<Finding>, got: seq<Finding>) {
    forall w, g :: w in want && g in got ==> !Fits(k, w, g)
  }

  /** Every pair fits, and among what is left none does. */
  lemma {:induction false} PassPairsAll(k: nat, want: seq<Finding>, got: seq<Finding>)
    ensures var p := Pass(k, want, got);
            && AllFit(k, p.pairs)
            && NoneFit(k, p.want, p.got)
    decreases |want|
  {
    if want != [] {
      var j := IndexOf(k, want[0], got);
      IndexFits(k, want[0], got);
      var p := Pass(k, want, got);
      if j == |got| {
        PassPairsAll(k, want[1..], got);
        PassShrinks(k, want[1..], got);
      } else {
        PassPairsAll(k, want[1..], Without(got, j));
      }
    }
  }

  // ---------------------------------------------------------------- the order of what is left

  /** r is the elements of s at the positions at, in order. */
  ghost predicate Picks(s: seq<Finding>, at: seq<nat>, r: seq<Finding>) {
    && |at| == |r|
    && (forall i :: 0 <= i < |at| ==> at[i] < |s| && r[i] == s[at[i]])
    && (forall i, j :: 0 <= i < j < |at| ==> at[i] < at[j])
  }

  /** The same positions in a sequence with one element more at its head. */
  function Shifted(at: seq<nat>): seq<nat> {
    seq(|at|, i requires 0 <= i < |at| => at[i] + 1)
  }

  lemma PicksTail(s: seq<Finding>, at: seq<nat>, r: seq<Finding>)
    requires s != [] && Picks(s[1..], at, r)
    ensures Picks(s, Shifted(at), r) && Picks(s, [0] + Shifted(at), [s[0]] + r)
  {
    assert forall i :: 0 <= i < |s| - 1 ==> s[1..][i] == s[i + 1];
  }

  /** The same positions before element j was taken out. */
  function Around(at: seq<nat>, j: nat): seq<nat> {
    seq(|at|, i requires 0 <= i < |at| => if at[i] < j then at[i] else at[i] + 1)
  }

  lemma PicksWithout(s: seq<Finding>, j: nat, at: seq<nat>, r: seq<Finding>)
    requires j < |s| && Picks(Without(s, j), at, r)
    ensures Picks(s, Around(at, j), r)
  {
    forall i | 0 <= i < |at|
      ensures Around(at, j)[i] < |s| && r[i] == s[Around(at, j)[i]]
    {
      assert Without(s, j)[at[i]] == s[Around(at, j)[i]];
    }
  }

  /** What a pass leaves of either side, and the expected findings it pairs, are in the order they
      were in. */
  lemma {:induction false} PassKeepsOrder(k: nat, want: seq<Finding>, got: seq<Finding>)
    returns (left: seq<nat>, paired: seq<nat>, over: seq<nat>)
    ensures var p := Pass(k, want, got);
            Picks(want, left, p.want) && Picks(want, paired, Wants(p.pairs)) && Picks(got, over, p.got)
    decreases |want|
  {
    if want == [] {
      left, paired, over := [], [], seq(|got|, i requires 0 <= i => i);
    } else {
      var j := IndexOf(k, want[0], got);
      var p := Pass(k, want, got);
      if j == |got| {
        left, paired, over := PassKeepsOrder(k, want[1..], got);
        var rest := Pass(k, want[1..], got);
        PicksTail(want, left, rest.want);
        PicksTail(want, paired, Wants(rest.pairs));
        left, paired := [0] + Shifted(left), Shifted(paired);
      } else {
        left, paired, over := PassKeepsOrder(k, want[1..], Without(got, j));
        var rest := Pass(k, want[1..], Without(got, j));
        PicksTail(want, left, rest.want);
        PicksTail(want, paired, Wants(rest.pairs));
        PicksWithout(got, j, over, rest.got);
        assert p.pairs[1..] == rest.pairs;
        left, paired, over := Shifted(left), [0] + Shifted(paired), Around(over, j);
      }
    }
  }

  // ---------------------------------------------------------------- the report

  function ChangedLine(pair: Pair): Line
    requires Fits(1, pair.0, pair.1)
  {
    Changed(pair.0, pair.1, Differences(pair.1, pair.0)[0])
  }

  function ChangedLines(pairs: seq<Pair>): seq<Line>
    requires AllFit(1, pairs)
  {
    if pairs == [] then [] else [ChangedLine(pairs[0])] + ChangedLines(pairs[1..])
  }

  function MissingLines(want: seq<Finding>): seq<Line> {
    seq(|want|, i requires 0 <= i < |want| => Missing(want[i]))
  }

  function UnexpectedLines(got: seq<Finding>): seq<Line> {
    seq(|got|, i requires 0 <= i < |got| => Unexpected(got[i]))
  }

  /** p accounts for every finding of both sides: apart from those equal on both, as many of
      each as the two have in common, every expected one is changed into a made one in one
      field or missing, every made one is that or unexpected, and no missing and
      unexpected one differ in a single field or none. */
  ghost predicate Accounts(p: Passed, want: seq<Finding>, got: seq<Finding>) {
    && AllFit(1, p.pairs)
    && multiset(want) == multiset(want) * multiset(got) + multiset(Wants(p.pairs)) + multiset(p.want)
    && multiset(got) == multiset(want) * multiset(got) + multiset(Gots(p.pairs)) + multiset(p.got)
    && NoneFit(0, p.want, p.got)
    && NoneFit(1, p.want, p.got)
  }

  /** What both passes leave, and the pairs of the second. */
  function BothPasses(want: seq<Finding>, got: seq<Finding>): Passed {
    var p := Pass(0, want, got);
    Pass(1, p.want, p.got)
  }

  function Report(p: Passed): seq<Line>
    requires AllFit(1, p.pairs)
  {
    ChangedLines(p.pairs) + MissingLines(p.want) + UnexpectedLines(p.got)
  }

  lemma {:induction false} EqualPairs(pairs: seq<Pair>)
    requires AllFit(0, pairs)
    ensures Wants(pairs) == Gots(pairs)
  {
    if pairs != [] {
      DifferencesMean(pairs[0].1, pairs[0].0);
      EqualPairs(pairs[1..]);
    }
  }

  /** The pairs of the first pass are exactly what the two sides have in common. */
  lemma MatchedInCommon(want: seq<Finding>, got: seq<Finding>)
    ensures var p := Pass(0, want, got);
            && multiset(want) == multiset(want) * multiset(got) + multiset(p.want)
            && multiset(got) == multiset(want) * multiset(got) + multiset(p.got)
            && NoneFit(0, p.want, p.got)
  {
    PassConserves(0, want, got);
    PassPairsAll(0, want, got);
    var p := Pass(0, want, got);
    EqualPairs(p.pairs);
    forall x | x in multiset(p.want)
      ensures x !in multiset(p.got)
    {
      DifferencesMean(x, x);
      assert x in p.want && (x in p.got ==> !Fits(0, x, x));
    }
    InCommon(multiset(want), multiset(got), multiset(p.want), multiset(p.got), multiset(Wants(p.pairs)));
  }

  lemma InCommon(a: multiset<Finding>, b: multiset<Finding>, onlyA: multiset<Finding>, onlyB: multiset<Finding>,
      both: multiset<Finding>)
    requires a == onlyA + both && b == onlyB + both
    requires forall x :: x in onlyA ==> x !in onlyB
    ensures both == a * b
  {
    forall x: Finding
      ensures both[x] == (a * b)[x]
    {
      assert onlyA[x] == 0 || onlyB[x] == 0;
    }
  }

  lemma StillNoneFit(want: seq<Finding>, got: seq<Finding>)
    requires NoneFit(0, want, got)
    ensures var p := Pass(1, want, got); NoneFit(0, p.want, p.got)
  {
    PassConserves(1, want, got);
    PassShrinks(1, want, got);
    var p := Pass(1, want, got);
    forall w | w in p.want
      ensures w in want
    {
      assert w in multiset(p.want);
      assert w in multiset(want);
    }
  }

  method FirstFit(k: nat, w: Finding, got: seq<Finding>) returns (j: nat)
    ensures j == IndexOf(k, w, got)
  {
    j := 0;
    while j < |got| && !Fits(k, w, got[j])
      invariant j <= |got|
      invariant IndexOf(k, w, got) == j + IndexOf(k, w, got[j..])
    {
      assert got[j..][1..] == got[j + 1..];
      j := j + 1;
    }
  }

  /** Deletes in place of both lists as it goes, as the pass does recursively. */
  method Matched(k: nat, want0: seq<Finding>, got0: seq<Finding>)
    returns (want: seq<Finding>, got: seq<Finding>, pairs: seq<Pair>)
    ensures Passed(want, got, pairs) == Pass(k, want0, got0)
  {
    want, got, pairs := want0, got0, [];
    var i := 0;
    while i < |want|
      invariant i <= |want|
      invariant Pass(k, want0, got0) ==
                var p := Pass(k, want[i..], got); Passed(want[..i] + p.want, p.got, pairs + p.pairs)
      decreases |want| - i
    {
      var j := FirstFit(k, want[i], got);
      assert want[i..][1..] == want[i + 1..];
      if j == |got| {
        ghost var rest := Pass(k, want[i + 1..], got);
        assert want[..i] + ([want[i]] + rest.want) == want[..i + 1] + rest.want;
        i := i + 1;
      } else {
        ghost var rest := Pass(k, want[i + 1..], Without(got, j));
        assert pairs + ([(want[i], got[j])] + rest.pairs) == pairs + [(want[i], got[j])] + rest.pairs;
        pairs := pairs + [(want[i], got[j])];
        ghost var shorter := Without(want, i);
        assert shorter[..i] == want[..i] && shorter[i..] == want[i + 1..];
        want, got := Without(want, i), Without(got, j);
      }
    }
    assert want[i..] == [];
    assert want[..i] == want;
  }

  /** The report accounts for every finding of either side. */
  lemma ReportAccounts(want: seq<Finding>, got: seq<Finding>)
    ensures Accounts(BothPasses(want, got), want, got)
  {
    var p := Pass(0, want, got);
    MatchedInCommon(want, got);
    StillNoneFit(p.want, p.got);
    PassConserves(1, p.want, p.got);
    PassPairsAll(1, p.want, p.got);
  }

  /** It is empty exactly when the two sides hold the same findings, each as often. */
  lemma SilentIffEqual(want: seq<Finding>, got: seq<Finding>)
    ensures AllFit(1, BothPasses(want, got).pairs)
    ensures Report(BothPasses(want, got)) == [] <==> multiset(want) == multiset(got)
  {
    ReportAccounts(want, got);
    var p := BothPasses(want, got);
    LengthOf(p.pairs);
    ReportLength(p);
    var common := multiset(want) * multiset(got);
    if Report(p) == [] {
      assert |p.want| == 0 && |p.got| == 0 && |Wants(p.pairs)| == 0 && |Gots(p.pairs)| == 0;
      assert multiset(want) == common && multiset(got) == common;
    }
    if multiset(want) == multiset(got) {
      assert common == multiset(want);
      assert |common| == |common| + |p.pairs| + |p.want|;
      assert |common| == |common| + |p.pairs| + |p.got|;
    }
  }

  lemma {:induction false} ReportLength(p: Passed)
    requires AllFit(1, p.pairs)
    ensures |Report(p)| == |p.pairs| + |p.want| + |p.got|
    decreases |p.pairs|
  {
    if p.pairs != [] {
      ReportLength(Passed(p.want, p.got, p.pairs[1..]));
    }
  }

  /** Line i is of the pair i: the expected finding changed into the made one in the one field
      named. */
  lemma {:induction false} ChangedNames(pairs: seq<Pair>, i: nat)
    requires AllFit(1, pairs) && i < |pairs|
    ensures |ChangedLines(pairs)| == |pairs|
    ensures var l := ChangedLines(pairs)[i];
            && l.Changed? && l.want == pairs[i].0 && l.got == pairs[i].1
            && l.want != l.got && With(l.want, l.field, l.got) == l.got
  {
    DifferencesMean(pairs[0].1, pairs[0].0);
    if |pairs| > 1 {
      ChangedNames(pairs[1..], if i == 0 then 0 else i - 1);
    }
  }

  /** The line says that the expected finding of the pair was made with one field changed. */
  predicate SaysChanged(l: Line, pair: Pair) {
    && l.Changed? && l.want == pair.0 && l.got == pair.1
    && l.want != l.got && With(l.want, l.field, l.got) == l.got
  }

  /** The report line by line: the pairs, then what is missing of the expected, then what is
      unexpected of the made, each in the order the passes leave them. */
  lemma ReportSays(p: Passed)
    requires AllFit(1, p.pairs)
    ensures var lines := Report(p);
            && |lines| == |p.pairs| + |p.want| + |p.got|
            && (forall i :: 0 <= i < |p.pairs| ==> SaysChanged(lines[i], p.pairs[i]))
            && (forall i :: 0 <= i < |p.want| ==> lines[|p.pairs| + i] == Missing(p.want[i]))
            && (forall i :: 0 <= i < |p.got| ==> lines[|p.pairs| + |p.want| + i] == Unexpected(p.got[i]))
  {
    ReportLength(p);
    forall i | 0 <= i < |p.pairs|
      ensures SaysChanged(Report(p)[i], p.pairs[i])
    {
      ChangedNames(p.pairs, i);
    }
    assert |ChangedLines(p.pairs)| == |p.pairs|;
  }

  method Compare(want: seq<Finding>, got: seq<Finding>) returns (lines: seq<Line>)
    ensures AllFit(1, BothPasses(want, got).pairs)
    ensures lines == Report(BothPasses(want, got))
    ensures lines == [] <==> multiset(want) == multiset(got)
    ensures Accounts(BothPasses(want, got), want, got)
  {
    SilentIffEqual(want, got);
    ReportAccounts(want, got);
    var missing, unexpected, _ := Matched(0, want, got);
    var pairs: seq<Pair>;
    missing, unexpected, pairs := Matched(1, missing, unexpected);
    lines := ChangedLines(pairs) + MissingLines(missing) + UnexpectedLines(unexpected);
  }

  lemma {:induction false} LengthOf(pairs: seq<Pair>)
    ensures |Wants(pairs)| == |Gots(pairs)| == |pairs|
  {
    if pairs != [] {
      LengthOf(pairs[1..]);
    }
  }
}
