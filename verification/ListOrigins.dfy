/** Every list of every run traced to the steps of the run: whose request it answers,
    which manifest it was shaped from, which bundles decided it, and when it comes
    from the cache (adapters/mcp/list.go). */
module ListOrigins {
  import opened Options
  import opened ListCaches
  import opened ListTools

  // ---------------------------------------------------------------- the run's labels

  /** The bundle in force after the steps: the last swapped in, or the first one. */
  function InForce(first: string, ls: seq<Label>): string {
    if ls == [] then first
    else if ls[|ls| - 1].Swap? then ls[|ls| - 1].bundle
    else InForce(first, ls[..|ls| - 1])
  }

  /** What the manifest held, generation by generation. */
  function Views(ls: seq<Label>): seq<seq<Entry>> {
    if ls == [] then [[]]
    else if ls[|ls| - 1].Refresh? then Views(ls[..|ls| - 1]) + [ls[|ls| - 1].entries]
    else Views(ls[..|ls| - 1])
  }

  lemma {:induction false} LastStep(c: Config, s: Sys, ls: seq<Label>)
    requires ls != [] && IsRun(c, s, ls)
    ensures var was, l := ls[..|ls| - 1], ls[|ls| - 1];
            && IsRun(c, s, was) && Can(c, After(c, s, was), l)
            && After(c, s, ls) == Apply(c, After(c, s, was), l)
    decreases |ls|
  {
    var was := ls[..|ls| - 1];
    if |ls| > 1 {
      LastStep(c, Apply(c, s, ls[0]), ls[1..]);
      assert was[0] == ls[0] && was[1..] == ls[1..][..|ls| - 2];
    } else {
      assert ls[1..] == [];
    }
  }

  lemma {:induction false} StateIs(c: Config, first: string, ls: seq<Label>)
    requires IsRun(c, Init(first), ls)
    ensures var s := After(c, Init(first), ls); s.bundle == InForce(first, ls) && s.views == Views(ls)
  {
    if ls != [] {
      LastStep(c, Init(first), ls);
      StateIs(c, first, ls[..|ls| - 1]);
    }
  }

  // ---------------------------------------------------------------- where a request comes from

  /** The request began at step i, for its id and with the manifest current then. */
  ghost predicate BeganAt(ls: seq<Label>, i: int, p: nat, r: Req) {
    && 0 <= i < |ls| && ls[i] == Begin(p, r.id)
    && r.generation == |Views(ls[..i])| - 1
    && r.entries == Views(ls[..i])[r.generation]
  }

  ghost predicate Began(ls: seq<Label>, p: nat, r: Req) {
    exists i :: BeganAt(ls, i, p, r)
  }

  /** bundle was in force when step i of the request looked. */
  predicate LookedAt(first: string, ls: seq<Label>, i: int, p: nat, bundle: string, probing: bool) {
    && 0 <= i < |ls| && (ls[i] == Probe(p) || (ls[i] == ShapeNext(p) && !probing))
    && bundle == InForce(first, ls[..i])
  }

  ghost predicate Found(first: string, ls: seq<Label>, p: nat, bundle: string, probing: bool) {
    exists i :: LookedAt(first, ls, i, p, bundle, probing)
  }

  ghost predicate AllFound(first: string, ls: seq<Label>, p: nat, used: seq<string>) {
    forall k :: 0 <= k < |used| ==> Found(first, ls, p, used[k], false)
  }

  /** What a request holds, traced to the steps of the run. */
  ghost predicate FromRun(first: string, ls: seq<Label>, p: nat, r: Req) {
    && Began(ls, p, r)
    && (!r.Snapped? ==> Found(first, ls, p, r.under, true))
    && (r.Shaping? || r.Served? ==> AllFound(first, ls, p, r.used))
    && ((r.Probed? || r.Shaping?) && r.probe != None ==> r.digest == r.under)
  }

  lemma BeganLater(ls: seq<Label>, l: Label, p: nat, r: Req)
    requires Began(ls, p, r)
    ensures Began(ls + [l], p, r)
  {
    var i :| BeganAt(ls, i, p, r);
    assert (ls + [l])[..i] == ls[..i];
    assert BeganAt(ls + [l], i, p, r);
  }

  lemma FoundLater(first: string, ls: seq<Label>, l: Label, p: nat, bundle: string, probing: bool)
    requires Found(first, ls, p, bundle, probing)
    ensures Found(first, ls + [l], p, bundle, probing)
  {
    var i :| LookedAt(first, ls, i, p, bundle, probing);
    assert (ls + [l])[..i] == ls[..i];
    assert LookedAt(first, ls + [l], i, p, bundle, probing);
  }

  lemma FoundNow(first: string, ls: seq<Label>, l: Label, p: nat)
    requires l == Probe(p) || l == ShapeNext(p)
    ensures Found(first, ls + [l], p, InForce(first, ls), l.Probe?)
  {
    assert (ls + [l])[..|ls|] == ls;
    assert LookedAt(first, ls + [l], |ls|, p, InForce(first, ls), l.Probe?);
  }

  /** What a probe found, some step found. */
  lemma ProbedFound(first: string, ls: seq<Label>, p: nat, bundle: string)
    requires Found(first, ls, p, bundle, true)
    ensures Found(first, ls, p, bundle, false)
  {
    var i :| LookedAt(first, ls, i, p, bundle, true);
    assert LookedAt(first, ls, i, p, bundle, false);
  }

  lemma FromLater(first: string, ls: seq<Label>, l: Label, p: nat, r: Req)
    requires FromRun(first, ls, p, r)
    ensures FromRun(first, ls + [l], p, r)
  {
    BeganLater(ls, l, p, r);
    if !r.Snapped? {
      FoundLater(first, ls, l, p, r.under, true);
    }
    if r.Shaping? || r.Served? {
      forall k | 0 <= k < |r.used|
        ensures Found(first, ls + [l], p, r.used[k], false)
      {
        FoundLater(first, ls, l, p, r.used[k], false);
      }
    }
  }

  /** The beginning is the same wherever the request is. */
  lemma SameBeginning(ls: seq<Label>, p: nat, r: Req, r': Req)
    requires Began(ls, p, r) && r'.id == r.id && r'.entries == r.entries && r'.generation == r.generation
    ensures Began(ls, p, r')
  {
    var i :| BeganAt(ls, i, p, r);
    assert BeganAt(ls, i, p, r');
  }

  lemma ProbeFrom(c: Config, first: string, ls: seq<Label>, p: nat, r: Req)
    requires FromRun(first, ls, p, r) && r.Snapped?
    ensures FromRun(first, ls + [Probe(p)], p, AfterProbe(c, r, InForce(first, ls)))
  {
    FromLater(first, ls, Probe(p), p, r);
    FoundNow(first, ls, Probe(p), p);
    SameBeginning(ls + [Probe(p)], p, r, AfterProbe(c, r, InForce(first, ls)));
  }

  lemma LookupFrom(c: Config, first: string, ls: seq<Label>, l: Label, r: Req, cache: Cache)
    requires l.Lookup? && FromRun(first, ls, l.p, r) && r.Probed?
    ensures FromRun(first, ls + [l], l.p, AfterLookup(c, r, cache, l.now))
  {
    FromLater(first, ls, l, l.p, r);
    SameBeginning(ls + [l], l.p, r, AfterLookup(c, r, cache, l.now));
  }

  lemma ShapeFrom(c: Config, first: string, ls: seq<Label>, p: nat, r: Req)
    requires FromRun(first, ls, p, r) && r.Shaping? && r.next < |r.entries|
    ensures FromRun(first, ls + [ShapeNext(p)], p, AfterShape(c, r, InForce(first, ls)))
  {
    var after, r' := ls + [ShapeNext(p)], AfterShape(c, r, InForce(first, ls));
    FromLater(first, ls, ShapeNext(p), p, r);
    FoundNow(first, ls, ShapeNext(p), p);
    ProbedFound(first, after, p, r.under);
    forall k | 0 <= k < |r'.used|
      ensures Found(first, after, p, r'.used[k], false)
    {
      if k < |r.used| {
        assert r'.used[k] == r.used[k];
      }
    }
    SameBeginning(after, p, r, r');
  }

  lemma BeginFrom(first: string, ls: seq<Label>, p: nat, id: string)
    requires Views(ls) != []
    ensures var n := |Views(ls)| - 1;
            FromRun(first, ls + [Begin(p, id)], p, Snapped(id, Views(ls)[n], n))
  {
    var after, n := ls + [Begin(p, id)], |Views(ls)| - 1;
    assert after[..|ls|] == ls;
    assert BeganAt(after, |ls|, p, Snapped(id, Views(ls)[n], n));
  }

  lemma AnswerFrom(c: Config, first: string, ls: seq<Label>, l: Label, r: Req, whole: bool)
    requires l.Answer? && FromRun(first, ls, l.p, r) && r.Shaping?
    ensures FromRun(first, ls + [l], l.p,
                    Served(r.id, r.entries, r.generation, r.under, whole, false, r.tools, r.used))
  {
    FromLater(first, ls, l, l.p, r);
    SameBeginning(ls + [l], l.p, r, Served(r.id, r.entries, r.generation, r.under, whole, false, r.tools, r.used));
  }

  /** What a step makes of the request it moves comes from the run. */
  lemma MovedFrom(c: Config, first: string, ls: seq<Label>, s: Sys, l: Label)
    requires s.bundle == InForce(first, ls) && s.views == Views(ls) && Can(c, s, l) && Moves(l)
    requires l.p in s.reqs ==> FromRun(first, ls, l.p, s.reqs[l.p])
    ensures FromRun(first, ls + [l], l.p, Apply(c, s, l).reqs[l.p])
  {
    match l
    case Begin(p, id) => BeginFrom(first, ls, p, id);
    case Probe(p) => ProbeFrom(c, first, ls, p, s.reqs[p]);
    case Lookup(p, _) => LookupFrom(c, first, ls, l, s.reqs[p], s.cache);
    case ShapeNext(p) => ShapeFrom(c, first, ls, p, s.reqs[p]);
    case Answer(p, _) => AnswerFrom(c, first, ls, l, s.reqs[p], s.reqs[p].cacheable && !s.reqs[p].mixed);
  }

  /** The steps that move a request. */
  predicate Moves(l: Label) {
    l.Begin? || l.Probe? || l.Lookup? || l.ShapeNext? || l.Answer?
  }

  lemma OthersStay(c: Config, s: Sys, l: Label, p: nat)
    requires Can(c, s, l) && p in Apply(c, s, l).reqs && !(Moves(l) && l.p == p)
    ensures p in s.reqs && Apply(c, s, l).reqs[p] == s.reqs[p]
  {
  }

  /** In every run every request began for the principal and with the manifest its first step names,
      probed under the bundle then in force, and each of its entries was decided under a
      bundle in force when one of its own steps looked. */
  lemma {:induction false} AllFromRun(c: Config, first: string, ls: seq<Label>, p: nat)
    requires IsRun(c, Init(first), ls) && p in After(c, Init(first), ls).reqs
    ensures FromRun(first, ls, p, After(c, Init(first), ls).reqs[p])
    decreases |ls|
  {
    if ls != [] {
      var n := |ls| - 1;
      LastStep(c, Init(first), ls);
      var was, l := ls[..n], ls[n];
      var s := After(c, Init(first), was);
      assert ls == was + [l];
      if p in s.reqs {
        AllFromRun(c, first, was, p);
      }
      if Moves(l) && l.p == p {
        StateIs(c, first, was);
        MovedFrom(c, first, was, s, l);
      } else {
        OthersStay(c, s, l, p);
        FromLater(first, was, l, p, s.reqs[p]);
      }
    }
  }

  // ---------------------------------------------------------------- the results

  /** Step i began the request for id, and tools shows the manifest of that step, each entry as
      decided under the bundle of used, which a step of the request found in force. */
  ghost predicate AnswersFrom(c: Config, first: string, ls: seq<Label>, p: nat, id: string, tools: seq<Shown>,
                              i: int, used: seq<string>)
  {
    && 0 <= i < |ls| && ls[i] == Begin(p, id) && Views(ls[..i]) != []
    && |used| == |Last(Views(ls[..i]))| && ShowsAll(c, id, Last(Views(ls[..i])), used, tools)
    && AllFound(first, ls, p, used)
  }

  function Last<T>(xs: seq<T>): T
    requires xs != []
  {
    xs[|xs| - 1]
  }

  ghost predicate RightList(c: Config, first: string, ls: seq<Label>, p: nat, id: string, tools: seq<Shown>) {
    exists i, used :: AnswersFrom(c, first, ls, p, id, tools, i, used)
  }

  /** The bundles a served list was decided under. */
  lemma UsedOf(c: Config, first: string, ls: seq<Label>, p: nat, r: Req, views: seq<seq<Entry>>)
    returns (used: seq<string>)
    requires r.Served? && ReqOk(c, views, r) && FromRun(first, ls, p, r)
    ensures |used| == |r.entries| && ShowsAll(c, r.id, r.entries, used, r.tools) && AllFound(first, ls, p, used)
  {
    if r.hit {
      used := seq(|r.entries|, _ => r.under);
      FreshIsShaped(c, r.id, r.entries, r.under);
      ProbedFound(first, ls, p, r.under);
    } else {
      used := r.used;
    }
    ShapingSubtracts(c, r.id, r.entries, used);
  }

  /** In every run every list answered, cached or not, shows its own principal the manifest current
      when its request began: all that may be shown and nothing else, in the manifest's
      order, each entry as decided under a bundle in force while the request ran. */
  lemma ServedRight(c: Config, first: string, ls: seq<Label>, p: nat)
    requires IsRun(c, Init(first), ls)
    ensures var s := After(c, Init(first), ls);
            p in s.reqs && s.reqs[p].Served? ==> RightList(c, first, ls, p, s.reqs[p].id, s.reqs[p].tools)
  {
    var s := After(c, Init(first), ls);
    if p in s.reqs && s.reqs[p].Served? {
      var r := s.reqs[p];
      RunInv(c, Init(first), ls);
      AllFromRun(c, first, ls, p);
      var used := UsedOf(c, first, ls, p, r, s.views);
      var i :| BeganAt(ls, i, p, r);
      assert AnswersFrom(c, first, ls, p, r.id, r.tools, i, used);
    }
  }
}
