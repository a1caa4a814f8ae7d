/** tools/list (adapters/mcp/list.go) as the steps its requests interleave by, with
    manifest refreshes and swaps of the policy bundle between any two of them: a
    list answered from the cache is the list its own manifest snapshot would be
    shaped into under the bundle it has just probed. */
module ListTools {
  import opened Options
  import opened ListCaches
  import Manifests

  type Entry = Manifests.Entry

  datatype Kind = ShapeNone | ShapeAnnotate | ShapeHide

  datatype Listing = Denied | Decided | PerCall

  datatype Previewed = Previewed(listing: Listing, verdict: string)

  /** Of one adapter: the shaping, the time a list stays good, the principal fields its
      listener fixes, and the policy, which answers for a principal, an entry and a
      bundle (named by its digest). */
  datatype Config = Config(kind: Kind, ttl: int, tenant: string, authType: string, strength: string,
                           policy: (string, Entry, string) -> Previewed)

  const separator := [0 as char]
  const codeUnclassified := "ACTION_UNCLASSIFIED"
  const markDecidedPerCall := "DECIDED_PER_CALL"

  function PrincipalKey(c: Config, id: string): string {
    c.tenant + separator + c.authType + separator + id + separator + c.strength
  }

  predicate Asks(e: Entry) {
    e.classified && !e.ambiguous
  }

  /** Shaping asks the policy about e. */
  predicate Decides(c: Config, e: Entry) {
    !e.withheld && c.kind != ShapeNone && Asks(e)
  }

  function Mark(c: Config, e: Entry, d: Previewed): string {
    if !Asks(e) then codeUnclassified
    else if d.listing == PerCall then markDecidedPerCall
    else d.verdict
  }

  /** e as its principal is shown it, or nothing. */
  function Shape(c: Config, e: Entry, d: Previewed): seq<Shown> {
    if e.withheld then []
    else if c.kind == ShapeHide && (!Asks(e) || d.listing == Denied) then []
    else [Shown(e.tool, if c.kind == ShapeAnnotate then Some(Mark(c, e, d)) else None)]
  }

  /** The whole list shaped under one bundle. */
  function Fresh(c: Config, id: string, entries: seq<Entry>, bundle: string): seq<Shown> {
    if entries == [] then []
    else
      var n := |entries| - 1;
      Fresh(c, id, entries[..n], bundle) + Shape(c, entries[n], c.policy(id, entries[n], bundle))
  }

  /** The list with each entry shaped under its own bundle. */
  function ShapedUnder(c: Config, id: string, entries: seq<Entry>, used: seq<string>): seq<Shown>
    requires |used| == |entries|
  {
    if entries == [] then []
    else
      var n := |entries| - 1;
      ShapedUnder(c, id, entries[..n], used[..n]) + Shape(c, entries[n], c.policy(id, entries[n], used[n]))
  }

  // ---------------------------------------------------------------- what shaping shows

  /** What a list may show at all, and under hiding. */
  predicate Visible(c: Config, id: string, bundle: string, e: Entry) {
    && !e.withheld
    && (c.kind == ShapeHide ==> e.classified && !e.ambiguous && c.policy(id, e, bundle).listing != Denied)
  }

  /** t is e's own tool, and under annotation says what was decided of it: that nobody classified
      it or two upstreams list it, that it is decided per call, or the policy's verdict. */
  predicate Shows(c: Config, id: string, bundle: string, e: Entry, t: Shown) {
    && t.tool == e.tool
    && (c.kind != ShapeAnnotate ==> t.mark == None)
    && (c.kind == ShapeAnnotate && !(e.classified && !e.ambiguous) ==> t.mark == Some("ACTION_UNCLASSIFIED"))
    && (c.kind == ShapeAnnotate && e.classified && !e.ambiguous ==>
          var d := c.policy(id, e, bundle);
          t.mark == Some(if d.listing == PerCall then "DECIDED_PER_CALL" else d.verdict))
  }

  /** Where the entries that may be shown stand, in order. */
  function Places(c: Config, id: string, entries: seq<Entry>, used: seq<string>): seq<nat>
    requires |used| == |entries|
  {
    if entries == [] then []
    else
      var n := |entries| - 1;
      Places(c, id, entries[..n], used[..n]) + if Visible(c, id, used[n], entries[n]) then [n] else []
  }

  /** shown is, in the manifest's order, exactly the entries that may be shown, each as what was
      decided of it under its bundle. */
  ghost predicate ShowsAll(c: Config, id: string, entries: seq<Entry>, used: seq<string>, shown: seq<Shown>)
    requires |used| == |entries|
  {
    var at := Places(c, id, entries, used);
    && |shown| == |at|
    && forall i :: 0 <= i < |at| ==>
         at[i] < |entries| && Shows(c, id, used[at[i]], entries[at[i]], shown[i])
  }

  /** Shaping only subtracts and marks. */
  lemma {:induction false} ShapingSubtracts(c: Config, id: string, entries: seq<Entry>, used: seq<string>)
    requires |used| == |entries|
    ensures ShowsAll(c, id, entries, used, ShapedUnder(c, id, entries, used))
  {
    if entries != [] {
      var n := |entries| - 1;
      ShapingSubtracts(c, id, entries[..n], used[..n]);
      ShapeShows(c, id, entries[n], used[n]);
    }
  }

  lemma ShapeShows(c: Config, id: string, e: Entry, bundle: string)
    ensures var shown := Shape(c, e, c.policy(id, e, bundle));
            if Visible(c, id, bundle, e) then |shown| == 1 && Shows(c, id, bundle, e, shown[0]) else shown == []
  {
  }

  /** A list shaped under one bundle. */
  lemma {:induction false} FreshIsShaped(c: Config, id: string, entries: seq<Entry>, bundle: string)
    ensures Fresh(c, id, entries, bundle) == ShapedUnder(c, id, entries, seq(|entries|, _ => bundle))
  {
    if entries != [] {
      var n := |entries| - 1;
      FreshIsShaped(c, id, entries[..n], bundle);
      assert seq(|entries|, _ => bundle)[..n] == seq(n, _ => bundle);
    }
  }

  // ---------------------------------------------------------------- the steps

  /** Where a request is. `under` is the bundle in force when it probed, which the code
      does not keep; `digest` is the one it read, "" when nothing is previewed; `used` are
      the bundles its entries were shaped under, one each, kept as history. */
  datatype Req =
    | Snapped(id: string, entries: seq<Entry>, generation: nat)
    | Probed(id: string, entries: seq<Entry>, generation: nat, probe: Option<nat>, digest: string, under: string)
    | Shaping(id: string, entries: seq<Entry>, generation: nat, probe: Option<nat>, digest: string, under: string,
              cacheable: bool, mixed: bool, next: nat, tools: seq<Shown>, used: seq<string>)
    | Served(id: string, entries: seq<Entry>, generation: nat, under: string, whole: bool, hit: bool,
             tools: seq<Shown>, used: seq<string>)

  datatype Refresh = Refreshed | Read(generation: nat)

  /** views[g] is what the manifest held in generation g. */
  datatype Sys = Sys(views: seq<seq<Entry>>, bundle: string, cache: Cache, reqs: map<nat, Req>,
                     refreshes: map<nat, Refresh>)

  /** A refresh that cannot read its upstream's list replaces it with none, so Refresh is
      every refresh. */
  datatype Label =
    | Begin(p: nat, id: string)
    | Probe(p: nat)
    | Lookup(p: nat, now: int)
    | ShapeNext(p: nat)
    | Answer(p: nat, now: int)
    | Swap(bundle: string)
    | Refresh(r: nat, entries: seq<Entry>)
    | ReadGeneration(r: nat)
    | ResetLists(r: nat)

  function FirstAsked(entries: seq<Entry>, from: nat): Option<nat>
    requires from <= |entries|
    decreases |entries| - from
  {
    if from == |entries| then None
    else if Asks(entries[from]) then Some(from)
    else FirstAsked(entries, from + 1)
  }

  predicate Can(c: Config, s: Sys, l: Label) {
    match l
    case Begin(p, _) => p !in s.reqs && s.views != []
    case Probe(p) => p in s.reqs && s.reqs[p].Snapped?
    case Lookup(p, _) => p in s.reqs && s.reqs[p].Probed?
    case ShapeNext(p) => p in s.reqs && s.reqs[p].Shaping? && s.reqs[p].next < |s.reqs[p].entries|
    case Answer(p, _) => p in s.reqs && s.reqs[p].Shaping? && s.reqs[p].next == |s.reqs[p].entries|
    case Swap(_) => true
    case Refresh(r, _) => r !in s.refreshes
    case ReadGeneration(r) => r in s.refreshes && s.refreshes[r] == Refreshed && s.views != []
    case ResetLists(r) => r in s.refreshes && s.refreshes[r].Read?
  }

  /** What probing turns r into under the bundle now in force. */
  function AfterProbe(c: Config, r: Req, now: string): Req
    requires r.Snapped?
  {
    if c.ttl <= 0 then Shaping(r.id, r.entries, r.generation, None, "", now, false, false, 0, [], [])
    else
      var probe := if c.kind == ShapeNone then None else FirstAsked(r.entries, 0);
      if probe == None then Probed(r.id, r.entries, r.generation, None, "", now)
      else if now == "" then Shaping(r.id, r.entries, r.generation, probe, "", now, false, false, 0, [], [])
      else Probed(r.id, r.entries, r.generation, probe, now, now)
  }

  function AfterLookup(c: Config, r: Req, cache: Cache, now: int): Req
    requires r.Probed?
  {
    var key := PrincipalKey(c, r.id);
    if Hit(cache, key, r.digest, r.generation, now)
    then Served(r.id, r.entries, r.generation, r.under, true, true, cache.m[key].tools, [])
    else Shaping(r.id, r.entries, r.generation, r.probe, r.digest, r.under, true, false, 0, [], [])
  }

  function AfterShape(c: Config, r: Req, now: string): Req
    requires r.Shaping? && r.next < |r.entries|
  {
    var e := r.entries[r.next];
    var bundle := if r.probe == Some(r.next) then r.digest else now;
    r.(tools := r.tools + Shape(c, e, c.policy(r.id, e, bundle)),
       mixed := r.mixed || (Decides(c, e) && r.probe != None && bundle != r.digest),
       next := r.next + 1,
       used := r.used + [bundle])
  }

  function Apply(c: Config, s: Sys, l: Label): Sys
    requires Can(c, s, l)
  {
    match l
    case Begin(p, id) => s.(reqs := s.reqs[p := Snapped(id, s.views[|s.views| - 1], |s.views| - 1)])
    case Probe(p) => s.(reqs := s.reqs[p := AfterProbe(c, s.reqs[p], s.bundle)])
    case Lookup(p, now) =>
      var r := s.reqs[p];
      s.(cache := Get(s.cache, PrincipalKey(c, r.id), r.digest, r.generation, now),
         reqs := s.reqs[p := AfterLookup(c, r, s.cache, now)])
    case ShapeNext(p) => s.(reqs := s.reqs[p := AfterShape(c, s.reqs[p], s.bundle)])
    case Answer(p, now) =>
      var r := s.reqs[p];
      var whole := r.cacheable && !r.mixed;
      s.(cache := if whole then Put(s.cache, c.ttl, PrincipalKey(c, r.id), r.tools, r.digest, r.generation, now)
          else s.cache,
         reqs := s.reqs[p := Served(r.id, r.entries, r.generation, r.under, whole, false, r.tools, r.used)])
    case Swap(bundle) => s.(bundle := bundle)
    case Refresh(r, entries) => s.(views := s.views + [entries], refreshes := s.refreshes[r := Refreshed])
    case ReadGeneration(r) => s.(refreshes := s.refreshes[r := Read(|s.views| - 1)])
    case ResetLists(r) => s.(cache := Reset(s.cache, s.refreshes[r].generation), refreshes := s.refreshes - {r})
  }

  function Init(bundle: string): Sys {
    Sys([[]], bundle, EmptyCache, map[], map[])
  }

  predicate IsRun(c: Config, s: Sys, ls: seq<Label>)
    decreases |ls|
  {
    ls == [] || (Can(c, s, ls[0]) && IsRun(c, Apply(c, s, ls[0]), ls[1..]))
  }

  function After(c: Config, s: Sys, ls: seq<Label>): Sys
    requires IsRun(c, s, ls)
    decreases |ls|
  {
    if ls == [] then s else After(c, Apply(c, s, ls[0]), ls[1..])
  }

  // ---------------------------------------------------------------- what every step keeps

  /** No entry the request read is previewed, so no bundle shapes its list. */
  predicate NothingAsked(c: Config, entries: seq<Entry>) {
    c.kind == ShapeNone || forall i :: 0 <= i < |entries| ==> !Asks(entries[i])
  }

  /** What the request cached or will cache its list under tells its list apart. */
  predicate RightDigest(c: Config, r: Req)
    requires r.Probed? || r.Shaping?
  {
    if r.probe == None then r.digest == "" && NothingAsked(c, r.entries) else r.digest == r.under
  }

  ghost predicate ReqOk(c: Config, views: seq<seq<Entry>>, r: Req) {
    && r.generation < |views|
    && r.entries == views[r.generation]
    && (r.Probed? ==> RightDigest(c, r))
    && (r.Shaping? ==> r.next <= |r.entries| && (r.cacheable ==> RightDigest(c, r)))
    && (r.Shaping? && r.cacheable && !r.mixed ==> r.tools == Fresh(c, r.id, r.entries[..r.next], r.digest))
    && (r.Shaping? ==> |r.used| == r.next && r.tools == ShapedUnder(c, r.id, r.entries[..r.next], r.used))
    && (r.Served? && !r.hit ==> |r.used| == |r.entries| && r.tools == ShapedUnder(c, r.id, r.entries, r.used))
    && (r.Served? && r.whole ==> r.tools == Fresh(c, r.id, r.entries, r.under))
    && (r.Served? && r.hit ==> r.whole)
  }

  ghost predicate CachedOk(c: Config, views: seq<seq<Entry>>, key: string, x: Cached) {
    && x.generation < |views|
    && forall id: string :: PrincipalKey(c, id) == key ==> x.tools == Fresh(c, id, views[x.generation], x.bundle)
  }

  ghost predicate Inv(c: Config, s: Sys) {
    && CacheInv(s.cache)
    && (forall p :: p in s.reqs ==> ReqOk(c, s.views, s.reqs[p]))
    && (forall k :: k in s.cache.m ==> CachedOk(c, s.views, k, s.cache.m[k]))
  }

  /** For the principals one listener takes, the key names one principal only, whatever
      characters its id holds. */
  lemma KeyInjective(c: Config, a: string, b: string)
    requires PrincipalKey(c, a) == PrincipalKey(c, b)
    ensures a == b
  {
    var before := c.tenant + separator + c.authType + separator;
    var after := separator + c.strength;
    assert PrincipalKey(c, a) == before + a + after;
    assert PrincipalKey(c, b) == before + b + after;
    assert a == (before + a + after)[|before|..|before| + |a|];
    assert b == (before + b + after)[|before|..|before| + |b|];
  }

  /** A list no preview shapes is the same under every bundle. */
  lemma {:induction false} BundleIndependent(c: Config, id: string, entries: seq<Entry>, a: string, b: string)
    requires NothingAsked(c, entries)
    ensures Fresh(c, id, entries, a) == Fresh(c, id, entries, b)
  {
    if entries != [] {
      BundleIndependent(c, id, entries[..|entries| - 1], a, b);
    }
  }

  lemma {:induction false} FirstAskedIs(entries: seq<Entry>, from: nat)
    requires from <= |entries|
    ensures FirstAsked(entries, from) == None ==> forall i :: from <= i < |entries| ==> !Asks(entries[i])
    decreases |entries| - from
  {
    if from < |entries| && !Asks(entries[from]) {
      FirstAskedIs(entries, from + 1);
    }
  }

  lemma ProbeOk(c: Config, views: seq<seq<Entry>>, r: Req, now: string)
    requires ReqOk(c, views, r) && r.Snapped?
    ensures ReqOk(c, views, AfterProbe(c, r, now))
  {
    FirstAskedIs(r.entries, 0);
  }

  lemma LookupOk(c: Config, views: seq<seq<Entry>>, r: Req, cache: Cache, now: int)
    requires ReqOk(c, views, r) && r.Probed?
    requires forall k :: k in cache.m ==> CachedOk(c, views, k, cache.m[k])
    ensures ReqOk(c, views, AfterLookup(c, r, cache, now))
  {
    if r.probe == None {
      BundleIndependent(c, r.id, r.entries, r.digest, r.under);
    }
  }

  lemma ShapeOk(c: Config, views: seq<seq<Entry>>, r: Req, now: string)
    requires ReqOk(c, views, r) && r.Shaping? && r.next < |r.entries|
    ensures ReqOk(c, views, AfterShape(c, r, now))
  {
    assert r.entries[..r.next + 1][..r.next] == r.entries[..r.next];
    assert AfterShape(c, r, now).used[..r.next] == r.used;
  }

  lemma AnswerOk(c: Config, views: seq<seq<Entry>>, r: Req)
    requires ReqOk(c, views, r) && r.Shaping? && r.next == |r.entries| && r.cacheable && !r.mixed
    ensures r.tools == Fresh(c, r.id, r.entries, r.under)
    ensures forall now: int :: CachedOk(c, views, PrincipalKey(c, r.id), Cached(r.tools, r.digest, r.generation, now))
  {
    assert r.entries[..r.next] == r.entries;
    if r.probe == None {
      BundleIndependent(c, r.id, r.entries, r.digest, r.under);
    }
    forall id: string | PrincipalKey(c, id) == PrincipalKey(c, r.id)
      ensures id == r.id
    {
      KeyInjective(c, id, r.id);
    }
  }

  lemma StepInv(c: Config, s: Sys, l: Label)
    requires Inv(c, s) && Can(c, s, l)
    ensures Inv(c, Apply(c, s, l))
  {
    match l
    case Begin(p, _) =>
    case Probe(p) => ProbeOk(c, s.views, s.reqs[p], s.bundle);
    case Lookup(p, now) => LookupInv(c, s, p, now);
    case ShapeNext(p) => ShapeOk(c, s.views, s.reqs[p], s.bundle);
    case Answer(p, now) => AnswerInv(c, s, p, now);
    case Swap(_) =>
    case Refresh(_, entries) => RefreshInv(c, s, entries);
    case ReadGeneration(_) =>
    case ResetLists(_) =>
  }

  lemma LookupInv(c: Config, s: Sys, p: nat, now: int)
    requires Inv(c, s) && Can(c, s, Lookup(p, now))
    ensures Inv(c, Apply(c, s, Lookup(p, now)))
  {
    var r := s.reqs[p];
    GetInv(s.cache, PrincipalKey(c, r.id), r.digest, r.generation, now);
    LookupOk(c, s.views, r, s.cache, now);
  }

  lemma AnswerInv(c: Config, s: Sys, p: nat, now: int)
    requires Inv(c, s) && Can(c, s, Answer(p, now))
    ensures Inv(c, Apply(c, s, Answer(p, now)))
  {
    var r := s.reqs[p];
    assert r.entries[..r.next] == r.entries;
    if r.cacheable && !r.mixed {
      AnswerOk(c, s.views, r);
      PutInv(s.cache, c.ttl, PrincipalKey(c, r.id), r.tools, r.digest, r.generation, now);
    }
  }

  lemma RefreshInv(c: Config, s: Sys, entries: seq<Entry>)
    requires Inv(c, s)
    ensures Inv(c, s.(views := s.views + [entries]))
  {
    var views := s.views + [entries];
    forall p | p in s.reqs
      ensures ReqOk(c, views, s.reqs[p])
    {
      assert ReqOk(c, s.views, s.reqs[p]);
    }
    forall k | k in s.cache.m
      ensures CachedOk(c, views, k, s.cache.m[k])
    {
      assert CachedOk(c, s.views, k, s.cache.m[k]);
    }
  }

  lemma {:induction false} RunInv(c: Config, s: Sys, ls: seq<Label>)
    requires Inv(c, s) && IsRun(c, s, ls)
    ensures Inv(c, After(c, s, ls))
    decreases |ls|
  {
    if ls != [] {
      StepInv(c, s, ls[0]);
      RunInv(c, Apply(c, s, ls[0]), ls[1..]);
    }
  }

  // ---------------------------------------------------------------- the results

  /** In every run, a list answered from the cache, or kept in it, is the list its
      own snapshot shapes into under the bundle that was in force when the request
      probed: no other principal's, no other manifest's and no mix of two bundles. */
  lemma CachedIsFresh(c: Config, bundle: string, ls: seq<Label>, p: nat)
    requires IsRun(c, Init(bundle), ls)
    ensures var s := After(c, Init(bundle), ls);
            p in s.reqs && s.reqs[p].Served? && (s.reqs[p].hit || s.reqs[p].whole) ==>
              && s.reqs[p].generation < |s.views|
              && s.reqs[p].tools == Fresh(c, s.reqs[p].id, s.views[s.reqs[p].generation], s.reqs[p].under)
  {
    RunInv(c, Init(bundle), ls);
    var s := After(c, Init(bundle), ls);
    if p in s.reqs {
      assert ReqOk(c, s.views, s.reqs[p]);
    }
  }

  /** In every run the cache holds at most its bound, none shaped from a manifest older
      than the last reset, and each right for the one principal its key names. */
  lemma CacheHolds(c: Config, bundle: string, ls: seq<Label>)
    requires IsRun(c, Init(bundle), ls)
    ensures var s := After(c, Init(bundle), ls);
            && |s.cache.m| <= maxCachedLists
            && forall id: string :: PrincipalKey(c, id) in s.cache.m ==>
                 var x := s.cache.m[PrincipalKey(c, id)];
                 && s.cache.generation <= x.generation < |s.views|
                 && x.tools == Fresh(c, id, s.views[x.generation], x.bundle)
  {
    RunInv(c, Init(bundle), ls);
    var s := After(c, Init(bundle), ls);
    forall id: string | PrincipalKey(c, id) in s.cache.m
      ensures var x := s.cache.m[PrincipalKey(c, id)];
              && s.cache.generation <= x.generation < |s.views|
              && x.tools == Fresh(c, id, s.views[x.generation], x.bundle)
    {
      assert CachedOk(c, s.views, PrincipalKey(c, id), s.cache.m[PrincipalKey(c, id)]);
    }
  }
}
