/** The cache of adapters/mcp/list.go is of use: after any run, a principal that lists twice with
    nothing in between is answered the second time from the cache, with the first list,
    if and only if caching is on, the bundle can be told and the list has not expired. */
module ListReuse {
  import opened Options
  import opened ListCaches
  import opened ListTools
  import ListCacheLaws
  import ListOrigins

  // ---------------------------------------------------------------- one request by itself

  /** The rest of the shaping of request p, nothing else moving. */
  function ShapeRest(c: Config, s: Sys, p: nat): Sys
    requires p in s.reqs && s.reqs[p].Shaping? && s.reqs[p].next <= |s.reqs[p].entries|
    decreases |s.reqs[p].entries| - s.reqs[p].next
  {
    if Can(c, s, ShapeNext(p)) then ShapeRest(c, Apply(c, s, ShapeNext(p)), p) else s
  }

  /** Request p for id up to its shaping or its answer: it looks up at now if it looks up at all. */
  function Opened(c: Config, s: Sys, p: nat, id: string, now: int): Sys
    requires Can(c, s, Begin(p, id))
  {
    var probed := Apply(c, Apply(c, s, Begin(p, id)), Probe(p));
    if probed.reqs[p].Probed? then Apply(c, probed, Lookup(p, now)) else probed
  }

  // ---------------------------------------------------------------- what each stage leaves

  /** The bundle in force tells lists apart: it has a digest, or no preview shapes the list. */
  predicate Told(c: Config, s: Sys)
    requires s.views != []
  {
    s.bundle != "" || NothingAsked(c, s.views[|s.views| - 1])
  }

  lemma {:induction false} FirstAskedExactly(entries: seq<Entry>, from: nat)
    requires from <= |entries|
    ensures var r := FirstAsked(entries, from);
            && (r == None <==> forall i :: from <= i < |entries| ==> !Asks(entries[i]))
            && (r != None ==> from <= r.value < |entries| && Asks(entries[r.value]))
    decreases |entries| - from
  {
    if from < |entries| && !Asks(entries[from]) {
      FirstAskedExactly(entries, from + 1);
    }
  }

  /** What a request looks its list up under. */
  function DigestOf(c: Config, s: Sys): string
    requires s.views != []
  {
    if NothingAsked(c, s.views[|s.views| - 1]) then "" else s.bundle
  }

  /** A request looks up exactly when caching is on and the bundle is told, and is then
      answered at once exactly when the cache has its principal's list. */
  lemma OpenedIs(c: Config, s: Sys, p: nat, id: string, now: int)
    requires Can(c, s, Begin(p, id))
    ensures var s', g, key := Opened(c, s, p, id, now), |s.views| - 1, PrincipalKey(c, id);
            var looks := c.ttl > 0 && Told(c, s);
            var hit := looks && Hit(s.cache, key, DigestOf(c, s), g, now);
            && p in s'.reqs && s'.views == s.views && s'.bundle == s.bundle
            && s'.cache == (if looks then Get(s.cache, key, DigestOf(c, s), g, now) else s.cache)
            && s'.reqs == s.reqs[p := s'.reqs[p]]
            && s'.reqs[p].id == id && s'.reqs[p].entries == s.views[g] && s'.reqs[p].generation == g
            && (hit ==> s'.reqs[p].Served? && s'.reqs[p].hit && s'.reqs[p].tools == s.cache.m[key].tools)
            && (!hit ==> s'.reqs[p].Shaping? && s'.reqs[p].cacheable == looks && !s'.reqs[p].mixed
                         && s'.reqs[p].next == 0)
            && (!hit && looks ==> s'.reqs[p].digest == DigestOf(c, s)
                                  && (s'.reqs[p].probe != None ==> s'.reqs[p].digest == s.bundle))
  {
    FirstAskedExactly(s.views[|s.views| - 1], 0);
  }

  /** Nothing swapped, so no preview differs and the list stays whole. */
  lemma {:induction false} RestIs(c: Config, s: Sys, p: nat)
    requires p in s.reqs && s.reqs[p].Shaping? && s.reqs[p].next <= |s.reqs[p].entries|
    requires s.reqs[p].cacheable ==> !s.reqs[p].mixed && (s.reqs[p].probe != None ==> s.reqs[p].digest == s.bundle)
    ensures var s', r := ShapeRest(c, s, p), s.reqs[p];
            && p in s'.reqs && s' == s.(reqs := s.reqs[p := s'.reqs[p]])
            && Can(c, s', Answer(p, 0))
            && s'.reqs[p].id == r.id && s'.reqs[p].generation == r.generation && s'.reqs[p].digest == r.digest
            && s'.reqs[p].cacheable == r.cacheable && (r.cacheable ==> !s'.reqs[p].mixed)
    decreases |s.reqs[p].entries| - s.reqs[p].next
  {
    if Can(c, s, ShapeNext(p)) {
      RestIs(c, Apply(c, s, ShapeNext(p)), p);
    }
  }

  /** Request p for id from its beginning to its answer, looking up at now and answering at then. */
  function ListAlone(c: Config, s: Sys, p: nat, id: string, now: int, kept: int): Sys
    requires Can(c, s, Begin(p, id))
  {
    var s1 := Opened(c, s, p, id, now);
    OpenedIs(c, s, p, id, now);
    if s1.reqs[p].Served? then s1
    else
      RestIs(c, s1, p);
      Apply(c, ShapeRest(c, s1, p), Answer(p, kept))
  }

  // ---------------------------------------------------------------- the floor stays below the manifest

  predicate FloorOk(s: Sys) {
    && s.cache.generation < |s.views|
    && forall r :: r in s.refreshes && s.refreshes[r].Read? ==> s.refreshes[r].generation < |s.views|
  }

  lemma {:induction false} FloorBelow(c: Config, s: Sys, ls: seq<Label>)
    requires FloorOk(s) && IsRun(c, s, ls)
    ensures FloorOk(After(c, s, ls))
    decreases |ls|
  {
    if ls != [] {
      FloorBelow(c, Apply(c, s, ls[0]), ls[1..]);
    }
  }

  // ---------------------------------------------------------------- the result

  /** A whole list not older than the last reset is kept for ttl when there is room. */
  lemma AnswerKeeps(c: Config, s: Sys, p: nat, kept: int)
    requires Can(c, s, Answer(p, kept)) && s.reqs[p].cacheable && !s.reqs[p].mixed
    requires CacheInv(s.cache) && s.cache.generation <= s.reqs[p].generation
    requires |ListCacheLaws.Fresh(s.cache.m, kept)| < 1024
    ensures var s', r := Apply(c, s, Answer(p, kept)), s.reqs[p];
            && p in s'.reqs && s'.reqs[p].Served? && !s'.reqs[p].hit && s'.views == s.views && s'.bundle == s.bundle
            && PrincipalKey(c, r.id) in s'.cache.m
            && s'.cache.m[PrincipalKey(c, r.id)] == Cached(s'.reqs[p].tools, r.digest, r.generation, kept + c.ttl)
  {
    var r := s.reqs[p];
    ListCacheLaws.KeptExactly(s.cache, c.ttl, PrincipalKey(c, r.id), r.tools, r.digest, r.generation, kept);
  }

  lemma RestKeeps(c: Config, s: Sys, p: nat, kept: int)
    requires p in s.reqs && s.reqs[p].Shaping? && s.reqs[p].next <= |s.reqs[p].entries| && s.reqs[p].cacheable
    requires !s.reqs[p].mixed && (s.reqs[p].probe != None ==> s.reqs[p].digest == s.bundle)
    requires CacheInv(s.cache) && s.cache.generation <= s.reqs[p].generation
    requires |ListCacheLaws.Fresh(s.cache.m, kept)| < 1024
    ensures var rest, r := ShapeRest(c, s, p), s.reqs[p];
            && Can(c, rest, Answer(p, kept))
            && var s', key := Apply(c, rest, Answer(p, kept)), PrincipalKey(c, r.id);
            && p in s'.reqs && s'.reqs[p].Served? && !s'.reqs[p].hit && s'.views == s.views && s'.bundle == s.bundle
            && key in s'.cache.m
            && s'.cache.m[key] == Cached(s'.reqs[p].tools, r.digest, r.generation, kept + c.ttl)
  {
    RestIs(c, s, p);
    AnswerKeeps(c, ShapeRest(c, s, p), p, kept);
  }

  /** A lookup makes no less room. */
  lemma RoomLeft(c: Cache, key: string, bundle: string, generation: nat, now: int, kept: int)
    requires CacheInv(c)
    ensures var c' := Get(c, key, bundle, generation, now);
            CacheInv(c') && |ListCacheLaws.Fresh(c'.m, kept)| <= |ListCacheLaws.Fresh(c.m, kept)|
  {
    GetInv(c, key, bundle, generation, now);
    SubsetSize(ListCacheLaws.Fresh(Get(c, key, bundle, generation, now).m, kept), ListCacheLaws.Fresh(c.m, kept));
  }

  /** What a first listing by itself leaves: its list kept for ttl, if it looked up, missed and there
      is room. */
  lemma FirstKeeps(c: Config, s: Sys, p: nat, id: string, now: int, kept: int)
    requires Can(c, s, Begin(p, id)) && FloorOk(s) && CacheInv(s.cache) && c.ttl > 0 && Told(c, s)
    requires |ListCacheLaws.Fresh(s.cache.m, kept)| < 1024
    ensures var s', key := ListAlone(c, s, p, id, now, kept), PrincipalKey(c, id);
            && p in s'.reqs && s'.reqs[p].Served? && s'.views == s.views && s'.bundle == s.bundle
            && (!s'.reqs[p].hit ==>
                  && key in s'.cache.m
                  && s'.cache.m[key] == Cached(s'.reqs[p].tools, DigestOf(c, s), |s.views| - 1, kept + c.ttl))
  {
    var s1 := Opened(c, s, p, id, now);
    OpenedIs(c, s, p, id, now);
    if s1.reqs[p].Shaping? {
      RoomLeft(s.cache, PrincipalKey(c, id), DigestOf(c, s), |s.views| - 1, now, kept);
      RestKeeps(c, s1, p, kept);
    }
  }

  /** After any run, of two listings of one principal with nothing in between, the first shaped, the
      second is answered from the cache with the first's list, until ttl after it was kept
      and no longer. */
  lemma SecondFromCache(c: Config, first: string, ls: seq<Label>, p: nat, q: nat, id: string,
                        now: int, kept: int, later: int)
    requires IsRun(c, Init(first), ls) && c.ttl > 0
    ensures var s := After(c, Init(first), ls);
            p !in s.reqs && s.views != [] && Told(c, s) && |ListCacheLaws.Fresh(s.cache.m, kept)| < 1024 ==>
              var s' := ListAlone(c, s, p, id, now, kept);
              p in s'.reqs && s'.reqs[p].Served? &&
              (!s'.reqs[p].hit && Can(c, s', Begin(q, id)) ==>
                 var r := Opened(c, s', q, id, later).reqs[q];
                 && (r.Served? <==> later < kept + c.ttl)
                 && (r.Served? ==> r.hit && r.tools == s'.reqs[p].tools))
  {
    var s := After(c, Init(first), ls);
    RunInv(c, Init(first), ls);
    FloorBelow(c, Init(first), ls);
    if p !in s.reqs && s.views != [] && Told(c, s) && |ListCacheLaws.Fresh(s.cache.m, kept)| < 1024 {
      FirstKeeps(c, s, p, id, now, kept);
      var s' := ListAlone(c, s, p, id, now, kept);
      if !s'.reqs[p].hit && q !in s'.reqs {
        OpenedIs(c, s', q, id, later);
      }
    }
  }

  // ---------------------------------------------------------------- which lists are offered

  /** The policy is asked about e when it is shaped. */
  predicate Previewed(c: Config, e: Entry) {
    c.kind != ShapeNone && !e.withheld && e.classified && !e.ambiguous
  }

  /** Every preview so far was decided under the bundle the request probed. */
  predicate AllUnder(c: Config, entries: seq<Entry>, used: seq<string>, under: string)
    requires |used| <= |entries|
  {
    forall k :: 0 <= k < |used| && Previewed(c, entries[k]) ==> used[k] == under
  }

  /** Caching is on and the bundle probed tells this request's lists apart. */
  predicate Cacheable(c: Config, entries: seq<Entry>, under: string) {
    c.ttl > 0 && (under != "" || NothingAsked(c, entries))
  }

  /** Entry k is the first the policy can be asked about. */
  predicate IsProbe(c: Config, entries: seq<Entry>, k: nat) {
    && c.kind != ShapeNone && k < |entries| && entries[k].classified && !entries[k].ambiguous
    && forall i :: 0 <= i < k ==> !(entries[i].classified && !entries[i].ambiguous)
  }

  function ProbeOf(c: Config, entries: seq<Entry>): Option<nat> {
    if c.kind == ShapeNone then None else FirstAsked(entries, 0)
  }

  lemma ProbeIs(c: Config, entries: seq<Entry>, k: nat)
    ensures IsProbe(c, entries, k) <==> ProbeOf(c, entries) == Some(k)
  {
    FirstAskedExactly(entries, 0);
    FirstIsFirst(entries, 0);
  }

  lemma {:induction false} FirstIsFirst(entries: seq<Entry>, from: nat)
    requires from <= |entries|
    ensures var r := FirstAsked(entries, from);
            r != None ==> r.value < |entries| && forall i :: from <= i < r.value ==> !Asks(entries[i])
    decreases |entries| - from
  {
    if from < |entries| && !Asks(entries[from]) {
      FirstIsFirst(entries, from + 1);
    }
  }

  ghost predicate OfferOk(c: Config, r: Req) {
    match r
    case Snapped(_, _, _) => true
    case Probed(_, entries, _, probe, digest, under) =>
      Cacheable(c, entries, under) && RightDigest(c, r) && probe == ProbeOf(c, entries)
    case Shaping(_, entries, _, probe, _, under, cacheable, mixed, next, _, used) =>
      && |used| == next <= |entries|
      && (cacheable <==> Cacheable(c, entries, under))
      && (c.ttl > 0 ==> probe == ProbeOf(c, entries) && (probe != None ==> r.digest == under))
      && (c.ttl > 0 && probe != None && probe.value < next ==> used[probe.value] == under)
      && (cacheable ==> RightDigest(c, r) && (!mixed <==> AllUnder(c, entries, used, under)))
    case Served(_, entries, _, under, whole, hit, _, used) =>
      !hit ==>
        && |used| == |entries|
        && (whole <==> Cacheable(c, entries, under) && AllUnder(c, entries, used, under))
        && (c.ttl > 0 ==> forall k: nat :: IsProbe(c, entries, k) ==> used[k] == under)
  }

  lemma ShapeOffers(c: Config, r: Req, now: string)
    requires OfferOk(c, r) && r.Shaping? && r.next < |r.entries|
    ensures OfferOk(c, AfterShape(c, r, now))
  {
    var r' := AfterShape(c, r, now);
    var n := r.next;
    assert r'.used[..n] == r.used && (forall k :: 0 <= k < n ==> r'.used[k] == r.used[k]);
    if r.cacheable {
      assert Decides(c, r.entries[n]) <==> Previewed(c, r.entries[n]);
      assert AllUnder(c, r.entries, r'.used, r.under) <==>
             AllUnder(c, r.entries, r.used, r.under) && (Previewed(c, r.entries[n]) ==> r'.used[n] == r.under);
    }
  }

  lemma MovedOffers(c: Config, s: Sys, l: Label)
    requires Can(c, s, l) && ListOrigins.Moves(l) && (l.p in s.reqs ==> OfferOk(c, s.reqs[l.p]))
    ensures OfferOk(c, Apply(c, s, l).reqs[l.p])
  {
    if l.Probe? {
      FirstAskedExactly(s.reqs[l.p].entries, 0);
    } else if l.ShapeNext? {
      ShapeOffers(c, s.reqs[l.p], s.bundle);
    } else if l.Answer? {
      var r := s.reqs[l.p];
      forall k: nat | IsProbe(c, r.entries, k)
        ensures ProbeOf(c, r.entries) == Some(k)
      {
        ProbeIs(c, r.entries, k);
      }
    }
  }

  lemma {:induction false} OffersRun(c: Config, first: string, ls: seq<Label>, p: nat)
    requires IsRun(c, Init(first), ls) && p in After(c, Init(first), ls).reqs
    ensures OfferOk(c, After(c, Init(first), ls).reqs[p])
    decreases |ls|
  {
    if ls != [] {
      var was, l := ls[..|ls| - 1], ls[|ls| - 1];
      ListOrigins.LastStep(c, Init(first), ls);
      var s := After(c, Init(first), was);
      if p in s.reqs {
        OffersRun(c, first, was, p);
      }
      if ListOrigins.Moves(l) && l.p == p {
        MovedOffers(c, s, l);
      } else {
        ListOrigins.OthersStay(c, s, l, p);
      }
    }
  }

  /** In every run a list that was shaped is offered to the cache if and only if caching is on, the
      bundle probed tells it apart, and every entry the policy was asked about was decided
      under that bundle. The entry probed is not asked about again. */
  lemma OfferedExactly(c: Config, first: string, ls: seq<Label>, p: nat)
    requires IsRun(c, Init(first), ls)
    ensures var s := After(c, Init(first), ls);
            p in s.reqs && s.reqs[p].Served? && !s.reqs[p].hit ==>
              var r := s.reqs[p];
              && |r.used| == |r.entries|
              && (r.whole <==> Cacheable(c, r.entries, r.under) && AllUnder(c, r.entries, r.used, r.under))
              && (c.ttl > 0 ==> forall k: nat :: IsProbe(c, r.entries, k) ==> r.used[k] == r.under)
  {
    if p in After(c, Init(first), ls).reqs {
      OffersRun(c, first, ls, p);
    }
  }
}
