/** What a cache of shaped lists does over any sequence of lookups, puts and resets
    (adapters/mcp/list.go), said of the sequence alone. */
module ListCacheLaws {
  import opened Options
  import opened ListCaches

  datatype Op =
    | OpGet(key: string, bundle: string, generation: nat, now: int)
    | OpPut(key: string, tools: seq<Shown>, bundle: string, generation: nat, now: int)
    | OpReset(generation: nat)

  function Do(ttl: int, c: Cache, op: Op): Cache {
    match op
    case OpGet(key, bundle, generation, now) => Get(c, key, bundle, generation, now)
    case OpPut(key, tools, bundle, generation, now) => Put(c, ttl, key, tools, bundle, generation, now)
    case OpReset(generation) => Reset(c, generation)
  }

  function After(ttl: int, ops: seq<Op>): Cache {
    if ops == [] then EmptyCache else Do(ttl, After(ttl, ops[..|ops| - 1]), ops[|ops| - 1])
  }

  lemma {:induction false} AfterInv(ttl: int, ops: seq<Op>)
    ensures CacheInv(After(ttl, ops))
  {
    if ops != [] {
      var was, op := After(ttl, ops[..|ops| - 1]), ops[|ops| - 1];
      AfterInv(ttl, ops[..|ops| - 1]);
      match op
      case OpGet(key, bundle, generation, now) => GetInv(was, key, bundle, generation, now);
      case OpPut(key, tools, bundle, generation, now) => PutInv(was, ttl, key, tools, bundle, generation, now);
      case OpReset(_) =>
    }
  }

  // ---------------------------------------------------------------- the floor

  /** Below which generation lists are refused: the highest any reset named, or 0. */
  ghost predicate IsFloor(ops: seq<Op>, floor: nat) {
    && (forall i :: 0 <= i < |ops| && ops[i].OpReset? ==> ops[i].generation <= floor)
    && (floor == 0 || exists i :: 0 <= i < |ops| && ops[i] == OpReset(floor))
  }

  /** A reset raises the floor to its generation and never lowers it; nothing else moves it. */
  lemma {:induction false} FloorIs(ttl: int, ops: seq<Op>)
    ensures IsFloor(ops, After(ttl, ops).generation)
  {
    if ops != [] {
      var n := |ops| - 1;
      var was := After(ttl, ops[..n]).generation;
      FloorIs(ttl, ops[..n]);
      assert forall i :: 0 <= i < n ==> ops[..n][i] == ops[i];
      if was != 0 {
        var i :| 0 <= i < n && ops[..n][i] == OpReset(was);
        assert ops[i] == OpReset(was);
      }
      if ops[n].OpReset? && ops[n].generation > was {
        assert ops[n] == OpReset(ops[n].generation);
      }
    }
  }

  // ---------------------------------------------------------------- what is found was put

  /** Put i is where x comes from: its key and contents, kept for ttl, after every reset and at or
      above the highest. */
  ghost predicate PutAt(ttl: int, ops: seq<Op>, i: nat, key: string, x: Cached) {
    && i < |ops|
    && ops[i] == OpPut(key, x.tools, x.bundle, x.generation, x.expires - ttl)
    && (forall j :: i < j < |ops| ==> !ops[j].OpReset?)
    && (forall j :: 0 <= j < i && ops[j].OpReset? ==> ops[j].generation <= x.generation)
  }

  lemma PutLater(ttl: int, ops: seq<Op>, i: nat, key: string, x: Cached)
    requires ops != [] && PutAt(ttl, ops[..|ops| - 1], i, key, x) && !ops[|ops| - 1].OpReset?
    ensures PutAt(ttl, ops, i, key, x)
  {
    assert forall j :: 0 <= j < |ops| - 1 ==> ops[..|ops| - 1][j] == ops[j];
  }

  lemma {:induction false} CachedWasPut(ttl: int, ops: seq<Op>, key: string)
    requires key in After(ttl, ops).m
    ensures exists i :: PutAt(ttl, ops, i, key, After(ttl, ops).m[key])
  {
    var n := |ops| - 1;
    var was, now := After(ttl, ops[..n]), After(ttl, ops);
    if key in was.m && was.m[key] == now.m[key] && !ops[n].OpReset? {
      CachedWasPut(ttl, ops[..n], key);
      var i :| PutAt(ttl, ops[..n], i, key, was.m[key]);
      PutLater(ttl, ops, i, key, was.m[key]);
    } else {
      FloorIs(ttl, ops[..n]);
      assert forall j :: 0 <= j < n ==> ops[..n][j] == ops[j];
      assert PutAt(ttl, ops, n, key, now.m[key]);
    }
  }

  /** A list found was put for that principal under that bundle and generation, less than ttl before,
      and no reset came since. */
  lemma FoundWasPut(ttl: int, ops: seq<Op>, key: string, bundle: string, generation: nat, now: int)
    requires Hit(After(ttl, ops), key, bundle, generation, now)
    ensures exists i :: PutAt(ttl, ops, i, key, After(ttl, ops).m[key])
    ensures var x := After(ttl, ops).m[key]; x.bundle == bundle && x.generation == generation && now < x.expires
  {
    CachedWasPut(ttl, ops, key);
  }

  // ---------------------------------------------------------------- what was put is found

  /** Lists not yet expired at now. */
  function Fresh(m: map<string, Cached>, now: int): set<string> {
    set k | k in m && now < m[k].expires
  }

  /** A list at or above the floor is kept if and only if its principal already has one or fewer
      than the bound are unexpired; a list below the floor changes nothing. */
  lemma KeptExactly(c: Cache, ttl: int, key: string, tools: seq<Shown>, bundle: string, generation: nat, now: int)
    requires CacheInv(c)
    ensures var c', x := Put(c, ttl, key, tools, bundle, generation, now), Cached(tools, bundle, generation, now + ttl);
            && c'.generation == c.generation
            && (generation < c.generation ==> c' == c)
            && (generation >= c.generation ==>
                  if key in c.m || |Fresh(c.m, now)| < 1024 then key in c'.m && c'.m[key] == x else key !in c'.m)
            && (forall k :: k in c.m && k != key && now < c.m[k].expires ==> k in c'.m)
            && (forall k :: k in c'.m && k != key ==> k in c.m && c'.m[k] == c.m[k])
  {
    assert Unexpired(c.m, now).Keys == Fresh(c.m, now);
    SubsetSize(Fresh(c.m, now), c.m.Keys);
  }

  /** A lookup that finds its list changes nothing, and one that does not drops that principal's list
      and no other. */
  lemma GetExactly(c: Cache, key: string, bundle: string, generation: nat, now: int)
    ensures var c' := Get(c, key, bundle, generation, now);
            var good := key in c.m && c.m[key].bundle == bundle && c.m[key].generation == generation
                        && now < c.m[key].expires;
            && c'.generation == c.generation
            && (good <==> key in c'.m)
            && (forall k :: k in c'.m <==> k in c.m && (k != key || good))
            && (forall k :: k in c'.m ==> c'.m[k] == c.m[k])
  {
  }

  /** op leaves the list put for key alone: it is no reset, no lookup that finds it wanting, no put of
      the same key, and no put that reads the clock at or past its expiry. */
  predicate Spares(op: Op, key: string, x: Cached) {
    match op
    case OpGet(k, bundle, generation, now) =>
      k == key ==> bundle == x.bundle && generation == x.generation && now < x.expires
    case OpPut(k, _, _, _, now) => k != key && now < x.expires
    case OpReset(_) => false
  }

  /** A list kept stays until something does not spare it, and is then found by every lookup of its
      principal under its bundle and generation before it expires. */
  lemma {:induction false} PutIsFound(ttl: int, ops: seq<Op>, i: nat, key: string, x: Cached)
    requires i < |ops| && key in After(ttl, ops[..i + 1]).m && After(ttl, ops[..i + 1]).m[key] == x
    requires forall j :: i < j < |ops| ==> Spares(ops[j], key, x)
    ensures key in After(ttl, ops).m && After(ttl, ops).m[key] == x
    ensures forall now: int :: Hit(After(ttl, ops), key, x.bundle, x.generation, now) <==> now < x.expires
  {
    var n := |ops| - 1;
    if i == n {
      assert ops[..i + 1] == ops;
    } else {
      assert ops[..n][..i + 1] == ops[..i + 1];
      PutIsFound(ttl, ops[..n], i, key, x);
      AfterInv(ttl, ops[..n]);
      SparedStays(ttl, After(ttl, ops[..n]), ops[n], key, x);
    }
  }

  lemma SparedStays(ttl: int, c: Cache, op: Op, key: string, x: Cached)
    requires CacheInv(c) && key in c.m && c.m[key] == x && Spares(op, key, x)
    ensures key in Do(ttl, c, op).m && Do(ttl, c, op).m[key] == x
  {
    if op.OpPut? {
      KeptExactly(c, ttl, op.key, op.tools, op.bundle, op.generation, op.now);
    }
  }
}
