/** The cache of shaped lists (adapters/mcp/list.go): one list per principal, each
    good under the policy bundle and the manifest generation it was shaped from
    and until it expires. */
module ListCaches {
  import opened Options

  /** A tool as a principal is shown it. */
  datatype Shown = Shown(tool: nat, mark: Option<string>)

  datatype Cached = Cached(tools: seq<Shown>, bundle: string, generation: nat, expires: int)

  datatype Cache = Cache(m: map<string, Cached>, generation: nat)

  const EmptyCache := Cache(map[], 0)

  const maxCachedLists := 1024

  predicate Hit(c: Cache, key: string, bundle: string, generation: nat, now: int) {
    key in c.m && now < c.m[key].expires && c.m[key].bundle == bundle && c.m[key].generation == generation
  }

  function Get(c: Cache, key: string, bundle: string, generation: nat, now: int): Cache {
    if Hit(c, key, bundle, generation, now) then c else c.(m := c.m - {key})
  }

  /** c without the lists expired at now. */
  function Unexpired(m: map<string, Cached>, now: int): map<string, Cached> {
    map k | k in m && now < m[k].expires :: m[k]
  }

  function Put(c: Cache, ttl: int, key: string, tools: seq<Shown>, bundle: string, generation: nat, now: int): Cache {
    if generation < c.generation then c
    else
      var m := if key !in c.m && |c.m| >= maxCachedLists then Unexpired(c.m, now) else c.m;
      if key !in c.m && |m| >= maxCachedLists then c.(m := m)
      else c.(m := m[key := Cached(tools, bundle, generation, now + ttl)])
  }

  function Reset(c: Cache, generation: nat): Cache {
    Cache(map[], if c.generation < generation then generation else c.generation)
  }

  /** Within the bound, and shaped from no manifest older than the last reset. */
  ghost predicate CacheInv(c: Cache) {
    |c.m| <= maxCachedLists && forall k :: k in c.m ==> c.m[k].generation >= c.generation
  }

  lemma UnexpiredSize(m: map<string, Cached>, now: int)
    ensures |Unexpired(m, now)| <= |m|
  {
    SubsetSize(Unexpired(m, now).Keys, m.Keys);
  }

  lemma {:induction false} SubsetSize(a: set<string>, b: set<string>)
    requires a <= b
    ensures |a| <= |b|
  {
    assert a + (b - a) == b;
  }

  lemma GetInv(c: Cache, key: string, bundle: string, generation: nat, now: int)
    requires CacheInv(c)
    ensures CacheInv(Get(c, key, bundle, generation, now))
  {
    SubsetSize((c.m - {key}).Keys, c.m.Keys);
  }

  lemma PutInv(c: Cache, ttl: int, key: string, tools: seq<Shown>, bundle: string, generation: nat, now: int)
    requires CacheInv(c)
    ensures CacheInv(Put(c, ttl, key, tools, bundle, generation, now))
  {
    UnexpiredSize(c.m, now);
    var m := if key !in c.m && |c.m| >= maxCachedLists then Unexpired(c.m, now) else c.m;
    var x := Cached(tools, bundle, generation, now + ttl);
    if key in m {
      assert m[key := x].Keys == m.Keys;
    } else {
      assert m[key := x].Keys == m.Keys + {key};
    }
  }

  class ListCache {
    const ttl: int
    var generation: nat
    var m: map<string, Cached>

    ghost function View(): Cache
      reads this
    {
      Cache(m, generation)
    }

    ghost predicate Valid()
      reads this
    {
      CacheInv(View())
    }

    constructor (ttl: int)
      ensures Valid() && View() == EmptyCache && this.ttl == ttl
    {
      this.ttl, generation, m := ttl, 0, map[];
    }

    method Lookup(key: string, bundle: string, at: nat, now: int) returns (tools: Option<seq<Shown>>)
      requires Valid()
      modifies this`m
      ensures Valid()
      ensures ttl <= 0 ==> tools == None && View() == old(View())
      ensures ttl > 0 ==> View() == Get(old(View()), key, bundle, at, now)
      ensures ttl > 0 ==> tools == if Hit(old(View()), key, bundle, at, now) then Some(old(m)[key].tools) else None
    {
      if ttl <= 0 {
        return None;
      }
      GetInv(View(), key, bundle, at, now);
      if key !in m || now >= m[key].expires || m[key].bundle != bundle || m[key].generation != at {
        m := m - {key};
        return None;
      }
      return Some(m[key].tools);
    }

    method Keep(key: string, tools: seq<Shown>, bundle: string, at: nat, now: int)
      requires Valid()
      modifies this`m
      ensures Valid()
      ensures View() == if ttl <= 0 then old(View()) else Put(old(View()), ttl, key, tools, bundle, at, now)
    {
      if ttl <= 0 || at < generation {
        return;
      }
      PutInv(View(), ttl, key, tools, bundle, at, now);
      UnexpiredSize(m, now);
      if key !in m && |m| >= maxCachedLists {
        m := DropExpired(m, now);
        if |m| >= maxCachedLists {
          return;
        }
      }
      m := m[key := Cached(tools, bundle, at, now + ttl)];
    }

    method ResetTo(at: nat)
      requires Valid()
      modifies this
      ensures Valid() && View() == Reset(old(View()), at)
    {
      generation := if generation < at then at else generation;
      m := map[];
    }
  }

  /** The deleting loop over the map, in no particular order. */
  method DropExpired(m0: map<string, Cached>, now: int) returns (m: map<string, Cached>)
    ensures m == Unexpired(m0, now)
  {
    m := m0;
    var left := m0.Keys;
    while left != {}
      invariant left <= m0.Keys
      invariant forall k :: k in m <==> k in m0 && (k in left || now < m0[k].expires)
      invariant forall k :: k in m ==> m[k] == m0[k]
      decreases left
    {
      var k :| k in left;
      left := left - {k};
      if now >= m0[k].expires {
        m := m - {k};
      }
    }
  }
}
