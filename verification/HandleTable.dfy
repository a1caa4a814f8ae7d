/** The handle table as the code keeps it: the fields of `handles`, changed in
    place by methods that each hold the mutex from start to end. Every method is
    proved to do what its function in `Handles` says. */
module HandleTables {
  import opened Options
  import opened Handles
  import opened HandleLemmas

  class HandleTable {
    const maxSpent: nat
    const maxPerRun: int
    var entries: seq<Entry>
    var byID: map<string, Ref>
    var keys: set<KeyRef>
    var perRun: map<string, int>
    var spent: seq<string>
    var shut: bool
    ghost var minted: seq<string>

    ghost function View(): Table
      reads this
    {
      Table(entries, minted, byID, keys, perRun, spent, shut)
    }

    ghost predicate Valid()
      reads this
    {
      TableInv(View(), maxSpent)
    }

    constructor (maxSpent: nat, maxPerRun: int)
      ensures this.maxSpent == maxSpent && this.maxPerRun == maxPerRun
      ensures Valid() && View() == EmptyTable
    {
      this.maxSpent, this.maxPerRun := maxSpent, maxPerRun;
      entries, minted, byID, keys, perRun, spent, shut := [], [], map[], {}, map[], [], false;
      new;
      EmptyInv(maxSpent);
    }

    method Reserve(run: string, key: string) returns (code: Code)
      requires Valid()
      modifies this
      ensures Valid()
      ensures code == ReserveCode(old(View()), maxPerRun, run, key)
      ensures View() == if code == Granted then Handles.Reserve(old(View()), run, key) else old(View())
    {
      var ref := KeyRef(run, key);
      if key != "" && ref in keys {
        return DuplicateRequest;
      }
      if Count(perRun, run) >= maxPerRun {
        return Unavailable;
      }
      ReserveInv(View(), maxSpent, run, key);
      if key != "" {
        keys := keys + {ref};
      }
      perRun := perRun[run := Count(perRun, run) + 1];
      code := Granted;
    }

    method Release(run: string, key: string)
      requires Valid()
      modifies this
      ensures Valid()
      ensures View() == Handles.Free(old(View()), run, key)
    {
      FreeInv(View(), maxSpent, run, key);
      Free(run, key);
    }

    method Free(run: string, key: string)
      modifies this`keys, this`perRun
      ensures View() == Handles.Free(old(View()), run, key)
    {
      if key != "" {
        keys := keys - {KeyRef(run, key)};
      }
      var n := Count(perRun, run) - 1;
      perRun := perRun[run := n];
      if n <= 0 {
        perRun := perRun - {run};
        assert perRun == old(perRun) - {run};
      }
    }

    /** draws is what the operating system's random source yields, until one
        handle is free. */
    method Mint(e: Entry, draws: seq<string>) returns (id: string, ok: bool)
      requires Valid()
      requires exists i :: 0 <= i < |draws| && draws[i] !in byID
      modifies this
      ensures Valid()
      ensures ok == !old(shut)
      ensures !ok ==> View() == old(View())
      ensures ok ==> id in draws && id !in old(byID) && View() == Handles.Mint(old(View()), e, id)
    {
      if shut {
        return "", false;
      }
      var i := 0;
      while draws[i] in byID
        invariant 0 <= i < |draws|
        invariant forall j :: 0 <= j < i ==> draws[j] in byID
        decreases |draws| - i
      {
        i := i + 1;
      }
      id, ok := draws[i], true;
      MintInv(View(), maxSpent, e, id);
      byID := byID[id := |entries|];
      entries, minted := entries + [e.(state := Minting)], minted + [id];
    }

    method Take(id: string, run: string, now: int) returns (code: Code, ending: Ending)
      requires Valid()
      modifies this`entries
      ensures Valid()
      ensures code == TakeCode(old(View()), id, run, now) && ending == TakeEnding(old(View()), id, run, now)
      ensures View() == Handles.Take(old(View()), id, run, now)
    {
      TakeInv(View(), maxSpent, id, run, now);
      if id !in byID {
        return HandleUnknown, NoEnding;
      }
      var e := entries[byID[id]];
      if e.run != run || now >= e.expires {
        return HandleUnknown, NoEnding;
      }
      if e.state != Open && e.state != Minting {
        return HandleSpent, e.ending;
      }
      entries := entries[byID[id] := e.(state := Closing)];
      return Granted, NoEnding;
    }

    method Settle(e: Ref) returns (abandon: bool)
      requires Valid() && e < |entries|
      modifies this`entries
      ensures Valid()
      ensures abandon == SettleTakes(old(View()), e)
      ensures View() == Handles.Settle(old(View()), e)
    {
      SettleInv(View(), maxSpent, e);
      if entries[e].state != Minting {
        return false;
      }
      if shut {
        entries := entries[e := entries[e].(state := Closing)];
        return true;
      }
      entries := entries[e := entries[e].(state := Open)];
      return false;
    }

    method Spend(id: string, e: Ref, ending: Ending)
      requires Valid() && e < |entries|
      requires entries[e].state == Closing && minted[e] == id
      modifies this
      ensures Valid()
      ensures View() == Handles.Spend(old(View()), maxSpent, id, e, ending)
    {
      SpendInv(View(), maxSpent, id, e, ending);
      var was := entries[e];
      entries := entries[e := was.(state := Spent, ending := ending, d := None)];
      Free(was.run, was.key);
      spent := spent + [id];
      while |spent| > maxSpent
        invariant Handles.Evict(View(), maxSpent) == Handles.Spend(old(View()), maxSpent, id, e, ending)
        decreases |spent|
      {
        byID := byID - {spent[0]};
        spent := spent[1..];
      }
    }

    method Expired(now: int, limit: nat) returns (out: seq<Taken>)
      requires Valid()
      modifies this
      ensures Valid()
      ensures SweepPick(old(View()), now, limit, out)
      ensures View() == Handles.Sweep(old(View()), now, out)
    {
      ghost var was := View();
      PurgeInv(was, maxSpent, now);
      byID, spent := DeleteExpired(was, entries, byID, spent, now);
      ghost var purged := View();
      assert purged == Purge(was, now);
      var all := FindExpired(purged, entries, byID, now);
      out := SortByExpiry(purged, entries, byID, all);
      PickIsEarliest(was, purged, now, limit, all, out);
      if |out| > limit {
        out := out[..limit];
      }
      SweepInv(was, maxSpent, now, limit, out);
      entries := MarkClosing(purged, entries, out);
    }

    method Shutdown() returns (out: seq<Taken>)
      requires Valid()
      modifies this`entries, this`shut
      ensures Valid() && shut
      ensures ShutdownPick(old(View()), out)
      ensures View() == Handles.Shutdown(old(View()), out)
    {
      ghost var was := View();
      shut := true;
      entries, out := CloseOpen(was, entries, byID);
      ShutdownInv(was, maxSpent, out);
    }

    /** How many handles are not spent. */
    method OpenCount() returns (n: nat)
      requires Valid()
      ensures n == |set id | id in byID && entries[byID[id]].state != Spent|
    {
      n := 0;
      var left := byID.Keys;
      ghost var counted: set<string> := {};
      while left != {}
        invariant left <= byID.Keys
        invariant counted == set id | id in byID && id !in left && entries[byID[id]].state != Spent
        invariant n == |counted|
        decreases left
      {
        var id :| id in left;
        left := left - {id};
        if entries[byID[id]].state != Spent {
          counted := counted + {id};
          n := n + 1;
        }
      }
      assert counted == set id | id in byID && entries[byID[id]].state != Spent;
    }
  }

  // The loops under the mutex, over the fields they read. t is the table they
  // are run on.

  method DeleteExpired(ghost t: Table, entries: seq<Entry>, byID0: map<string, Ref>, spent: seq<string>, now: int)
    returns (byID: map<string, Ref>, kept: seq<string>)
    requires WellFormed(t) && entries == t.entries && byID0 == t.byID && spent == t.spent
    requires NoDuplicates(spent) && forall id :: id in spent ==> IsSpent(t, id)
    ensures t.(byID := byID, spent := kept) == Purge(t, now)
  {
    byID, kept := byID0, [];
    var i := 0;
    while i < |spent|
      invariant 0 <= i <= |spent|
      invariant kept == Kept(t, now, spent[..i])
      invariant byID == byID0 - Dropped(t, now, spent[..i])
    {
      var id := spent[i];
      PurgeStep(t, now, i);
      if id !in byID || now >= entries[byID[id]].expires {
        byID := byID - {id};
      } else {
        kept := kept + [id];
      }
      i := i + 1;
    }
    assert spent[..i] == spent;
  }

  /** The open handles expired at now, in the order a map iteration gives them. */
  method FindExpired(ghost t: Table, entries: seq<Entry>, byID: map<string, Ref>, now: int) returns (out: seq<Taken>)
    requires WellFormed(t) && entries == t.entries && byID == t.byID
    ensures Names(t, out)
    ensures forall x :: x in out ==> ExpiredOpen(t, now, x.id)
    ensures forall id :: ExpiredOpen(t, now, id) ==> Taken(id, t.byID[id]) in out
  {
    out := [];
    var left := byID.Keys;
    while left != {}
      invariant left <= byID.Keys
      invariant Names(t, out)
      invariant forall x :: x in out ==> ExpiredOpen(t, now, x.id) && x.id !in left
      invariant forall id :: ExpiredOpen(t, now, id) && id !in left ==> Taken(id, byID[id]) in out
      decreases left
    {
      var id :| id in left;
      left := left - {id};
      if entries[byID[id]].state == Open && now >= entries[byID[id]].expires {
        ghost var before := out;
        out := out + [Taken(id, byID[id])];
        assert forall x :: x in out <==> x in before || x == Taken(id, byID[id]);
      }
    }
  }

  /** The library's sort: some order by expiry of the same handles. */
  method SortByExpiry(ghost t: Table, entries: seq<Entry>, byID: map<string, Ref>, xs: seq<Taken>)
      returns (out: seq<Taken>)
    requires WellFormed(t) && entries == t.entries && byID == t.byID && Names(t, xs)
    ensures Names(t, out) && ByExpiry(t, out)
    ensures forall x :: x in out <==> x in xs
  {
    out := [];
    var i := 0;
    while i < |xs|
      invariant 0 <= i <= |xs|
      invariant Names(t, out) && ByExpiry(t, out)
      invariant forall x :: x in out <==> x in xs[..i]
    {
      var at := Place(t, entries, byID, out, xs[i]);
      InsertKeeps(t, out, at, xs[i], xs[..i]);
      assert forall y :: y in Insert(out, at, xs[i]) <==> y in xs[..i + 1] by {
        assert xs[..i + 1] == xs[..i] + [xs[i]];
        forall y
          ensures y in Insert(out, at, xs[i]) <==> y in xs[..i] || y == xs[i]
        {
          InsertElements(out, at, xs[i], y);
        }
      }
      out := Insert(out, at, xs[i]);
      i := i + 1;
    }
    assert xs[..i] == xs;
  }

  method Place(ghost t: Table, entries: seq<Entry>, byID: map<string, Ref>, out: seq<Taken>, x: Taken) returns (at: nat)
    requires WellFormed(t) && entries == t.entries && byID == t.byID && Names(t, out) && x.id in byID
    ensures at <= |out|
    ensures forall j :: 0 <= j < at ==> Expiry(t, out[j]) <= Expiry(t, x)
    ensures at < |out| ==> Expiry(t, x) <= Expiry(t, out[at])
  {
    at := 0;
    while at < |out| && entries[byID[out[at].id]].expires <= entries[byID[x.id]].expires
      invariant 0 <= at <= |out|
      invariant forall j :: 0 <= j < at ==> Expiry(t, out[j]) <= Expiry(t, x)
    {
      at := at + 1;
    }
  }

  method MarkClosing(ghost t: Table, entries0: seq<Entry>, out: seq<Taken>) returns (entries: seq<Entry>)
    requires WellFormed(t) && entries0 == t.entries && Names(t, out)
    ensures t.(entries := entries) == Close(t, Refs(out))
  {
    entries := entries0;
    var i := 0;
    assert entries == Close(t, Refs(out[..i])).entries;
    while i < |out|
      invariant 0 <= i <= |out|
      invariant entries == Close(t, Refs(out[..i])).entries
    {
      assert Refs(out[..i + 1]) == Refs(out[..i]) + {out[i].e} by {
        assert out[..i + 1] == out[..i] + [out[i]];
      }
      entries := entries[out[i].e := entries[out[i].e].(state := Closing)];
      i := i + 1;
    }
    assert out[..i] == out;
  }

  /** The shutdown's pass over the table: every open handle, taken. */
  method CloseOpen(ghost t: Table, entries0: seq<Entry>, byID: map<string, Ref>)
    returns (entries: seq<Entry>, out: seq<Taken>)
    requires WellFormed(t) && entries0 == t.entries && byID == t.byID
    ensures ShutdownPick(t, out)
    ensures t.(entries := entries) == Close(t, Refs(out))
  {
    entries, out := entries0, [];
    var left := byID.Keys;
    assert entries == Close(t, Refs(out)).entries;
    while left != {}
      invariant left <= byID.Keys
      invariant entries == Close(t, Refs(out)).entries
      invariant PartialShutdown(t, left, out)
      decreases left
    {
      var id :| id in left;
      CloseStep(t, left, out, id);
      left := left - {id};
      if entries[byID[id]].state == Open {
        entries := entries[byID[id] := entries[byID[id]].(state := Closing)];
        out := out + [Taken(id, byID[id])];
      }
    }
    PartialShutdownDone(t, out);
  }

  ghost predicate ByExpiry(t: Table, out: seq<Taken>)
    requires WellFormed(t) && Names(t, out)
  {
    forall i, j :: 0 <= i < j < |out| ==> Expiry(t, out[i]) <= Expiry(t, out[j])
  }

  /** The handles of ids a sweep at now drops. */
  ghost function Dropped(t: Table, now: int, ids: seq<string>): set<string>
    requires WellFormed(t)
  {
    set id | id in ids && !Keeps(t, now, id)
  }

  lemma PurgeStep(t: Table, now: int, i: nat)
    requires WellFormed(t) && i < |t.spent| && NoDuplicates(t.spent)
    requires forall id :: id in t.spent ==> IsSpent(t, id)
    ensures var ids, next := t.spent[..i], t.spent[..i + 1];
            && t.spent[i] in t.byID && t.spent[i] !in Dropped(t, now, ids)
            && Kept(t, now, next) == Kept(t, now, ids) + (if Keeps(t, now, t.spent[i]) then [t.spent[i]] else [])
            && Dropped(t, now, next) == Dropped(t, now, ids) + (if Keeps(t, now, t.spent[i]) then {} else {t.spent[i]})
  {
    var ids, next := t.spent[..i], t.spent[..i + 1];
    assert next == ids + [t.spent[i]];
    assert next[..i] == ids;
    assert IsSpent(t, t.spent[i]);
    assert forall id :: id in next <==> id in ids || id == t.spent[i];
  }

  /** The shutdown's scan once every handle but left was looked at. */
  ghost predicate PartialShutdown(t: Table, left: set<string>, out: seq<Taken>)
    requires WellFormed(t)
  {
    && Names(t, out)
    && (forall i :: 0 <= i < |out| ==> out[i].id !in left && t.entries[out[i].e].state == Open)
    && (forall id :: id in t.byID && id !in left && t.entries[t.byID[id]].state == Open ==>
        Taken(id, t.byID[id]) in out)
  }

  lemma CloseStep(t: Table, left: set<string>, out: seq<Taken>, id: string)
    requires WellFormed(t) && PartialShutdown(t, left, out) && id in left && id in t.byID
    ensures var e := t.byID[id];
            var next := if t.entries[e].state == Open then out + [Taken(id, e)] else out;
            var was := Close(t, Refs(out)).entries;
            && was[e] == t.entries[e]
            && PartialShutdown(t, left - {id}, next)
            && Close(t, Refs(next)).entries
               == if t.entries[e].state == Open then was[e := was[e].(state := Closing)] else was
  {
    var e := t.byID[id];
    assert forall x :: x in out ==> t.minted[x.e] == x.id;
    assert e !in Refs(out);
    if t.entries[e].state == Open {
      var next := out + [Taken(id, e)];
      assert forall x :: x in next <==> x in out || x == Taken(id, e);
      assert Refs(next) == Refs(out) + {e};
    }
  }

  lemma PartialShutdownDone(t: Table, out: seq<Taken>)
    requires WellFormed(t) && PartialShutdown(t, {}, out)
    ensures ShutdownPick(t, out)
  {
    forall id | id in t.byID && t.entries[t.byID[id]].state == Open
      ensures exists i :: 0 <= i < |out| && out[i].id == id
    {
      assert Taken(id, t.byID[id]) in out;
    }
  }

  function Insert(out: seq<Taken>, at: nat, x: Taken): (r: seq<Taken>)
    requires at <= |out|
    ensures |r| == |out| + 1
    ensures forall i :: 0 <= i < |r| ==> r[i] == if i < at then out[i] else if i == at then x else out[i - 1]
  {
    out[..at] + [x] + out[at..]
  }

  lemma InsertKeeps(t: Table, out: seq<Taken>, at: nat, x: Taken, seen: seq<Taken>)
    requires WellFormed(t) && Names(t, out) && ByExpiry(t, out) && at <= |out|
    requires forall y :: y in out <==> y in seen
    requires x.id in t.byID && t.byID[x.id] == x.e
    requires forall i :: 0 <= i < |seen| ==> seen[i].id != x.id
    requires forall j :: 0 <= j < at ==> Expiry(t, out[j]) <= Expiry(t, x)
    requires at < |out| ==> Expiry(t, x) <= Expiry(t, out[at])
    ensures Names(t, Insert(out, at, x)) && ByExpiry(t, Insert(out, at, x))
  {
    var r := Insert(out, at, x);
    forall i | 0 <= i < |out|
      ensures out[i].id != x.id
    {
      assert out[i] in seen;
    }
    forall i, j | 0 <= i < j < |r|
      ensures r[i].id != r[j].id && r[i].id in t.byID && r[j].id in t.byID && Expiry(t, r[i]) <= Expiry(t, r[j])
    {
    }
  }

  lemma InsertElements(out: seq<Taken>, at: nat, x: Taken, y: Taken)
    requires at <= |out|
    ensures y in Insert(out, at, x) <==> y in out || y == x
  {
    var r := Insert(out, at, x);
    if y in out {
      var i :| 0 <= i < |out| && out[i] == y;
      assert r[if i < at then i else i + 1] == y;
    } else if y == x {
      assert r[at] == y;
    }
  }

  /** The first handles of the sorted list are what a sweep may take. */
  lemma PickIsEarliest(t: Table, p: Table, now: int, limit: nat, all: seq<Taken>, sorted: seq<Taken>)
    requires WellFormed(t) && WellFormed(p) && p == Purge(t, now)
    requires forall id :: id in t.spent ==> IsSpent(t, id)
    requires forall x :: x in all ==> ExpiredOpen(p, now, x.id)
    requires forall id :: ExpiredOpen(p, now, id) ==> Taken(id, p.byID[id]) in all
    requires Names(p, sorted) && ByExpiry(p, sorted) && (forall x :: x in sorted <==> x in all)
    ensures var out := if |sorted| > limit then sorted[..limit] else sorted;
            SweepPick(t, now, limit, out) && Names(p, out)
  {
    var out := if |sorted| > limit then sorted[..limit] else sorted;
    PickedNames(t, p, now, sorted, out);
    forall id | ExpiredOpen(t, now, id) && forall i :: 0 <= i < |out| ==> out[i].id != id
      ensures |out| == limit && forall i :: 0 <= i < |out| ==> Expiry(t, out[i]) <= t.entries[t.byID[id]].expires
    {
      LeftOut(t, p, now, sorted, out, id);
    }
  }

  /** What the purged table holds expired and open, the table did. */
  lemma PickedNames(t: Table, p: Table, now: int, sorted: seq<Taken>, out: seq<Taken>)
    requires WellFormed(t) && WellFormed(p) && p == Purge(t, now) && out <= sorted && Names(p, sorted)
    requires forall x :: x in sorted ==> ExpiredOpen(p, now, x.id)
    ensures Names(t, out) && Names(p, out)
    ensures forall i :: 0 <= i < |out| ==> ExpiredOpen(t, now, out[i].id)
  {
    forall i | 0 <= i < |out|
      ensures out[i] == sorted[i] && ExpiredOpen(p, now, out[i].id) && ExpiredOpen(t, now, out[i].id)
    {
      assert out[i] in sorted;
    }
  }

  lemma LeftOut(t: Table, p: Table, now: int, sorted: seq<Taken>, out: seq<Taken>, id: string)
    requires WellFormed(t) && WellFormed(p) && p == Purge(t, now)
    requires forall id :: id in t.spent ==> IsSpent(t, id)
    requires forall id :: ExpiredOpen(p, now, id) ==> Taken(id, p.byID[id]) in sorted
    requires Names(p, sorted) && ByExpiry(p, sorted)
    requires out <= sorted
    requires ExpiredOpen(t, now, id) && forall i :: 0 <= i < |out| ==> out[i].id != id
    ensures |out| < |sorted| && Names(p, out) && forall i :: 0 <= i < |out| ==>
        Expiry(p, out[i]) <= t.entries[t.byID[id]].expires
  {
    assert !IsSpent(t, id) && ExpiredOpen(p, now, id);
    var k :| 0 <= k < |sorted| && sorted[k] == Taken(id, p.byID[id]);
    assert k >= |out|;
  }
}
