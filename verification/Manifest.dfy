/** The MCP adapter's view of every upstream's tools (adapters/mcp/manifest.go).
    A replacement rebuilds the name index by iterating over a map, whose order is
    not determined; a name two upstreams list routes nowhere. */
module Manifests {
  import opened Options

  /** A listed tool: tool stands for its definition. */
  datatype Entry = Entry(upstream: string, name: string, tool: nat, classified: bool, classification: nat,
      withheld: bool, ambiguous: bool)

  /** One line of one upstream's list. */
  datatype Line = Line(upstream: string, at: nat)

  type Lists = map<string, seq<Entry>>

  datatype Index = Index(byName: map<string, Entry>, ambiguous: set<string>)

  datatype Refusal = NotListed | ListedTwice | Unclassified

  datatype Route = Route(entry: Option<Entry>, refusal: Option<Refusal>)

  predicate IsLine(lists: Lists, x: Line) {
    x.upstream in lists && x.at < |lists[x.upstream]|
  }

  function At(lists: Lists, x: Line): Entry
    requires IsLine(lists, x)
  {
    lists[x.upstream][x.at]
  }

  /** Every line of the lists of the upstreams no longer in left. */
  ghost function LinesBut(lists: Lists, left: set<string>): (r: set<Line>)
    ensures forall x :: x in r ==> IsLine(lists, x)
  {
    set u, k | u in lists && u !in left && 0 <= k < |lists[u]| :: Line(u, k)
  }

  /** The lines among seen that bear the name. */
  ghost function Bearing(lists: Lists, seen: set<Line>, name: string): set<Line> {
    set x | x in seen && IsLine(lists, x) && At(lists, x).name == name
  }

  /** Every line of every list that bears the name. */
  ghost function LinesOf(lists: Lists, name: string): set<Line> {
    Bearing(lists, LinesBut(lists, {}), name)
  }

  /** The index says of the name what the lines bearing it say: whether it is
      listed, one entry it is listed as, and whether it is listed twice. */
  ghost predicate Right(lists: Lists, of: set<Line>, ix: Index, name: string) {
    && (name in ix.byName <==> of != {})
    && (name in ix.byName ==> exists x :: x in of && IsLine(lists, x) && At(lists, x) == ix.byName[name])
    && (name in ix.ambiguous <==> |of| >= 2)
  }

  ghost predicate Indexes(lists: Lists, seen: set<Line>, ix: Index) {
    forall name :: Right(lists, Bearing(lists, seen, name), ix, name)
  }

  function AddLine(ix: Index, e: Entry): Index {
    if e.name in ix.byName then ix.(ambiguous := ix.ambiguous + {e.name}) else ix.(byName := ix.byName[e.name := e])
  }

  lemma AddLineIndexes(lists: Lists, seen: set<Line>, ix: Index, x: Line)
    requires Indexes(lists, seen, ix) && IsLine(lists, x) && x !in seen
    ensures Indexes(lists, seen + {x}, AddLine(ix, At(lists, x)))
  {
    forall name
      ensures Right(lists, Bearing(lists, seen + {x}, name), AddLine(ix, At(lists, x)), name)
    {
      AddLineRight(lists, seen, ix, x, name);
    }
  }

  lemma AddLineRight(lists: Lists, seen: set<Line>, ix: Index, x: Line, name: string)
    requires Right(lists, Bearing(lists, seen, name), ix, name) && IsLine(lists, x) && x !in seen
    ensures Right(lists, Bearing(lists, seen + {x}, name), AddLine(ix, At(lists, x)), name)
  {
    var of, of' := Bearing(lists, seen, name), Bearing(lists, seen + {x}, name);
    if At(lists, x).name == name {
      assert of' == of + {x};
      if of == {} {
        assert x in of';
      } else {
        var y :| y in of && IsLine(lists, y) && At(lists, y) == ix.byName[name];
        assert y in of' && of' - {x} == of && |of| >= 1;
      }
    } else {
      assert of' == of;
    }
  }

  // ---------------------------------------------------------------- routing

  function RouteIn(ix: Index, name: string): Route {
    if name !in ix.byName then Route(None, Some(NotListed))
    else if name in ix.ambiguous then Route(None, Some(ListedTwice))
    else if !ix.byName[name].classified then Route(Some(ix.byName[name]), Some(Unclassified))
    else Route(Some(ix.byName[name]), None)
  }

  /** The index was built from every line of every list. */
  ghost predicate IndexOf(lists: Lists, ix: Index) {
    Indexes(lists, LinesBut(lists, {}), ix)
  }

  /** The entry of the one line there is. */
  ghost predicate OnlyLine(lists: Lists, of: set<Line>, e: Entry) {
    exists x :: of == {x} && IsLine(lists, x) && At(lists, x) == e
  }

  lemma OneOrMore(of: set<Line>, x: Line)
    requires x in of
    ensures of == {x} || |of| >= 2
  {
    if of != {x} {
      var y :| y in of && y != x;
      assert {x, y} <= of;
      assert |of - {x, y}| >= 0 && |of| == |of - {x, y}| + |{x, y}|;
    }
  }

  /** A name routes to an entry a call may be made of exactly when one line of all
      the lists bears it and that line is classified, it is ambiguous exactly when
      two lines or more bear it, and each refusal names its own case. */
  lemma RouteExactly(lists: Lists, ix: Index, name: string, e: Entry)
    requires IndexOf(lists, ix)
    ensures var r, of := RouteIn(ix, name), LinesOf(lists, name);
            && (r == Route(Some(e), None) <==> e.classified && OnlyLine(lists, of, e))
            && (r == Route(Some(e), Some(Unclassified)) <==> !e.classified && OnlyLine(lists, of, e))
            && (r == Route(None, Some(ListedTwice)) <==> |of| >= 2)
            && (r == Route(None, Some(NotListed)) <==> of == {})
            && (name in ix.ambiguous <==> |of| >= 2)
  {
    var of := LinesOf(lists, name);
    assert Right(lists, of, ix, name);
    if name in ix.byName {
      var x :| x in of && IsLine(lists, x) && At(lists, x) == ix.byName[name];
      OneOrMore(of, x);
    }
  }

  /** Two indexes of the same lists route every name alike: nothing depends on the
      order either was built in. */
  lemma RouteOrderFree(lists: Lists, a: Index, b: Index, name: string)
    requires IndexOf(lists, a) && IndexOf(lists, b)
    ensures RouteIn(a, name) == RouteIn(b, name) && (name in a.ambiguous <==> name in b.ambiguous)
  {
    var r := RouteIn(a, name);
    var e := if r.entry.Some? then r.entry.value else Entry("", "", 0, false, 0, false, false);
    RouteExactly(lists, a, name, e);
    RouteExactly(lists, b, name, e);
  }

  lemma RouteAccepts(lists: Lists, ix: Index, name: string)
    requires IndexOf(lists, ix)
    ensures var r := RouteIn(ix, name);
            r.refusal.None? <==> exists x :: LinesOf(lists, name) == {x} && IsLine(lists, x) && At(lists, x).classified
                                             && r.entry == Some(At(lists, x))
  {
    var r := RouteIn(ix, name);
    if r.entry.Some? {
      RouteExactly(lists, ix, name, r.entry.value);
    }
  }

  // ---------------------------------------------------------------- snapshots

  function Marked(lists: Lists, ambiguous: set<string>, upstream: string, n: nat): seq<Entry>
    requires upstream in lists ==> n <= |lists[upstream]|
  {
    if upstream !in lists || n == 0 then []
    else
      var e := lists[upstream][n - 1];
      Marked(lists, ambiguous, upstream, n - 1) + [e.(ambiguous := e.name in ambiguous)]
  }

  /** Every entry in upstream order, then list order, with the index's ambiguity. */
  function SnapshotOf(lists: Lists, ambiguous: set<string>, upstreams: seq<string>): seq<Entry> {
    if upstreams == [] then []
    else
      var up := upstreams[|upstreams| - 1];
      SnapshotOf(lists, ambiguous, upstreams[..|upstreams| - 1])
      + Marked(lists, ambiguous, up, if up in lists then |lists[up]| else 0)
  }

  /** How many entries the upstreams list together. */
  function Total(lists: Lists, upstreams: seq<string>): nat {
    if upstreams == [] then 0
    else
      var up := upstreams[|upstreams| - 1];
      Total(lists, upstreams[..|upstreams| - 1]) + if up in lists then |lists[up]| else 0
  }

  /** Entry i of upstream k stands in out after the entries of the upstreams before it, as it is
      listed but marked ambiguous exactly when two lines or more of all the lists bear
      its name. */
  ghost predicate Stands(lists: Lists, upstreams: seq<string>, out: seq<Entry>, k: nat, i: nat)
    requires k < |upstreams| && upstreams[k] in lists && i < |lists[upstreams[k]]|
  {
    var at, e := Total(lists, upstreams[..k]) + i, lists[upstreams[k]][i];
    at < |out| && out[at] == e.(ambiguous := |LinesOf(lists, e.name)| >= 2)
  }

  /** out is every entry of the upstreams, in upstream order and then in list order, and nothing
      else. */
  ghost predicate AllStand(lists: Lists, upstreams: seq<string>, out: seq<Entry>) {
    && |out| == Total(lists, upstreams)
    && forall k, i :: 0 <= k < |upstreams| && upstreams[k] in lists && 0 <= i < |lists[upstreams[k]]|
                      ==> Stands(lists, upstreams, out, k, i)
  }

  lemma {:induction false} MarkedStands(lists: Lists, ix: Index, up: string, n: nat, i: nat)
    requires IndexOf(lists, ix) && up in lists && i < n <= |lists[up]|
    ensures var out, e := Marked(lists, ix.ambiguous, up, n), lists[up][i];
            |out| == n && out[i] == e.(ambiguous := |LinesOf(lists, e.name)| >= 2)
  {
    MarkedLength(lists, ix, up, n - 1);
    AmbiguousMeans(lists, ix, lists[up][n - 1].name);
    if i < n - 1 {
      MarkedStands(lists, ix, up, n - 1, i);
    }
  }

  lemma {:induction false} MarkedLength(lists: Lists, ix: Index, up: string, n: nat)
    requires up in lists ==> n <= |lists[up]|
    ensures |Marked(lists, ix.ambiguous, up, n)| == if up in lists then n else 0
  {
    if up in lists && n > 0 {
      MarkedLength(lists, ix, up, n - 1);
    }
  }

  lemma {:induction false} SnapshotLength(lists: Lists, ix: Index, upstreams: seq<string>)
    ensures |SnapshotOf(lists, ix.ambiguous, upstreams)| == Total(lists, upstreams)
  {
    if upstreams != [] {
      var up := upstreams[|upstreams| - 1];
      SnapshotLength(lists, ix, upstreams[..|upstreams| - 1]);
      MarkedLength(lists, ix, up, if up in lists then |lists[up]| else 0);
    }
  }

  lemma {:induction false} EntryStands(lists: Lists, ix: Index, upstreams: seq<string>, k: nat, i: nat)
    requires IndexOf(lists, ix) && k < |upstreams| && upstreams[k] in lists && i < |lists[upstreams[k]]|
    ensures Stands(lists, upstreams, SnapshotOf(lists, ix.ambiguous, upstreams), k, i)
  {
    var n := |upstreams| - 1;
    SnapshotLength(lists, ix, upstreams[..n]);
    if k < n {
      EntryStands(lists, ix, upstreams[..n], k, i);
      assert upstreams[..n][..k] == upstreams[..k];
    } else {
      MarkedStands(lists, ix, upstreams[n], |lists[upstreams[n]]|, i);
    }
  }

  /** A snapshot holds every entry the upstreams list, each where the order of the upstreams and of
      its list puts it, and says of each whether its name is listed at least twice. */
  lemma SnapshotExactly(lists: Lists, ix: Index, upstreams: seq<string>)
    requires IndexOf(lists, ix)
    ensures AllStand(lists, upstreams, SnapshotOf(lists, ix.ambiguous, upstreams))
  {
    SnapshotLength(lists, ix, upstreams);
    forall k, i | 0 <= k < |upstreams| && upstreams[k] in lists && 0 <= i < |lists[upstreams[k]]|
      ensures Stands(lists, upstreams, SnapshotOf(lists, ix.ambiguous, upstreams), k, i)
    {
      EntryStands(lists, ix, upstreams, k, i);
    }
  }

  lemma AmbiguousMeans(lists: Lists, ix: Index, name: string)
    requires IndexOf(lists, ix)
    ensures name in ix.ambiguous <==> |LinesOf(lists, name)| >= 2
  {
    RouteExactly(lists, ix, name, Entry("", "", 0, false, 0, false, false));
  }

  // ---------------------------------------------------------------- the code

  class Manifest {
    var lists: Lists
    var byName: map<string, Entry>
    var ambiguous: set<string>
    var generation: nat

    ghost predicate Valid()
      reads this
    {
      IndexOf(lists, Index(byName, ambiguous))
    }

    constructor ()
      ensures Valid() && lists == map[] && generation == 0
    {
      lists, byName, ambiguous, generation := map[], map[], {}, 0;
      new;
      NothingIndexed(lists);
    }

    method Replace(upstream: string, entries: seq<Entry>)
      requires Valid()
      modifies this
      ensures Valid()
      ensures lists == old(lists)[upstream := entries] && generation == old(generation) + 1
    {
      lists := lists[upstream := entries];
      var ix := BuildIndex(lists);
      byName, ambiguous := ix.byName, ix.ambiguous;
      generation := generation + 1;
    }

    method RouteTo(name: string) returns (r: Route)
      requires Valid()
      ensures r == RouteIn(Index(byName, ambiguous), name)
      ensures r.refusal.None? <==>
                exists e: Entry :: r.entry == Some(e) && e.classified && OnlyLine(lists, LinesOf(lists, name), e)
    {
      RouteAccepts(lists, Index(byName, ambiguous), name);
      if name !in byName {
        return Route(None, Some(NotListed));
      }
      var e := byName[name];
      if name in ambiguous {
        return Route(None, Some(ListedTwice));
      }
      if !e.classified {
        return Route(Some(e), Some(Unclassified));
      }
      return Route(Some(e), None);
    }

    method Snapshot(upstreams: seq<string>) returns (out: seq<Entry>, at: nat)
      requires Valid()
      ensures out == SnapshotOf(lists, ambiguous, upstreams) && at == generation
      ensures AllStand(lists, upstreams, out)
    {
      out := [];
      var u := 0;
      while u < |upstreams|
        invariant 0 <= u <= |upstreams|
        invariant out == SnapshotOf(lists, ambiguous, upstreams[..u])
      {
        var up := upstreams[u];
        assert upstreams[..u + 1][..u] == upstreams[..u];
        if up in lists {
          ghost var before := out;
          var i := 0;
          while i < |lists[up]|
            invariant 0 <= i <= |lists[up]|
            invariant out == before + Marked(lists, ambiguous, up, i)
          {
            var e := lists[up][i];
            out := out + [e.(ambiguous := e.name in ambiguous)];
            i := i + 1;
          }
        }
        u := u + 1;
      }
      assert upstreams[..u] == upstreams;
      SnapshotExactly(lists, Index(byName, ambiguous), upstreams);
      at := generation;
    }
  }

  lemma NothingIndexed(lists: Lists)
    ensures Indexes(lists, LinesBut(lists, lists.Keys), Index(map[], {}))
  {
    assert LinesBut(lists, lists.Keys) == {};
    assert forall name :: Bearing(lists, {}, name) == {};
  }

  /** The lines of the upstreams no longer in left, and the first i of up. */
  ghost function Seen(lists: Lists, left: set<string>, up: string, i: nat): set<Line> {
    set u, k | u in lists && u !in left && 0 <= k < |lists[u]| && (u == up ==> k < i) :: Line(u, k)
  }

  lemma SeenNext(lists: Lists, left: set<string>, up: string, i: nat)
    requires up in lists && up !in left && i < |lists[up]|
    ensures Seen(lists, left, up, i + 1) == Seen(lists, left, up, i) + {Line(up, i)}
        && Line(up, i) !in Seen(lists, left, up, i)
  {
  }

  lemma SeenEnds(lists: Lists, left: set<string>, up: string)
    requires up in lists && up !in left
    ensures Seen(lists, left, up, 0) == LinesBut(lists, left + {up})
        && Seen(lists, left, up, |lists[up]|) == LinesBut(lists, left)
  {
  }

  /** The nested loops of a replacement, over an unordered map of lists. */
  method BuildIndex(lists: Lists) returns (ix: Index)
    ensures IndexOf(lists, ix)
  {
    ix := Index(map[], {});
    var left := lists.Keys;
    NothingIndexed(lists);
    while left != {}
      invariant left <= lists.Keys
      invariant Indexes(lists, LinesBut(lists, left), ix)
      decreases left
    {
      var u :| u in left;
      assert left - {u} + {u} == left;
      left := left - {u};
      SeenEnds(lists, left, u);
      ix := AddList(lists, left, u, ix);
    }
  }

  method AddList(lists: Lists, ghost left: set<string>, u: string, start: Index) returns (ix: Index)
    requires u in lists && u !in left && Indexes(lists, Seen(lists, left, u, 0), start)
    ensures Indexes(lists, Seen(lists, left, u, |lists[u]|), ix)
  {
    ix := start;
    var i := 0;
    while i < |lists[u]|
      invariant 0 <= i <= |lists[u]|
      invariant Indexes(lists, Seen(lists, left, u, i), ix)
    {
      SeenNext(lists, left, u, i);
      AddLineIndexes(lists, Seen(lists, left, u, i), ix, Line(u, i));
      var e := lists[u][i];
      ghost var after := AddLine(ix, e);
      if e.name in ix.byName {
        ix := ix.(ambiguous := ix.ambiguous + {e.name});
      } else {
        ix := ix.(byName := ix.byName[e.name := e]);
      }
      assert ix == after;
      i := i + 1;
    }
  }
}
