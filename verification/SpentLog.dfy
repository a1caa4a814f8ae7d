/** What an order of spends and sweeps says about the spent handles, apart from any
    table: which ones a sweep purged, and which ones too many later spends crowded
    out of a bounded queue. */
module SpentLog {

  /** A spent entry, by its number, and when it expires. */
  datatype Handle = Handle(e: nat, expires: int)

  datatype Event = SpentAt(h: Handle) | SweptAt(now: int)

  predicate SpendOf(ev: Event, e: nat) {
    ev.SpentAt? && ev.h.e == e
  }

  predicate SpentIn(log: seq<Event>, e: nat) {
    exists i :: 0 <= i < |log| && SpendOf(log[i], e)
  }

  predicate Distinct(log: seq<Event>) {
    forall i, j :: 0 <= i < j < |log| && log[i].SpentAt? && log[j].SpentAt? ==> log[i].h.e != log[j].h.e
  }

  predicate Sweeps(ev: Event, expires: int) {
    ev.SweptAt? && expires <= ev.now
  }

  /** Some sweep after the spend of e read at or past its expiry. */
  predicate Purged(log: seq<Event>, e: nat) {
    exists i, k :: 0 <= i < k < |log| && SpendOf(log[i], e) && Sweeps(log[k], log[i].h.expires)
  }

  function Unexpired(q: seq<Handle>, now: int): seq<Handle> {
    if q == [] then []
    else
      var n := |q| - 1;
      Unexpired(q[..n], now) + if now < q[n].expires then [q[n]] else []
  }

  /** The spent handles not purged, in the order of their spends. */
  function Waiting(log: seq<Event>): seq<Handle> {
    if log == [] then []
    else
      var n := |log| - 1;
      match log[n]
      case SpentAt(h) => Waiting(log[..n]) + [h]
      case SweptAt(now) => Unexpired(Waiting(log[..n]), now)
  }

  predicate Has(q: seq<Handle>, e: nat) {
    exists i :: 0 <= i < |q| && q[i].e == e
  }

  /** How many stand behind e. */
  function Behind(q: seq<Handle>, e: nat): nat {
    if q == [] || q[|q| - 1].e == e then 0 else 1 + Behind(q[..|q| - 1], e)
  }

  predicate CrowdedAt(maxSpent: nat, log: seq<Event>, e: nat, m: nat)
    requires 0 < m <= |log|
  {
    log[m - 1].SpentAt? && Has(Waiting(log[..m]), e) && Behind(Waiting(log[..m]), e) >= maxSpent
  }

  /** At some spend maxSpent handles or more, spent later than e and not purged, stood
      behind it. */
  predicate Crowded(maxSpent: nat, log: seq<Event>, e: nat) {
    exists m :: 0 < m <= |log| && CrowdedAt(maxSpent, log, e, m)
  }

  /** How many spends followed that of e. */
  function SpendsAfter(log: seq<Event>, e: nat): nat {
    if log == [] then 0
    else
      var n := |log| - 1;
      if SpendOf(log[n], e) then 0
      else SpendsAfter(log[..n], e) + if log[n].SpentAt? then 1 else 0
  }

  // ---------------------------------------------------------------- one event more

  lemma SpentInNext(log: seq<Event>, ev: Event, e: nat)
    ensures SpentIn(log + [ev], e) <==> SpentIn(log, e) || SpendOf(ev, e)
  {
    var after := log + [ev];
    if SpentIn(log, e) {
      var i :| 0 <= i < |log| && SpendOf(log[i], e);
      assert SpendOf(after[i], e);
    } else if SpendOf(ev, e) {
      assert SpendOf(after[|log|], e);
    }
  }

  lemma DistinctNext(log: seq<Event>, ev: Event)
    requires Distinct(log) && (ev.SpentAt? ==> !SpentIn(log, ev.h.e))
    ensures Distinct(log + [ev])
  {
    forall i | 0 <= i < |log| && log[i].SpentAt? && ev.SpentAt?
      ensures log[i].h.e != ev.h.e
    {
      assert !SpendOf(log[i], ev.h.e);
    }
  }

  lemma WaitingNext(log: seq<Event>, ev: Event)
    ensures Waiting(log + [ev])
            == if ev.SpentAt? then Waiting(log) + [ev.h] else Unexpired(Waiting(log), ev.now)
  {
    assert (log + [ev])[..|log|] == log;
  }

  lemma CrowdedNext(maxSpent: nat, log: seq<Event>, ev: Event, e: nat)
    ensures Crowded(maxSpent, log + [ev], e) <==>
              || Crowded(maxSpent, log, e)
              || (ev.SpentAt? && Has(Waiting(log + [ev]), e) && Behind(Waiting(log + [ev]), e) >= maxSpent)
  {
    var after := log + [ev];
    assert after[..|after|] == after;
    assert forall m :: 0 < m <= |log| ==> after[..m] == log[..m] && after[m - 1] == log[m - 1];
    if Crowded(maxSpent, log, e) {
      var m :| 0 < m <= |log| && CrowdedAt(maxSpent, log, e, m);
      assert CrowdedAt(maxSpent, after, e, m);
    }
    if Crowded(maxSpent, after, e) {
      var m :| 0 < m <= |after| && CrowdedAt(maxSpent, after, e, m);
      assert m <= |log| ==> CrowdedAt(maxSpent, log, e, m);
    }
    assert ev.SpentAt? && Has(Waiting(after), e) && Behind(Waiting(after), e) >= maxSpent ==>
        CrowdedAt(maxSpent, after, e, |after|);
  }

  lemma PurgedNext(log: seq<Event>, ev: Event, e: nat)
    ensures Purged(log + [ev], e) <==>
              Purged(log, e) || exists i :: 0 <= i < |log| && SpendOf(log[i], e) && Sweeps(ev, log[i].h.expires)
  {
    var after := log + [ev];
    assert forall i :: 0 <= i < |log| ==> after[i] == log[i];
    if Purged(log, e) {
      var i, k :| 0 <= i < k < |log| && SpendOf(log[i], e) && Sweeps(log[k], log[i].h.expires);
      assert SpendOf(after[i], e) && Sweeps(after[k], after[i].h.expires);
    }
    if i :| 0 <= i < |log| && SpendOf(log[i], e) && Sweeps(ev, log[i].h.expires) {
      assert SpendOf(after[i], e) && Sweeps(after[|log|], after[i].h.expires);
    }
    if Purged(after, e) {
      var i, k :| 0 <= i < k < |after| && SpendOf(after[i], e) && Sweeps(after[k], after[i].h.expires);
      assert SpendOf(log[i], e);
      assert k < |log| ==> Sweeps(log[k], log[i].h.expires);
    }
  }

  // ---------------------------------------------------------------- the queue

  /** A handle waits exactly when it was spent and not purged, with the expiry it was
      spent with. */
  lemma {:induction false} WaitingExactly(log: seq<Event>, e: nat)
    requires Distinct(log)
    ensures Has(Waiting(log), e) <==> SpentIn(log, e) && !Purged(log, e)
    ensures forall h :: h in Waiting(log) ==> SpentAt(h) in log
  {
    if log != [] {
      var n := |log| - 1;
      var was, ev := log[..n], log[n];
      assert log == was + [ev];
      WaitingExactly(was, e);
      WaitingNext(was, ev);
      SpentInNext(was, ev, e);
      PurgedNext(was, ev, e);
      if ev.SpentAt? {
        HasNext(Waiting(was), ev.h, e);
        assert ev.h.e == e ==> !SpentIn(was, e);
      } else {
        SweptWaiting(was, ev.now, e);
        UnexpiredElements(Waiting(was), ev.now);
      }
    }
  }

  lemma HasNext(q: seq<Handle>, h: Handle, e: nat)
    ensures Has(q + [h], e) <==> Has(q, e) || h.e == e
  {
    var after := q + [h];
    if Has(q, e) {
      var i :| 0 <= i < |q| && q[i].e == e;
      assert after[i].e == e;
    }
    assert after[|q|].e == h.e;
  }

  /** A sweep purges of those waiting exactly the expired. */
  lemma SweptWaiting(log: seq<Event>, now: int, e: nat)
    requires Distinct(log) && forall h :: h in Waiting(log) ==> SpentAt(h) in log
    ensures Has(Unexpired(Waiting(log), now), e) <==>
              && Has(Waiting(log), e)
              && !exists i :: 0 <= i < |log| && SpendOf(log[i], e) && Sweeps(SweptAt(now), log[i].h.expires)
  {
    var q := Waiting(log);
    UnexpiredElements(q, now);
    if Has(q, e) {
      var i :| 0 <= i < |q| && q[i].e == e;
      assert q[i] in q;
      var k :| 0 <= k < |log| && log[k] == SpentAt(q[i]);
      SpentOnce(log, k);
      HasElement(Unexpired(q, now), q[i]);
      if Has(Unexpired(q, now), e) {
        var h := HasSome(Unexpired(q, now), e);
        assert SpentAt(h) in log && h == q[i];
      }
    } else if Has(Unexpired(q, now), e) {
      HasUnexpired(q, now, e);
    }
  }

  lemma SpentOnce(log: seq<Event>, k: nat)
    requires Distinct(log) && k < |log| && log[k].SpentAt?
    ensures forall i :: 0 <= i < |log| && SpendOf(log[i], log[k].h.e) ==> i == k
  {
  }

  lemma HasElement(q: seq<Handle>, h: Handle)
    ensures h in q ==> Has(q, h.e)
  {
  }

  lemma HasSome(q: seq<Handle>, e: nat) returns (h: Handle)
    requires Has(q, e)
    ensures h in q && h.e == e
  {
    var i :| 0 <= i < |q| && q[i].e == e;
    h := q[i];
  }

  lemma {:induction false} UnexpiredElements(q: seq<Handle>, now: int)
    ensures forall h :: h in Unexpired(q, now) <==> h in q && now < h.expires
  {
    if q != [] {
      UnexpiredElements(q[..|q| - 1], now);
      assert q == q[..|q| - 1] + [q[|q| - 1]];
    }
  }

  lemma {:induction false} UnexpiredJoined(a: seq<Handle>, b: seq<Handle>, now: int)
    ensures Unexpired(a + b, now) == Unexpired(a, now) + Unexpired(b, now)
  {
    if b == [] {
      assert a + b == a;
    } else {
      var n := |b| - 1;
      assert (a + b)[..|a| + n] == a + b[..n];
      UnexpiredJoined(a, b[..n], now);
    }
  }

  predicate Separate(q: seq<Handle>) {
    forall i, j :: 0 <= i < j < |q| ==> q[i].e != q[j].e
  }

  lemma {:induction false} UnexpiredSeparate(q: seq<Handle>, now: int)
    requires Separate(q)
    ensures Separate(Unexpired(q, now))
  {
    if q != [] {
      var n := |q| - 1;
      UnexpiredSeparate(q[..n], now);
      UnexpiredElements(q[..n], now);
      forall h | h in Unexpired(q[..n], now)
        ensures h.e != q[n].e
      {
        assert h in q[..n];
      }
    }
  }

  lemma {:induction false} WaitingSeparate(log: seq<Event>)
    requires Distinct(log)
    ensures Separate(Waiting(log))
  {
    if log != [] {
      var n := |log| - 1;
      WaitingSeparate(log[..n]);
      if log[n].SpentAt? {
        var e := log[n].h.e;
        WaitingExactly(log[..n], e);
        assert forall i :: 0 <= i < n ==> !SpendOf(log[i], e);
        assert !Has(Waiting(log[..n]), e);
      } else {
        UnexpiredSeparate(Waiting(log[..n]), log[n].now);
      }
    }
  }

  lemma {:induction false} UnexpiredBehind(q: seq<Handle>, now: int, e: nat)
    requires Separate(q) && Has(Unexpired(q, now), e)
    ensures Behind(Unexpired(q, now), e) <= Behind(q, e)
  {
    var n := |q| - 1;
    var r := Unexpired(q[..n], now);
    if now < q[n].expires {
      assert (r + [q[n]])[..|r|] == r;
      HasNext(r, q[n], e);
    } else {
      assert r + [] == r;
    }
    if q[n].e != e {
      UnexpiredBehind(q[..n], now, e);
    } else if now >= q[n].expires {
      HasUnexpired(q[..n], now, e);
    }
  }

  /** Of those waiting no more stand behind e than were spent after it, and all of those
      do while no sweep ran. */
  lemma {:induction false} BehindAtMost(log: seq<Event>, e: nat)
    requires Distinct(log) && Has(Waiting(log), e)
    ensures Behind(Waiting(log), e) <= SpendsAfter(log, e)
    ensures (forall i :: 0 <= i < |log| ==> log[i].SpentAt?) ==> Behind(Waiting(log), e) == SpendsAfter(log, e)
  {
    var n := |log| - 1;
    var was := log[..n];
    assert log == was + [log[n]];
    if log[n].SpentAt? {
      var q := Waiting(was);
      assert (q + [log[n].h])[..|q|] == q;
      HasNext(q, log[n].h, e);
      if log[n].h.e != e {
        BehindAtMost(was, e);
      }
    } else {
      WaitingSeparate(was);
      HasUnexpired(Waiting(was), log[n].now, e);
      UnexpiredBehind(Waiting(was), log[n].now, e);
      BehindAtMost(was, e);
    }
  }

  lemma HasUnexpired(q: seq<Handle>, now: int, e: nat)
    requires Has(Unexpired(q, now), e)
    ensures Has(q, e)
  {
    var r := Unexpired(q, now);
    UnexpiredElements(q, now);
    var i :| 0 <= i < |r| && r[i].e == e;
    assert r[i] in r && r[i] in q;
  }

  lemma {:induction false} SpendsAfterGrows(log: seq<Event>, e: nat, m: nat)
    requires Distinct(log) && m <= |log| && SpentIn(log[..m], e)
    ensures SpendsAfter(log[..m], e) <= SpendsAfter(log, e)
  {
    if m == |log| {
      assert log[..m] == log;
    } else {
      var n := |log| - 1;
      assert log[..n][..m] == log[..m];
      SpendsAfterGrows(log[..n], e, m);
      var i :| 0 <= i < m && SpendOf(log[..m][i], e);
      assert SpendOf(log[i], e);
    }
  }

  /** Who is crowded out was followed by maxSpent spends or more. */
  lemma CrowdedNeeds(maxSpent: nat, log: seq<Event>, e: nat)
    requires Distinct(log) && Crowded(maxSpent, log, e)
    ensures SpentIn(log, e) && SpendsAfter(log, e) >= maxSpent
  {
    var m :| 0 < m <= |log| && CrowdedAt(maxSpent, log, e, m);
    WaitingExactly(log[..m], e);
    BehindAtMost(log[..m], e);
    SpendsAfterGrows(log, e, m);
    var i :| 0 <= i < m && SpendOf(log[..m][i], e);
    assert SpendOf(log[i], e);
  }

  /** While no sweep ran, exactly those are. */
  lemma CrowdedWithoutSweeps(maxSpent: nat, log: seq<Event>, e: nat)
    requires Distinct(log) && SpentIn(log, e) && forall i :: 0 <= i < |log| ==> log[i].SpentAt?
    ensures Crowded(maxSpent, log, e) <==> SpendsAfter(log, e) >= maxSpent
    ensures !Purged(log, e)
  {
    if Crowded(maxSpent, log, e) {
      CrowdedNeeds(maxSpent, log, e);
    }
    WaitingExactly(log, e);
    BehindAtMost(log, e);
    assert log[..|log|] == log;
    assert SpendsAfter(log, e) >= maxSpent ==> CrowdedAt(maxSpent, log, e, |log|);
  }
}
