/** Every critical section keeps the handle table's invariant. */
module HandleLemmas {
  import opened Options
  import opened Handles

  lemma EmptyInv(maxSpent: nat)
    ensures TableInv(EmptyTable, maxSpent)
  {
  }

  lemma ReserveInv(t: Table, maxSpent: nat, run: string, key: string)
    requires TableInv(t, maxSpent)
    ensures TableInv(Reserve(t, run, key), maxSpent)
  {
    var t' := Reserve(t, run, key);
    assert forall id :: IsSpent(t', id) <==> IsSpent(t, id);
  }

  lemma FreeInv(t: Table, maxSpent: nat, run: string, key: string)
    requires TableInv(t, maxSpent)
    ensures TableInv(Free(t, run, key), maxSpent)
  {
    var t' := Free(t, run, key);
    assert forall id :: IsSpent(t', id) <==> IsSpent(t, id);
  }

  lemma MintInv(t: Table, maxSpent: nat, e: Entry, id: string)
    requires TableInv(t, maxSpent) && !t.shut && id !in t.byID
    ensures TableInv(Mint(t, e, id), maxSpent)
  {
    var t' := Mint(t, e, id);
    assert forall i :: 0 <= i < |t.entries| ==> t'.entries[i] == t.entries[i] && t'.minted[i] == t.minted[i];
    assert forall i :: IsSpent(t', i) <==> IsSpent(t, i);
  }

  /** A live entry moves forward and stays live. */
  lemma SetStateInv(t: Table, maxSpent: nat, e: Ref, state: State)
    requires TableInv(t, maxSpent) && e < |t.entries| && t.entries[e].state != Spent
    requires state != Spent && (t.shut ==> state != Open)
    ensures TableInv(SetState(t, e, state), maxSpent)
  {
    var t' := SetState(t, e, state);
    assert forall i :: IsSpent(t', i) <==> IsSpent(t, i);
  }

  lemma TakeInv(t: Table, maxSpent: nat, id: string, run: string, now: int)
    requires TableInv(t, maxSpent)
    ensures TableInv(Take(t, id, run, now), maxSpent)
  {
    if TakeCode(t, id, run, now) == Granted {
      SetStateInv(t, maxSpent, t.byID[id], Closing);
    }
  }

  lemma SettleInv(t: Table, maxSpent: nat, e: Ref)
    requires TableInv(t, maxSpent) && e < |t.entries|
    ensures TableInv(Settle(t, e), maxSpent)
  {
    if t.entries[e].state == Minting {
      SetStateInv(t, maxSpent, e, if t.shut then Closing else Open);
    }
  }

  /** Recording an ending puts one more handle at the end of the spent queue. */
  lemma RecordInv(t: Table, maxSpent: nat, id: string, e: Ref, ending: Ending)
    requires TableInv(t, maxSpent) && e < |t.entries|
    requires t.entries[e].state == Closing && id == t.minted[e]
    ensures TableInv(Record(t, id, e, ending), maxSpent + 1)
  {
    var t' := Record(t, id, e, ending);
    assert !IsSpent(t, id);
    forall i
      ensures i in t'.spent <==> IsSpent(t', i)
    {
      assert i in t'.spent <==> i in t.spent || i == id;
      if i in t.byID && t.byID[i] == e {
        assert i == id;
      }
    }
  }

  /** Eviction forgets the oldest spent handles and nothing else. */
  lemma {:induction false} EvictInv(t: Table, bound: nat, maxSpent: nat)
    requires TableInv(t, bound)
    ensures TableInv(Evict(t, maxSpent), maxSpent)
    ensures var r := Evict(t, maxSpent);
            && r == t.(byID := r.byID, spent := r.spent)
            && r.byID.Keys <= t.byID.Keys
            && (forall id :: id in t.byID && id !in t.spent ==> id in r.byID)
            && (forall id :: id in r.byID ==> r.byID[id] == t.byID[id])
    decreases |t.spent|
  {
    if |t.spent| > maxSpent {
      var id0 := t.spent[0];
      var t1 := t.(byID := t.byID - {id0}, spent := t.spent[1..]);
      assert IsSpent(t, id0);
      assert forall id :: id in t.spent <==> id == id0 || id in t1.spent;
      assert id0 !in t1.spent;
      assert forall id :: IsSpent(t1, id) <==> IsSpent(t, id) && id != id0;
      EvictInv(t1, bound, maxSpent);
    }
  }

  lemma {:induction false} EvictKeeps(t: Table, maxSpent: nat)
    ensures var r := Evict(t, maxSpent); r == t.(byID := r.byID, spent := r.spent)
    decreases |t.spent|
  {
    if |t.spent| > maxSpent {
      EvictKeeps(t.(byID := t.byID - {t.spent[0]}, spent := t.spent[1..]), maxSpent);
    }
  }

  /** A spend changes its own entry only, and leaves it spent. */
  lemma SpendKeeps(t: Table, maxSpent: nat, id: string, e: Ref, ending: Ending)
    requires e < |t.entries|
    ensures var r := Spend(t, maxSpent, id, e, ending);
            && r.entries == t.entries[e := t.entries[e].(state := Spent, ending := ending, d := None)]
            && r.minted == t.minted && r.shut == t.shut
  {
    EvictKeeps(Record(t, id, e, ending), maxSpent);
  }

  lemma SpendInv(t: Table, maxSpent: nat, id: string, e: Ref, ending: Ending)
    requires TableInv(t, maxSpent) && e < |t.entries|
    requires t.entries[e].state == Closing && id == t.minted[e]
    ensures TableInv(Spend(t, maxSpent, id, e, ending), maxSpent)
    ensures var r := Spend(t, maxSpent, id, e, ending);
            && r.entries == t.entries[e := t.entries[e].(state := Spent, ending := ending, d := None)]
            && r.minted == t.minted && r.shut == t.shut
            && r.keys == Free(t, t.entries[e].run, t.entries[e].key).keys
            && r.perRun == Free(t, t.entries[e].run, t.entries[e].key).perRun
  {
    RecordInv(t, maxSpent, id, e, ending);
    EvictInv(Record(t, id, e, ending), maxSpent + 1, maxSpent);
  }

  lemma {:induction false} KeptNoDuplicates(t: Table, now: int, ids: seq<string>)
    requires WellFormed(t) && NoDuplicates(ids)
    ensures NoDuplicates(Kept(t, now, ids))
  {
    if ids != [] {
      KeptNoDuplicates(t, now, ids[..|ids| - 1]);
    }
  }

  lemma PurgeInv(t: Table, maxSpent: nat, now: int)
    requires TableInv(t, maxSpent)
    ensures TableInv(Purge(t, now), maxSpent)
  {
    KeptNoDuplicates(t, now, t.spent);
    var t' := Purge(t, now);
    assert forall id :: IsSpent(t', id) <==> IsSpent(t, id) && Keeps(t, now, id);
    forall e | 0 <= e < |t.entries| && t.entries[e].state != Spent
      ensures t'.minted[e] in t'.byID && t'.byID[t'.minted[e]] == e
    {
      assert !IsSpent(t, t.minted[e]);
    }
  }

  lemma CloseInv(t: Table, maxSpent: nat, out: seq<Taken>)
    requires TableInv(t, maxSpent) && Names(t, out)
    requires forall i :: 0 <= i < |out| ==> t.entries[out[i].e].state == Open
    ensures TableInv(Close(t, Refs(out)), maxSpent)
  {
    var t' := Close(t, Refs(out));
    forall e | 0 <= e < |t.entries|
      ensures t'.entries[e].state == Spent <==> t.entries[e].state == Spent
    {
      if e in Refs(out) {
        var x :| x in out && x.e == e;
      }
    }
    assert forall id :: IsSpent(t', id) <==> IsSpent(t, id);
  }

  lemma SweepInv(t: Table, maxSpent: nat, now: int, limit: nat, out: seq<Taken>)
    requires TableInv(t, maxSpent) && SweepPick(t, now, limit, out)
    ensures TableInv(Sweep(t, now, out), maxSpent)
  {
    PurgeInv(t, maxSpent, now);
    var t1 := Purge(t, now);
    forall i | 0 <= i < |out|
      ensures out[i].id in t1.byID
    {
      assert !IsSpent(t, out[i].id);
    }
    CloseInv(t1, maxSpent, out);
  }

  lemma ShutdownInv(t: Table, maxSpent: nat, out: seq<Taken>)
    requires TableInv(t, maxSpent) && ShutdownPick(t, out)
    ensures TableInv(Shutdown(t, out), maxSpent)
  {
    CloseInv(t, maxSpent, out);
    var t' := Shutdown(t, out);
    forall e | 0 <= e < |t.entries|
      ensures t'.entries[e].state != Open
    {
      if t.entries[e].state == Open {
        assert t.minted[e] in t.byID;
        var i :| 0 <= i < |out| && out[i].id == t.minted[e];
        assert out[i] in out;
      }
    }
    assert forall id :: IsSpent(t', id) <==> IsSpent(Close(t, Refs(out)), id);
  }
}
