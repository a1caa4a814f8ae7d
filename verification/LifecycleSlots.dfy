/** Every step keeps slots and request keys in step with who holds them. */
module LifecycleSlots {
  import opened Options
  import opened Handles
  import opened HandleLemmas
  import opened Lifecycle
  import opened LifecycleSteps

  // ------------------------------------------------ over the holders alone

  lemma ReservingSlot(c: Config, t: Table, held: map<Holder, KeyRef>, h: Holder, run: string, key: string)
    requires SlotsHeld(c, t, held) && h !in held && ReserveCode(t, c.maxPerRun, run, key) == Granted
    ensures SlotsHeld(c, Reserve(t, run, key), held[h := KeyRef(run, key)])
  {
    var after := held[h := KeyRef(run, key)];
    forall r
      ensures Count(Reserve(t, run, key).perRun, r) == |HoldersOf(after, r)|
    {
      HoldersWith(held, h, KeyRef(run, key), r);
    }
  }

  lemma HoldersWith(held: map<Holder, KeyRef>, h: Holder, k: KeyRef, r: string)
    requires h !in held
    ensures h !in HoldersOf(held, r)
    ensures HoldersOf(held[h := k], r) == if r == k.run then HoldersOf(held, r) + {h} else HoldersOf(held, r)
  {
  }

  lemma ReservingKey(t: Table, held: map<Holder, KeyRef>, h: Holder, run: string, key: string)
    requires KeysHeld(t, held) && h !in held && (key != "" ==> KeyRef(run, key) !in t.keys)
    ensures KeysHeld(Reserve(t, run, key), held[h := KeyRef(run, key)])
  {
    var after := held[h := KeyRef(run, key)];
    forall x | x in Reserve(t, run, key).keys
      ensures x.key != "" && exists g :: g in after && after[g] == x
    {
      if x == KeyRef(run, key) {
        assert after[h] == x;
      } else {
        var g :| g in held && held[g] == x;
        assert after[g] == x;
      }
    }
  }

  /** Freeing what one holder holds never takes a count below zero. */
  lemma FreeingSlot(c: Config, t: Table, held: map<Holder, KeyRef>, h: Holder)
    requires SlotsHeld(c, t, held) && h in held
    ensures Count(t.perRun, held[h].run) > 0
    ensures SlotsHeld(c, Free(t, held[h].run, held[h].key), held - {h})
  {
    var k, after := held[h], held - {h};
    assert h in HoldersOf(held, k.run);
    forall r
      ensures Count(Free(t, k.run, k.key).perRun, r) == |HoldersOf(after, r)|
    {
      assert HoldersOf(after, r) == if r == k.run then HoldersOf(held, r) - {h} else HoldersOf(held, r);
    }
  }

  lemma FreeingKey(t: Table, held: map<Holder, KeyRef>, h: Holder)
    requires KeysHeld(t, held) && h in held
    ensures KeysHeld(Free(t, held[h].run, held[h].key), held - {h})
  {
    var after := held - {h};
    forall x | x in Free(t, held[h].run, held[h].key).keys
      ensures x.key != "" && exists g :: g in after && after[g] == x
    {
      var g :| g in held && held[g] == x;
      assert after[g] == x;
    }
  }

  /** One holder takes another's place. */
  lemma Renaming(c: Config, t: Table, held: map<Holder, KeyRef>, h: Holder, g: Holder)
    requires Conserved(c, t, held) && h in held && g !in held
    ensures Conserved(c, t, (held - {h})[g := held[h]])
  {
    var after := (held - {h})[g := held[h]];
    forall r
      ensures Count(t.perRun, r) == |HoldersOf(after, r)|
    {
      if r == held[h].run {
        assert HoldersOf(after, r) == HoldersOf(held, r) - {h} + {g};
        assert h in HoldersOf(held, r);
      } else {
        assert HoldersOf(after, r) == HoldersOf(held, r);
      }
    }
    forall x | x in t.keys
      ensures x.key != "" && exists f :: f in after && after[f] == x
    {
      var f :| f in held && held[f] == x;
      assert after[if f == h then g else f] == x;
    }
  }

  // ------------------------------------------------ over the steps

  /** The steps that neither reserve nor free. */
  predicate Slotless(l: Label) {
    !l.DoReserve? && !l.DoMint? && !l.DoRelease? && !l.DoSpend? && !l.AbandonSpend?
  }

  predicate SameHold(p: Proc, q: Proc) {
    && (Reserved(p) <==> Reserved(q))
    && (Reserved(p) ==> p.run == q.run && p.key == q.key)
  }

  predicate SameEntryHold(a: Entry, b: Entry) {
    && (a.state == Spent <==> b.state == Spent)
    && a.run == b.run && a.key == b.key
  }

  lemma HoldingsKept(s: Sys, s': Sys)
    requires |s'.t.entries| == |s.t.entries|
    requires forall e :: 0 <= e < |s.t.entries| ==> SameEntryHold(s.t.entries[e], s'.t.entries[e])
    requires forall pid :: pid in s.procs && Reserved(s.procs[pid]) ==>
        pid in s'.procs && SameHold(s.procs[pid], s'.procs[pid])
    requires forall pid :: pid in s'.procs && Reserved(s'.procs[pid]) ==>
        pid in s.procs && SameHold(s.procs[pid], s'.procs[pid])
    ensures Holdings(s') == Holdings(s)
  {
    assert Holders(s') == Holders(s);
  }

  /** The slots, the keys and whose each entry is are as they were. */
  ghost predicate SameHeld(t: Table, t': Table) {
    && t'.perRun == t.perRun && t'.keys == t.keys && |t'.entries| == |t.entries|
    && forall e :: 0 <= e < |t.entries| ==>
        t'.entries[e].run == t.entries[e].run && t'.entries[e].key == t.entries[e].key
  }

  lemma SlotlessTable(c: Config, s: Sys, l: Label)
    requires Can(c, s, l) && Slotless(l)
    ensures SameHeld(s.t, Apply(c, s, l).t)
  {
    if l.DoSettle? || l.DoTake? {
      SlotlessEntry(c, s, l);
    } else if l.SweepTake? || l.ShutTake? {
      SlotlessBatch(c, s, l);
    } else {
      assert Apply(c, s, l).t == s.t;
    }
  }

  lemma SlotlessEntry(c: Config, s: Sys, l: Label)
    requires Can(c, s, l) && (l.DoSettle? || l.DoTake?)
    ensures SameHeld(s.t, Apply(c, s, l).t)
  {
  }

  lemma SlotlessBatch(c: Config, s: Sys, l: Label)
    requires Can(c, s, l) && (l.SweepTake? || l.ShutTake?)
    ensures SameHeld(s.t, Apply(c, s, l).t)
  {
  }

  /** The same entries are spent. */
  ghost predicate SameSpent(t: Table, t': Table) {
    && |t'.entries| == |t.entries|
    && forall e :: 0 <= e < |t.entries| ==> (t'.entries[e].state == Spent <==> t.entries[e].state == Spent)
  }

  lemma SlotlessSpent(c: Config, s: Sys, l: Label)
    requires Can(c, s, l) && Slotless(l)
    ensures SameSpent(s.t, Apply(c, s, l).t)
  {
    if l.DoSettle? || l.DoTake? {
      SpentByEntry(c, s, l);
    } else if l.SweepTake? || l.ShutTake? {
      SpentByBatch(c, s, l);
    } else {
      assert Apply(c, s, l).t == s.t;
    }
  }

  lemma SpentByEntry(c: Config, s: Sys, l: Label)
    requires Can(c, s, l) && (l.DoSettle? || l.DoTake?)
    ensures SameSpent(s.t, Apply(c, s, l).t)
  {
  }

  lemma SpentByBatch(c: Config, s: Sys, l: Label)
    requires Can(c, s, l) && (l.SweepTake? || l.ShutTake?)
    ensures SameSpent(s.t, Apply(c, s, l).t)
  {
    BatchKnown(s, l.out);
  }

  lemma SlotlessProcs(c: Config, s: Sys, l: Label)
    requires Can(c, s, l) && Slotless(l)
    ensures var s' := Apply(c, s, l);
            && (Mover(l).Some? ==>
                  var pid := Mover(l).value;
                  if pid in s'.procs then SameHold(s.procs[pid], s'.procs[pid]) else !Reserved(s.procs[pid]))
            && (Mover(l).None? && !l.Start? ==> !Reserved(s'.procs[s.next]))
  {
  }

  lemma SlotlessHoldings(c: Config, s: Sys, l: Label)
    requires OneCloser(s) && s.next !in s.procs && Can(c, s, l) && Slotless(l)
    ensures Holdings(Apply(c, s, l)) == Holdings(s)
  {
    var s' := Apply(c, s, l);
    SlotlessTable(c, s, l);
    SlotlessSpent(c, s, l);
    SlotlessProcs(c, s, l);
    if Mover(l).Some? {
      MoverStep(c, s, l);
    } else if !l.Start? {
      SpawnStep(c, s, l);
    }
    HoldingsKept(s, s');
  }

  lemma ReserveHoldings(c: Config, s: Sys, l: Label)
    requires Can(c, s, l) && l.DoReserve?
    ensures var s', p := Apply(c, s, l), s.procs[l.pid];
            && ByProc(l.pid) !in Holdings(s)
            && if ReserveCode(s.t, c.maxPerRun, p.run, l.key) == Granted
               then Holdings(s') == Holdings(s)[ByProc(l.pid) := KeyRef(p.run, l.key)]
                   && s'.t == Reserve(s.t, p.run, l.key)
               else Holdings(s') == Holdings(s) && s'.t == s.t
  {
    var s', p := Apply(c, s, l), s.procs[l.pid];
    if ReserveCode(s.t, c.maxPerRun, p.run, l.key) == Granted {
      HoldingsWith(s, s', l.pid, p.run, l.key);
    } else {
      HoldingsKept(s, s');
    }
  }

  lemma HoldingsWith(s: Sys, s': Sys, pid: Pid, run: string, key: string)
    requires s'.t.entries == s.t.entries && pid in s.procs && !Reserved(s.procs[pid])
    requires s'.procs == s.procs[pid := AdmitAsk(run, key)]
    ensures Holdings(s') == Holdings(s)[ByProc(pid) := KeyRef(run, key)]
  {
    assert Holders(s') == Holders(s) + {ByProc(pid)};
  }

  lemma MintedHoldings(s: Sys, pid: Pid, expires: int, id: string)
    requires pid in s.procs && s.procs[pid].AdmitMint?
    ensures var s', h, g := Minted(s, pid, expires, id), ByProc(pid), ByEntry(|s.t.entries|);
            && h in Holdings(s) && g !in Holdings(s)
            && Holdings(s') == (Holdings(s) - {h})[g := Holdings(s)[h]]
  {
    var s', h, g := Minted(s, pid, expires, id), ByProc(pid), ByEntry(|s.t.entries|);
    MintedHolders(s, s', pid, id);
    assert forall e :: 0 <= e < |s.t.entries| ==> s'.t.entries[e] == s.t.entries[e];
  }

  lemma MintedHolders(s: Sys, s': Sys, pid: Pid, id: string)
    requires pid in s.procs && s.procs[pid].AdmitMint? && s'.procs == s.procs[pid := AdmitWrite(id, |s.t.entries|)]
    requires |s'.t.entries| == |s.t.entries| + 1 && s'.t.entries[..|s.t.entries|] == s.t.entries
    requires s'.t.entries[|s.t.entries|].state == Minting
    ensures ByProc(pid) in Holders(s) && ByEntry(|s.t.entries|) !in Holders(s)
    ensures Holders(s') == Holders(s) - {ByProc(pid)} + {ByEntry(|s.t.entries|)}
  {
    assert forall e :: 0 <= e < |s.t.entries| ==> s'.t.entries[e] == s.t.entries[e];
  }

  lemma ReleaseHoldings(c: Config, s: Sys, l: Label)
    requires Can(c, s, l) && l.DoRelease?
    ensures var s', h := Apply(c, s, l), ByProc(l.pid);
            && h in Holdings(s) && Holdings(s') == Holdings(s) - {h}
            && s'.t == Free(s.t, Holdings(s)[h].run, Holdings(s)[h].key)
  {
    var s', h := Apply(c, s, l), ByProc(l.pid);
    assert Holders(s') == Holders(s) - {h};
  }

  lemma SpentHoldings(s: Sys, s': Sys, pid: Pid, e: Ref, was: Entry)
    requires e < |s.t.entries| && s.t.entries[e].state == Closing && was.state == Spent
    requires s'.t.entries == s.t.entries[e := was]
    requires pid in s.procs && pid in s'.procs && s'.procs == s.procs[pid := s'.procs[pid]]
    requires !Reserved(s.procs[pid]) && !Reserved(s'.procs[pid])
    ensures ByEntry(e) in Holdings(s) && Holdings(s)[ByEntry(e)] == KeyRef(s.t.entries[e].run, s.t.entries[e].key)
    ensures Holdings(s') == Holdings(s) - {ByEntry(e)}
  {
    assert Holders(s') == Holders(s) - {ByEntry(e)};
  }

  lemma SpendSlots(c: Config, s: Sys, l: Label) returns (e: Ref)
    requires TableInv(s.t, c.maxSpent) && Owned(s) && Can(c, s, l) && (l.DoSpend? || l.AbandonSpend?)
    ensures var s', h := Apply(c, s, l), ByEntry(e);
            && h in Holdings(s) && Holdings(s') == Holdings(s) - {h}
            && s'.t.perRun == Free(s.t, Holdings(s)[h].run, Holdings(s)[h].key).perRun
            && s'.t.keys == Free(s.t, Holdings(s)[h].run, Holdings(s)[h].key).keys
  {
    var p := s.procs[l.pid];
    assert Knows(s.t, p);
    if l.DoSpend? {
      e := p.e;
      SpendingSlots(c, s, Apply(c, s, l), l.pid, Taken(p.id, p.e), p.ending);
    } else {
      e := p.todo[0].e;
      SpendingSlots(c, s, Apply(c, s, l), l.pid, p.todo[0], Ending.Abandoned);
    }
  }

  lemma SpendingSlots(c: Config, s: Sys, s': Sys, pid: Pid, x: Taken, ending: Ending)
    requires TableInv(s.t, c.maxSpent) && Owned(s) && pid in s.procs && Closes(s.procs[pid], x.e)
    requires x.e < |s.t.minted| && s.t.minted[x.e] == x.id
    requires pid in s'.procs && s' == Go(Spends(c, s, x.id, x.e, ending), pid, s'.procs[pid])
    requires !Reserved(s.procs[pid]) && !Reserved(s'.procs[pid])
    ensures var h := ByEntry(x.e);
            && h in Holdings(s) && Holdings(s') == Holdings(s) - {h}
            && s'.t.perRun == Free(s.t, Holdings(s)[h].run, Holdings(s)[h].key).perRun
            && s'.t.keys == Free(s.t, Holdings(s)[h].run, Holdings(s)[h].key).keys
  {
    ClosedByHolder(s, pid, x.e);
    SpendInv(s.t, c.maxSpent, x.id, x.e, ending);
    SpentHoldings(s, s', pid, x.e, s'.t.entries[x.e]);
  }

  lemma ConservedReserve(c: Config, s: Sys, l: Label)
    requires Conserved(c, s.t, Holdings(s)) && Can(c, s, l) && l.DoReserve?
    ensures Conserved(c, Apply(c, s, l).t, Holdings(Apply(c, s, l)))
  {
    var run := s.procs[l.pid].run;
    ReserveHoldings(c, s, l);
    if ReserveCode(s.t, c.maxPerRun, run, l.key) == Granted {
      ReservingSlot(c, s.t, Holdings(s), ByProc(l.pid), run, l.key);
      ReservingKey(s.t, Holdings(s), ByProc(l.pid), run, l.key);
    }
  }

  lemma ConservedMint(c: Config, s: Sys, l: Label)
    requires Conserved(c, s.t, Holdings(s)) && Can(c, s, l) && l.DoMint?
    ensures Conserved(c, Apply(c, s, l).t, Holdings(Apply(c, s, l)))
  {
    if s.t.shut {
      HoldingsKept(s, Apply(c, s, l));
    } else {
      MintedHoldings(s, l.pid, l.expires, l.id);
      Renaming(c, s.t, Holdings(s), ByProc(l.pid), ByEntry(|s.t.entries|));
    }
  }

  lemma ConservedFree(c: Config, s: Sys, s': Sys, h: Holder)
    requires Conserved(c, s.t, Holdings(s)) && h in Holdings(s) && Holdings(s') == Holdings(s) - {h}
    requires s'.t.perRun == Free(s.t, Holdings(s)[h].run, Holdings(s)[h].key).perRun
    requires s'.t.keys == Free(s.t, Holdings(s)[h].run, Holdings(s)[h].key).keys
    ensures Conserved(c, s'.t, Holdings(s'))
  {
    FreeingSlot(c, s.t, Holdings(s), h);
    FreeingKey(s.t, Holdings(s), h);
  }

  lemma ConservedSpend(c: Config, s: Sys, l: Label)
    requires TableInv(s.t, c.maxSpent) && Owned(s) && Conserved(c, s.t, Holdings(s))
    requires Can(c, s, l) && (l.DoSpend? || l.AbandonSpend?)
    ensures Conserved(c, Apply(c, s, l).t, Holdings(Apply(c, s, l)))
  {
    var e := SpendSlots(c, s, l);
    ConservedFree(c, s, Apply(c, s, l), ByEntry(e));
  }

  lemma ConservedStep(c: Config, s: Sys, l: Label)
    requires TableInv(s.t, c.maxSpent) && Owned(s) && s.next !in s.procs && Conserved(c, s.t, Holdings(s))
        && Can(c, s, l)
    ensures Conserved(c, Apply(c, s, l).t, Holdings(Apply(c, s, l)))
  {
    if Slotless(l) {
      SlotlessHoldings(c, s, l);
      SlotlessTable(c, s, l);
    } else if l.DoSpend? || l.AbandonSpend? {
      ConservedSpend(c, s, l);
    } else {
      ConservedAdmit(c, s, l);
    }
  }

  lemma ConservedAdmit(c: Config, s: Sys, l: Label)
    requires Conserved(c, s.t, Holdings(s)) && Can(c, s, l) && (l.DoReserve? || l.DoMint? || l.DoRelease?)
    ensures Conserved(c, Apply(c, s, l).t, Holdings(Apply(c, s, l)))
  {
    if l.DoReserve? {
      ConservedReserve(c, s, l);
    } else if l.DoMint? {
      ConservedMint(c, s, l);
    } else {
      ReleaseHoldings(c, s, l);
      ConservedFree(c, s, Apply(c, s, l), ByProc(l.pid));
    }
  }
}
