/** Every step keeps each execution in one place until its one closing call. */
module LifecyclePlaces {
  import opened Options
  import opened Handles
  import opened HandleLemmas
  import opened Lifecycle
  import opened LifecycleSteps

  /** What the step leaves alone: who carries what, and what each entry holds. */
  ghost predicate SamePlaces(s: Sys, s': Sys) {
    && s'.home == s.home && s'.closings == s.closings && |s'.t.entries| == |s.t.entries|
    && (forall pid :: pid in s.procs && IsCarrier(s.procs[pid]) ==>
        pid in s'.procs && SameCarries(s.procs[pid], s'.procs[pid]))
    && (forall pid :: pid in s'.procs && IsCarrier(s'.procs[pid]) ==>
        pid in s.procs && SameCarries(s.procs[pid], s'.procs[pid]))
    && (forall e :: 0 <= e < |s.t.entries| && s'.t.entries[e].state != Spent ==>
                    s.t.entries[e].state != Spent && s'.t.entries[e].d == s.t.entries[e].d)
    && (forall e :: 0 <= e < |s.t.entries| ==> (Unclosed(s', e) <==> Unclosed(s, e)))
  }

  lemma PlacedKept(s: Sys, s': Sys)
    requires Placed(s) && SamePlaces(s, s')
    ensures Placed(s')
  {
  }

  predicate SameCarries(p: Proc, q: Proc) {
    && (IsCarrier(p) <==> IsCarrier(q))
    && (IsCarrier(p) ==> p.x == q.x)
  }

  /** Quiet steps that neither hand over nor close an execution. */
  predicate Idle(l: Label) {
    Quiet(l) && !l.PipelineHands? && !l.AbandonUnminted? && !l.DoClose? && !l.AbandonCall?
  }

  lemma IdleStep(c: Config, s: Sys, l: Label)
    requires Can(c, s, l) && Idle(l)
    ensures var s' := Apply(c, s, l);
            && s'.home == s.home && s'.closings == s.closings && s'.t.entries == s.t.entries && s'.closer == s.closer
            && (Mover(l).Some? ==>
                  var pid := Mover(l).value;
                  && (pid in s'.procs ==> SameCarries(s.procs[pid], s'.procs[pid])
                                          && forall e :: Called(s'.procs[pid], e) <==> Called(s.procs[pid], e))
                  && (pid !in s'.procs ==> !IsCarrier(s.procs[pid])))
            && (Mover(l).None? && !l.Start? ==> !IsCarrier(s'.procs[s.next]))
  {
  }

  lemma PlacedIdle(c: Config, s: Sys, l: Label)
    requires Owned(s) && Placed(s) && s.next !in s.procs && Can(c, s, l) && Idle(l)
    ensures Placed(Apply(c, s, l))
  {
    var s' := Apply(c, s, l);
    IdleStep(c, s, l);
    QuietStep(c, s, l);
    if Mover(l).Some? {
      MoverStep(c, s, l);
      if Mover(l).value in s'.procs {
        SameWhenMoved(s, s', Mover(l).value);
      } else {
        SameWhenStopped(s, s', Mover(l).value);
      }
      PlacedKept(s, s');
    } else if !l.Start? {
      SpawnStep(c, s, l);
      SameWhenSpawned(s, s');
      PlacedKept(s, s');
    }
  }

  lemma SameWhenMoved(s: Sys, s': Sys, pid: Pid)
    requires s'.home == s.home && s'.closings == s.closings && s'.t.entries == s.t.entries && s'.closer == s.closer
    requires pid in s.procs && pid in s'.procs && s'.procs == s.procs[pid := s'.procs[pid]]
    requires SameCarries(s.procs[pid], s'.procs[pid]) && forall e :: Called(s'.procs[pid], e) <==>
        Called(s.procs[pid], e)
    ensures SamePlaces(s, s')
  {
  }

  lemma SameWhenStopped(s: Sys, s': Sys, pid: Pid)
    requires OneCloser(s)
    requires s'.home == s.home && s'.closings == s.closings && s'.t.entries == s.t.entries && s'.closer == s.closer
    requires pid in s.procs && s'.procs == s.procs - {pid} && !IsCarrier(s.procs[pid]) && ClosesNone(s.procs[pid])
    ensures SamePlaces(s, s')
  {
  }

  lemma SameWhenSpawned(s: Sys, s': Sys)
    requires OneCloser(s)
    requires s'.home == s.home && s'.closings == s.closings && s'.t.entries == s.t.entries && s'.closer == s.closer
    requires s.next !in s.procs && s.next in s'.procs && s'.procs == s.procs[s.next := s'.procs[s.next]]
    requires !IsCarrier(s'.procs[s.next])
    ensures SamePlaces(s, s')
  {
  }

  /** Entries handed over keep their executions: the new holder called nothing. */
  lemma SameWhenHanded(s: Sys, s': Sys, pid: Pid, refs: set<Ref>)
    requires OneCloser(s) && s'.home == s.home && s'.closings == s.closings
    requires forall f :: f in refs ==>
               f < |s.t.entries| && s.t.entries[f].state != Closing && s.t.entries[f].state != Spent
    requires |s'.t.entries| == |s.t.entries|
    requires forall e :: 0 <= e < |s.t.entries| ==>
               s'.t.entries[e].d == s.t.entries[e].d && (s'.t.entries[e].state == Spent <==>
                   s.t.entries[e].state == Spent)
    requires s'.closer == Assign(s.closer, refs, pid)
    requires pid in s.procs ==> !IsCarrier(s.procs[pid]) && ClosesNone(s.procs[pid])
    requires pid in s'.procs && s'.procs == s.procs[pid := s'.procs[pid]] && !IsCarrier(s'.procs[pid])
    requires forall e :: !Called(s'.procs[pid], e)
    ensures SamePlaces(s, s')
  {
    forall e | 0 <= e < |s.t.entries|
      ensures Unclosed(s', e) <==> Unclosed(s, e)
    {
      if e in s.closer {
        assert Closes(s.procs[s.closer[e]], e);
        assert s.closer[e] != pid && e !in refs;
      }
    }
  }

  /** The entry spent was closed, and stays so. */
  lemma SameWhenSpent(s: Sys, s': Sys, pid: Pid, e: Ref)
    requires OneCloser(s) && s'.home == s.home && s'.closings == s.closings
    requires pid in s.procs && e < |s.t.entries| && Called(s.procs[pid], e) && Closes(s.procs[pid], e)
    requires |s'.t.entries| == |s.t.entries| && s'.t.entries[e].state == Spent
    requires forall f :: 0 <= f < |s.t.entries| && f != e ==> s'.t.entries[f] == s.t.entries[f]
    requires s'.closer == s.closer - {e}
    requires !IsCarrier(s.procs[pid]) && pid in s'.procs && s'.procs == s.procs[pid := s'.procs[pid]]
        && !IsCarrier(s'.procs[pid])
    requires forall f :: f != e ==> !Called(s.procs[pid], f) && !Called(s'.procs[pid], f)
    ensures SamePlaces(s, s')
  {
    assert s.closer[e] == pid && !Unclosed(s, e);
    forall f | 0 <= f < |s.t.entries|
      ensures Unclosed(s', f) <==> Unclosed(s, f)
    {
    }
  }

  lemma SettleSame(c: Config, s: Sys, l: Label)
    requires OneCloser(s) && Can(c, s, l) && l.DoSettle?
    ensures SamePlaces(s, Apply(c, s, l))
  {
    var s', e := Apply(c, s, l), s.procs[l.pid].e;
    if SettleTakes(s.t, e) {
      SameWhenHandedOne(s, s', l.pid, e);
    } else {
      SameWhenOpened(s, s', l.pid);
    }
  }

  /** A settle that opens its entry or finds it taken leaves every place as it was. */
  lemma SameWhenOpened(s: Sys, s': Sys, pid: Pid)
    requires OneCloser(s) && s'.home == s.home && s'.closings == s.closings && s'.closer == s.closer
    requires |s'.t.entries| == |s.t.entries|
    requires forall e :: 0 <= e < |s.t.entries| ==>
               s'.t.entries[e].d == s.t.entries[e].d && (s'.t.entries[e].state == Spent <==>
                   s.t.entries[e].state == Spent)
    requires pid in s.procs && !IsCarrier(s.procs[pid]) && ClosesNone(s.procs[pid])
    requires s'.procs == s.procs[pid := Leave]
    ensures SamePlaces(s, s')
  {
    forall e | 0 <= e < |s.t.entries|
      ensures Unclosed(s', e) <==> Unclosed(s, e)
    {
      assert e in s.closer ==> s.closer[e] != pid;
    }
  }

  /** One entry handed over to a process that closed nothing. */
  lemma SameWhenHandedOne(s: Sys, s': Sys, pid: Pid, e: Ref)
    requires OneCloser(s) && s'.home == s.home && s'.closings == s.closings
    requires e < |s.t.entries| && s.t.entries[e].state != Closing && s.t.entries[e].state != Spent
    requires s'.t.entries == SetState(s.t, e, Closing).entries && s'.closer == s.closer[e := pid]
    requires pid in s.procs && !IsCarrier(s.procs[pid]) && ClosesNone(s.procs[pid])
    requires pid in s'.procs && s'.procs == s.procs[pid := s'.procs[pid]] && !IsCarrier(s'.procs[pid])
    requires forall f :: !Called(s'.procs[pid], f)
    ensures SamePlaces(s, s')
  {
    assert s'.closer == Assign(s.closer, {e}, pid);
    SameWhenHanded(s, s', pid, {e});
  }

  lemma TakeSame(c: Config, s: Sys, l: Label)
    requires OneCloser(s) && Can(c, s, l) && l.DoTake?
    ensures SamePlaces(s, Apply(c, s, l))
  {
    var s' := Apply(c, s, l);
    if TakeCode(s.t, l.id, s.procs[l.pid].run, l.now) == Granted {
      SameWhenHandedOne(s, s', l.pid, s.t.byID[l.id]);
    } else {
      SameWhenMoved(s, s', l.pid);
    }
  }

  lemma SweepSame(c: Config, s: Sys, l: Label)
    requires OneCloser(s) && s.next !in s.procs && Can(c, s, l) && l.SweepTake?
    ensures SamePlaces(s, Apply(c, s, l))
  {
    BatchKnown(s, l.out);
    SameWhenHanded(s, Apply(c, s, l), s.next, Refs(l.out));
  }

  lemma ShutSame(c: Config, s: Sys, l: Label)
    requires OneCloser(s) && (!s.started ==> s.t.entries == []) && Can(c, s, l) && l.ShutTake?
    ensures SamePlaces(s, Apply(c, s, l))
  {
    var s' := Apply(c, s, l);
    BatchKnown(s, l.out);
    if s.started {
      SameWhenHanded(s, s', l.pid, Refs(l.out));
    } else {
      assert s'.t.entries == s.t.entries;
      SameWhenStopped(s, s', l.pid);
    }
  }

  lemma SpendSame(c: Config, s: Sys, l: Label)
    requires TableInv(s.t, c.maxSpent) && Owned(s) && Can(c, s, l) && l.DoSpend?
    ensures SamePlaces(s, Apply(c, s, l))
  {
    var p := s.procs[l.pid];
    assert Knows(s.t, p);
    ClosedByHolder(s, l.pid, p.e);
    SpendInv(s.t, c.maxSpent, p.id, p.e, p.ending);
    SameWhenSpent(s, Apply(c, s, l), l.pid, p.e);
  }

  lemma AbandonSame(c: Config, s: Sys, l: Label)
    requires TableInv(s.t, c.maxSpent) && Owned(s) && Can(c, s, l) && l.AbandonSpend?
    ensures SamePlaces(s, Apply(c, s, l))
  {
    var p := s.procs[l.pid];
    HeadIsClosed(s, l.pid);
    SpendInv(s.t, c.maxSpent, p.todo[0].id, p.todo[0].e, Ending.Abandoned);
    assert Closes(p, p.todo[0].e);
    SameWhenSpent(s, Apply(c, s, l), l.pid, p.todo[0].e);
  }

  /** The pipeline hands an admit a new execution. */
  lemma PlacedHands(c: Config, s: Sys, l: Label)
    requires Placed(s) && Can(c, s, l) && l.PipelineHands?
    ensures Placed(Apply(c, s, l))
  {
    var s' := Apply(c, s, l);
    var n := |s.home|;
    assert forall x :: 0 <= x < n ==> s'.home[x] == s.home[x];
    forall e | 0 <= e < |s.t.entries|
      ensures Unclosed(s', e) <==> Unclosed(s, e)
    {
    }
    NoClosings(s.closings, n);
  }

  lemma {:induction false} NoClosings(cs: seq<Closed>, x: Exec)
    requires forall i :: 0 <= i < |cs| ==> cs[i].x != x
    ensures Closings(cs, x) == 0
  {
    if cs != [] {
      NoClosings(cs[..|cs| - 1], x);
    }
  }

  /** The mint moves the execution from its admit into its entry. */
  lemma PlacedMint(c: Config, s: Sys, l: Label)
    requires Owned(s) && Placed(s) && Can(c, s, l) && l.DoMint?
    ensures Placed(Apply(c, s, l))
  {
    var s', p := Apply(c, s, l), s.procs[l.pid];
    if s.t.shut {
      SameWhenMoved(s, s', l.pid);
      PlacedKept(s, s');
    } else {
      PlacedMinted(s, l.pid, l.expires, l.id);
    }
  }

  lemma PlacedMinted(s: Sys, pid: Pid, expires: int, id: string)
    requires OneCloser(s) && Placed(s) && pid in s.procs && s.procs[pid].AdmitMint?
    ensures Placed(Minted(s, pid, expires, id))
  {
    var s' := Minted(s, pid, expires, id);
    assert IsCarrier(s.procs[pid]);
    assert forall e :: 0 <= e < |s.t.entries| ==> s'.t.entries[e] == s.t.entries[e];
    forall e | 0 <= e < |s.t.entries|
      ensures Unclosed(s', e) <==> Unclosed(s, e)
    {
    }
    assert |s.t.entries| !in s.closer && Unclosed(s', |s.t.entries|);
  }

  /** A closing call: the execution is gone and no other changed its place. */
  lemma ClosedOnceMore(s: Sys, x: Exec, how: How)
    requires ClosedOnce(s) && x < |s.home| && !s.home[x].Gone?
    ensures ClosedOnce(CloseExec(s, x, how))
  {
    var s' := CloseExec(s, x, how);
    assert s'.closings[..|s.closings|] == s.closings;
  }

  lemma PlacedUnminted(c: Config, s: Sys, l: Label)
    requires Placed(s) && Can(c, s, l) && l.AbandonUnminted?
    ensures Placed(Apply(c, s, l))
  {
    var s', p := Apply(c, s, l), s.procs[l.pid];
    assert IsCarrier(p);
    ClosedOnceMore(s, p.x, GivenUp);
    forall e | 0 <= e < |s.t.entries|
      ensures Unclosed(s', e) <==> Unclosed(s, e)
    {
    }
  }

  /** The process that was handed e makes the closing call for its execution. */
  lemma PlacedCalled(s: Sys, s': Sys, pid: Pid, e: Ref, how: How)
    requires OneCloser(s) && Placed(s) && HasExec(s, e) && pid in s.procs && Closes(s.procs[pid], e)
    requires !IsCarrier(s.procs[pid]) && forall f :: !Called(s.procs[pid], f)
    requires pid in s'.procs && s' == Go(CloseExec(s, s.t.entries[e].d.value, how), pid, s'.procs[pid])
    requires !IsCarrier(s'.procs[pid]) && forall f :: Called(s'.procs[pid], f) <==> f == e
    ensures Placed(s')
  {
    var x := s.t.entries[e].d.value;
    assert s.closer[e] == pid && Unclosed(s, e);
    assert s.home[x] == AtEntry(e);
    ClosedOnceMore(s, x, how);
    forall f | 0 <= f < |s.t.entries|
      ensures Unclosed(s', f) <==> Unclosed(s, f) && f != e
    {
    }
  }

  lemma PlacedStep(c: Config, s: Sys, l: Label)
    requires TableInv(s.t, c.maxSpent) && Owned(s) && Counted(s) && Placed(s) && Can(c, s, l)
    ensures Placed(Apply(c, s, l))
  {
    assert s.next !in s.procs;
    if Idle(l) {
      PlacedIdle(c, s, l);
    } else if l.PipelineHands? || l.DoMint? || l.AbandonUnminted? {
      PlacedAdmitStep(c, s, l);
    } else if l.DoClose? || l.AbandonCall? {
      PlacedCallStep(c, s, l);
    } else {
      PlacedSameStep(c, s, l);
    }
  }

  lemma PlacedAdmitStep(c: Config, s: Sys, l: Label)
    requires Owned(s) && Placed(s) && Can(c, s, l) && (l.PipelineHands? || l.DoMint? || l.AbandonUnminted?)
    ensures Placed(Apply(c, s, l))
  {
    if l.PipelineHands? {
      PlacedHands(c, s, l);
    } else if l.DoMint? {
      PlacedMint(c, s, l);
    } else {
      PlacedUnminted(c, s, l);
    }
  }

  lemma PlacedCallStep(c: Config, s: Sys, l: Label)
    requires Owned(s) && Placed(s) && Can(c, s, l) && (l.DoClose? || l.AbandonCall?)
    ensures Placed(Apply(c, s, l))
  {
    if l.DoClose? {
      PlacedCalled(s, Apply(c, s, l), l.pid, s.procs[l.pid].e, s.procs[l.pid].how);
    } else {
      PlacedGivenUp(c, s, l);
    }
  }

  lemma PlacedGivenUp(c: Config, s: Sys, l: Label)
    requires Owned(s) && Placed(s) && Can(c, s, l) && l.AbandonCall?
    ensures Placed(Apply(c, s, l))
  {
    var p := s.procs[l.pid];
    assert Closes(p, p.todo[0].e);
    PlacedCalled(s, Apply(c, s, l), l.pid, p.todo[0].e, GivenUp);
  }

  lemma PlacedSameStep(c: Config, s: Sys, l: Label)
    requires TableInv(s.t, c.maxSpent) && Owned(s) && Placed(s) && s.next !in s.procs && (!s.started ==>
        s.t.entries == [])
    requires Can(c, s, l)
    requires l.DoSettle? || l.DoTake? || l.DoSpend? || l.AbandonSpend? || l.SweepTake? || l.ShutTake?
    ensures Placed(Apply(c, s, l))
  {
    match l {
      case DoSettle(_) => SettleSame(c, s, l);
      case DoTake(_, _, _, _) => TakeSame(c, s, l);
      case DoSpend(_) => SpendSame(c, s, l);
      case AbandonSpend(_) => AbandonSame(c, s, l);
      case SweepTake(_, _, _) => SweepSame(c, s, l);
      case ShutTake(_, _, _) => ShutSame(c, s, l);
    }
    PlacedKept(s, Apply(c, s, l));
  }
}
