/** Every step of the adapter keeps every part of the invariant. */
module LifecycleSteps {
  import opened Options
  import opened Handles
  import opened HandleLemmas
  import opened Flights
  import opened Lifecycle

  // ------------------------------------------------ the table

  /** The entry a process is about to spend is being closed. */
  lemma ClosedByHolder(s: Sys, pid: Pid, e: Ref)
    requires Owned(s) && pid in s.procs && Closes(s.procs[pid], e)
    ensures e < |s.t.entries| && s.t.entries[e].state == Closing && s.closer[e] == pid
  {
    assert e in s.closer;
  }

  lemma HeadIsClosed(s: Sys, pid: Pid)
    requires Owned(s) && pid in s.procs && s.procs[pid].Abandon? && s.procs[pid].todo != []
    ensures var x := s.procs[pid].todo[0];
            && x.e < |s.t.entries| && s.t.entries[x.e].state == Closing && s.closer[x.e] == pid
                && s.t.minted[x.e] == x.id
  {
    assert Knows(s.t, s.procs[pid]);
    ClosedByHolder(s, pid, s.procs[pid].todo[0].e);
  }

  lemma TableStep(c: Config, s: Sys, l: Label)
    requires TableInv(s.t, c.maxSpent) && Owned(s) && Can(c, s, l)
    ensures TableInv(Apply(c, s, l).t, c.maxSpent)
  {
    if l.DoSpend? || l.AbandonSpend? {
      TableSpendStep(c, s, l);
    } else if OfAdmit(l) {
      TableAdmitStep(c, s, l);
    } else if l.DoTake? {
      TakeInv(s.t, c.maxSpent, l.id, s.procs[l.pid].run, l.now);
    } else if l.SweepTake? {
      SweepInv(s.t, c.maxSpent, l.now, l.limit, l.out);
    } else if l.ShutTake? {
      ShutdownInv(s.t, c.maxSpent, l.out);
    }
  }

  lemma TableAdmitStep(c: Config, s: Sys, l: Label)
    requires TableInv(s.t, c.maxSpent) && Can(c, s, l) && OfAdmit(l)
    ensures TableInv(Apply(c, s, l).t, c.maxSpent)
  {
    match l
    case DoReserve(pid, key) => ReserveInv(s.t, c.maxSpent, s.procs[pid].run, key);
    case DoMint(pid, expires, id) =>
      if !s.t.shut {
        MintInv(s.t, c.maxSpent, Entry(s.procs[pid].run, Some(s.procs[pid].x), expires, s.procs[pid].key, Minting,
            NoEnding), id);
      }
    case DoRelease(pid) => FreeInv(s.t, c.maxSpent, s.procs[pid].run, s.procs[pid].key);
    case DoSettle(pid) => SettleInv(s.t, c.maxSpent, s.procs[pid].e);
    case _ =>
  }

  lemma TableSpendStep(c: Config, s: Sys, l: Label)
    requires TableInv(s.t, c.maxSpent) && Owned(s) && Can(c, s, l) && (l.DoSpend? || l.AbandonSpend?)
    ensures TableInv(Apply(c, s, l).t, c.maxSpent)
  {
    var p := s.procs[l.pid];
    if l.DoSpend? {
      assert Knows(s.t, p);
      ClosedByHolder(s, l.pid, p.e);
      SpendInv(s.t, c.maxSpent, p.id, p.e, p.ending);
    } else {
      HeadIsClosed(s, l.pid);
      SpendInv(s.t, c.maxSpent, p.todo[0].id, p.todo[0].e, Ending.Abandoned);
    }
  }

  // ------------------------------------------------ the latch

  lemma RequestsGo(procs: map<Pid, Proc>, pid: Pid, p: Proc)
    ensures Requests(procs[pid := p]) == if IsRequest(p) then Requests(procs) + {pid} else Requests(procs) - {pid}
  {
  }

  lemma RequestsStop(procs: map<Pid, Proc>, pid: Pid)
    ensures Requests(procs - {pid}) == Requests(procs) - {pid}
  {
  }

  /** The process a step moves, if it moves one that was there. */
  function Mover(l: Label): Option<Pid> {
    match l
    case Start => None
    case EnterAdmit(_) => None
    case EnterClient(_) => None
    case SweepTake(_, _, _) => None
    case ShutBegin => None
    case _ => Some(l.pid)
  }

  /** The steps of an admit once it is let in. */
  predicate OfAdmit(l: Label) {
    l.DoReserve? || l.PipelineHands? || l.PipelineRefuses? || l.DoMint? || l.AbandonUnminted? || l.DoRelease?
        || l.DoSettle?
  }

  /** The steps of giving up what was taken, and the taking of a shutdown. */
  predicate OfBatch(l: Label) {
    l.AbandonCall? || l.AbandonSpend? || l.AbandonDone? || l.ShutTake?
  }

  /** The step moved one process and left the others as they are; only a leave ends
      a request. */
  predicate MovedOne(s: Sys, s': Sys, l: Label) {
    && Mover(l).Some?
    && var pid := Mover(l).value;
    && pid in s.procs && s'.next == s.next && s'.started == s.started
    && s'.procs == (if pid in s'.procs then s.procs[pid := s'.procs[pid]] else s.procs - {pid})
    && (pid in s'.procs ==> IsRequest(s'.procs[pid]) == IsRequest(s.procs[pid]))
    && (pid !in s'.procs ==> IsRequest(s.procs[pid]) == l.DoLeave?)
    && (l.DoLeave? ==> pid !in s'.procs)
    && s'.latch == (if l.DoLeave? then Left(s.latch) else s.latch)
  }

  lemma MoverAdmit(c: Config, s: Sys, l: Label)
    requires Can(c, s, l) && OfAdmit(l)
    ensures MovedOne(s, Apply(c, s, l), l)
  {
  }

  lemma MoverOther(c: Config, s: Sys, l: Label)
    requires Can(c, s, l) && Mover(l).Some? && !OfAdmit(l) && !OfBatch(l)
    ensures MovedOne(s, Apply(c, s, l), l)
  {
  }

  lemma MoverBatch(c: Config, s: Sys, l: Label)
    requires Can(c, s, l) && OfBatch(l)
    ensures MovedOne(s, Apply(c, s, l), l)
  {
    if l.ShutTake? {
      MoverShut(c, s, l);
    } else {
      MoverAbandon(c, s, l);
    }
  }

  lemma MoverShut(c: Config, s: Sys, l: Label)
    requires Can(c, s, l) && l.ShutTake?
    ensures MovedOne(s, Apply(c, s, l), l)
  {
  }

  lemma MoverAbandon(c: Config, s: Sys, l: Label)
    requires Can(c, s, l) && OfBatch(l) && !l.ShutTake?
    ensures MovedOne(s, Apply(c, s, l), l)
  {
  }

  lemma MoverStep(c: Config, s: Sys, l: Label)
    requires Can(c, s, l) && Mover(l).Some?
    ensures MovedOne(s, Apply(c, s, l), l)
  {
    if OfAdmit(l) {
      MoverAdmit(c, s, l);
    } else if OfBatch(l) {
      MoverBatch(c, s, l);
    } else {
      MoverOther(c, s, l);
    }
  }

  lemma MoverCounts(c: Config, s: Sys, l: Label)
    requires Counted(s) && Can(c, s, l) && Mover(l).Some?
    ensures var s' := Apply(c, s, l);
            && (forall pid :: pid in s'.procs ==> pid < s'.next)
            && LatchInv(s'.latch) && s'.latch.n == |Requests(s'.procs)|
            && (!s'.started ==> Requests(s'.procs) == {})
  {
    MoverStep(c, s, l);
    RequestsMoved(s, Apply(c, s, l), l);
  }

  lemma RequestsMoved(s: Sys, s': Sys, l: Label)
    requires MovedOne(s, s', l)
    ensures var pid := Mover(l).value;
            Requests(s'.procs) == if l.DoLeave? then Requests(s.procs) - {pid} else Requests(s.procs)
    ensures l.DoLeave? ==> Mover(l).value in Requests(s.procs)
  {
    var pid := Mover(l).value;
    if pid in s'.procs {
      RequestsGo(s.procs, pid, s'.procs[pid]);
    } else {
      RequestsStop(s.procs, pid);
    }
    assert IsRequest(s.procs[pid]) <==> pid in Requests(s.procs);
  }

  /** Every other step but Start starts one process, a request when it enters. */
  lemma SpawnStep(c: Config, s: Sys, l: Label)
    requires Can(c, s, l) && Mover(l).None? && !l.Start?
    ensures var s' := Apply(c, s, l);
            && s'.next == s.next + 1 && s'.started == s.started
            && s.next in s'.procs && s'.procs == s.procs[s.next := s'.procs[s.next]]
            && (IsRequest(s'.procs[s.next]) <==> l.EnterAdmit? || l.EnterClient?)
            && s'.latch == (if l.ShutBegin? then Stopping(s.latch) else if l.SweepTake? then s.latch
                else Entered(s.latch))
            && (l.EnterAdmit? || l.EnterClient? ==> s.started && !s.latch.made)
  {
  }

  lemma CountedStep(c: Config, s: Sys, l: Label)
    requires Counted(s) && Can(c, s, l)
    ensures Counted(Apply(c, s, l))
  {
    EntriesBeforeStart(c, s, l);
    if Mover(l).Some? {
      MoverCounts(c, s, l);
    } else if !l.Start? {
      SpawnStep(c, s, l);
      assert s.next !in Requests(s.procs);
      RequestsGo(s.procs, s.next, Apply(c, s, l).procs[s.next]);
    }
  }

  /** Before the pipeline is bound no request is let in, so nothing is handed out. */
  lemma EntriesBeforeStart(c: Config, s: Sys, l: Label)
    requires Counted(s) && Can(c, s, l)
    ensures !Apply(c, s, l).started ==> Apply(c, s, l).t.entries == []
  {
    if !s.started && Mover(l).Some? {
      var pid := Mover(l).value;
      assert pid !in Requests(s.procs);
      assert !IsRequest(s.procs[pid]);
      assert l.AbandonCall? || l.AbandonSpend? || l.AbandonDone? || l.ShutTake?;
    }
  }

  // ------------------------------------------------ who closes what

  /** Nothing about the entries changed. */
  predicate SameEntries(s: Sys, s': Sys) {
    s'.t.minted == s.t.minted && s'.closer == s.closer && s'.writer == s.writer && s'.t.entries == s.t.entries
  }

  ghost predicate SameCloses(p: Proc, q: Proc) {
    forall e :: Closes(q, e) <==> Closes(p, e)
  }

  ghost predicate ClosesNone(p: Proc) {
    forall e :: !Closes(p, e)
  }

  /** A step that handed nothing over and left its process closing what it closed. */
  lemma OwnedMoved(s: Sys, s': Sys, pid: Pid)
    requires Owned(s) && SameEntries(s, s') && pid in s.procs && !s.procs[pid].AdmitWrite?
    requires pid in s'.procs && s'.procs == s.procs[pid := s'.procs[pid]]
    requires Knows(s.t, s'.procs[pid]) && SameCloses(s.procs[pid], s'.procs[pid])
    ensures Owned(s')
  {
    assert forall q :: q in s'.procs ==> Knows(s'.t, s'.procs[q]) by {
      assert forall q :: q in s.procs ==> Knows(s.t, s.procs[q]);
    }
  }

  lemma OwnedStopped(s: Sys, s': Sys, pid: Pid)
    requires Owned(s) && SameEntries(s, s') && pid in s.procs && !s.procs[pid].AdmitWrite?
    requires s'.procs == s.procs - {pid} && ClosesNone(s.procs[pid])
    ensures Owned(s')
  {
  }

  lemma OwnedSpawned(s: Sys, s': Sys, pid: Pid)
    requires Owned(s) && SameEntries(s, s') && pid !in s.procs
    requires pid in s'.procs && s'.procs == s.procs[pid := s'.procs[pid]]
    requires Knows(s.t, s'.procs[pid]) && ClosesNone(s'.procs[pid])
    ensures Owned(s')
  {
  }

  /** The steps that hand nothing over. */
  predicate Quiet(l: Label) {
    !l.DoMint? && !l.DoSettle? && !l.DoTake? && !l.DoSpend? && !l.AbandonSpend? && !l.SweepTake? && !l.ShutTake?
  }

  /** A process the step moved knows what it knew and closes what it closed. */
  ghost predicate MovedQuietly(s: Sys, s': Sys, pid: Pid)
    requires pid in s.procs
  {
    && !s.procs[pid].AdmitWrite?
    && (pid in s'.procs ==>
          && (Knows(s.t, s.procs[pid]) ==> Knows(s.t, s'.procs[pid]))
          && SameCloses(s.procs[pid], s'.procs[pid]))
    && (pid !in s'.procs ==> ClosesNone(s.procs[pid]))
  }

  lemma QuietAdmit(c: Config, s: Sys, l: Label)
    requires Can(c, s, l) && Quiet(l) && OfAdmit(l)
    ensures SameEntries(s, Apply(c, s, l)) && MovedQuietly(s, Apply(c, s, l), l.pid)
  {
  }

  lemma QuietOther(c: Config, s: Sys, l: Label)
    requires Can(c, s, l) && Quiet(l) && !OfAdmit(l) && Mover(l).Some?
    ensures SameEntries(s, Apply(c, s, l)) && MovedQuietly(s, Apply(c, s, l), l.pid)
  {
  }

  lemma QuietSpawn(c: Config, s: Sys, l: Label)
    requires Can(c, s, l) && Quiet(l) && Mover(l).None?
    ensures var s' := Apply(c, s, l);
            && SameEntries(s, s')
            && (!l.Start? ==> Knows(s.t, s'.procs[s.next]) && ClosesNone(s'.procs[s.next]))
  {
  }

  lemma QuietStep(c: Config, s: Sys, l: Label)
    requires Can(c, s, l) && Quiet(l)
    ensures var s' := Apply(c, s, l);
            && SameEntries(s, s')
            && (Mover(l).Some? ==> MovedQuietly(s, s', Mover(l).value))
            && (Mover(l).None? && !l.Start? ==> Knows(s.t, s'.procs[s.next]) && ClosesNone(s'.procs[s.next]))
  {
    if Mover(l).None? {
      QuietSpawn(c, s, l);
    } else if OfAdmit(l) {
      QuietAdmit(c, s, l);
    } else {
      QuietOther(c, s, l);
    }
  }

  lemma OwnedQuiet(c: Config, s: Sys, l: Label)
    requires Owned(s) && s.next !in s.procs && Can(c, s, l) && Quiet(l)
    ensures Owned(Apply(c, s, l))
  {
    var s' := Apply(c, s, l);
    QuietStep(c, s, l);
    if Mover(l).Some? {
      var pid := Mover(l).value;
      MoverStep(c, s, l);
      if pid in s'.procs {
        OwnedMoved(s, s', pid);
      } else {
        OwnedStopped(s, s', pid);
      }
    } else if !l.Start? {
      SpawnStep(c, s, l);
      OwnedSpawned(s, s', s.next);
    }
  }

  lemma KnowsKept(s: Sys, s': Sys, pid: Pid)
    requires AllKnow(s) && s.t.minted <= s'.t.minted
    requires forall q :: q in s'.procs && q != pid ==> q in s.procs && s'.procs[q] == s.procs[q]
    requires pid in s'.procs ==> Knows(s'.t, s'.procs[pid])
    ensures AllKnow(s')
  {
    forall q | q in s'.procs
      ensures Knows(s'.t, s'.procs[q])
    {
      if q != pid {
        assert Knows(s.t, s.procs[q]);
      }
    }
  }

  lemma OwnedMint(s: Sys, s': Sys, pid: Pid, id: string, e0: Entry)
    requires OneCloser(s) && MintersWrite(s) && pid in s.procs && ClosesNone(s.procs[pid]) && !s.procs[pid].AdmitWrite?
    requires e0.state == Minting && s'.closer == s.closer
    requires s'.t.entries == s.t.entries + [e0] && s'.t.minted == s.t.minted + [id] && s'.writer == s.writer + [pid]
    requires s'.procs == s.procs[pid := AdmitWrite(id, |s.t.entries|)]
    ensures OneCloser(s') && MintersWrite(s')
  {
    var n := |s.t.entries|;
    assert forall e :: 0 <= e < n ==>
             s'.t.entries[e] == s.t.entries[e] && s'.t.minted[e] == s.t.minted[e] && s'.writer[e] == s.writer[e];
    assert ClosesNone(s'.procs[pid]);
  }

  /** One entry handed to one process that closed nothing before. */
  lemma OwnedHanded(s: Sys, s': Sys, pid: Pid, e: Ref)
    requires OneCloser(s) && MintersWrite(s) && pid in s.procs && ClosesNone(s.procs[pid])
    requires e < |s.t.entries| && (s.t.entries[e].state == Minting || s.t.entries[e].state == Open)
    requires s.procs[pid].AdmitWrite? ==> s.procs[pid].e == e
    requires s'.t == SetState(s.t, e, Closing) && s'.closer == s.closer[e := pid] && s'.writer == s.writer
    requires pid in s'.procs && s'.procs == s.procs[pid := s'.procs[pid]]
    requires forall f :: Closes(s'.procs[pid], f) <==> f == e
    ensures OneCloser(s') && MintersWrite(s')
  {
    assert e !in s.closer;
  }

  /** A settle that opens the entry, or finds it taken. */
  lemma OwnedSettled(s: Sys, s': Sys, pid: Pid, e: Ref)
    requires OneCloser(s) && MintersWrite(s) && pid in s.procs && s.procs[pid].AdmitWrite? && s.procs[pid].e == e
    requires e < |s.t.entries|
    requires s'.t == (if s.t.entries[e].state == Minting then SetState(s.t, e, Open) else s.t)
    requires s'.closer == s.closer && s'.writer == s.writer && s'.procs == s.procs[pid := Leave]
    ensures OneCloser(s') && MintersWrite(s')
  {
    assert ClosesNone(s.procs[pid]) && ClosesNone(s'.procs[pid]);
  }

  /** An entry spent by the process that was handed it. */
  lemma OwnedSpent(s: Sys, s': Sys, pid: Pid, e: Ref, was: Entry)
    requires OneCloser(s) && MintersWrite(s) && pid in s.procs && Closes(s.procs[pid], e) && !s.procs[pid].AdmitWrite?
    requires e < |s.t.entries| && was.state == Spent
    requires s'.t.entries == s.t.entries[e := was] && s'.t.minted == s.t.minted
    requires s'.closer == s.closer - {e} && s'.writer == s.writer
    requires pid in s'.procs && s'.procs == s.procs[pid := s'.procs[pid]]
    requires forall f :: Closes(s'.procs[pid], f) <==> Closes(s.procs[pid], f) && f != e
    ensures OneCloser(s') && MintersWrite(s')
  {
    assert e in s.closer && s.closer[e] == pid;
  }

  /** A set of open entries handed to one process that closed nothing before. */
  lemma OwnedBatch(s: Sys, s': Sys, pid: Pid, refs: set<Ref>)
    requires OneCloser(s)
    requires pid in s.procs ==> ClosesNone(s.procs[pid])
    requires forall f :: f in refs ==> f < |s.t.entries| && s.t.entries[f].state == Open
    requires s'.t.entries == Close(s.t, refs).entries && s'.closer == Assign(s.closer, refs, pid)
    requires pid in s'.procs && s'.procs == s.procs[pid := s'.procs[pid]]
    requires forall f :: Closes(s'.procs[pid], f) <==> f in refs
    ensures OneCloser(s')
  {
    AssignClosing(s.t, s.closer, refs, pid);
    BatchHandedCloses(s, s', pid, refs);
    BatchClosesHanded(s, s', pid, refs);
  }

  lemma BatchHandedCloses(s: Sys, s': Sys, pid: Pid, refs: set<Ref>)
    requires HandedCloses(s)
    requires pid in s.procs ==> ClosesNone(s.procs[pid])
    requires s'.closer == Assign(s.closer, refs, pid)
    requires pid in s'.procs && s'.procs == s.procs[pid := s'.procs[pid]]
    requires forall f :: Closes(s'.procs[pid], f) <==> f in refs
    ensures HandedCloses(s')
  {
    forall e | e in s'.closer
      ensures s'.closer[e] in s'.procs && Closes(s'.procs[s'.closer[e]], e)
    {
      if e !in refs {
        assert e in s.closer && Closes(s.procs[s.closer[e]], e);
        assert s.closer[e] != pid;
      }
    }
  }

  lemma BatchClosesHanded(s: Sys, s': Sys, pid: Pid, refs: set<Ref>)
    requires ClosesHanded(s)
    requires forall f :: f in refs ==> f !in s.closer
    requires s'.closer == Assign(s.closer, refs, pid)
    requires pid in s'.procs && s'.procs == s.procs[pid := s'.procs[pid]]
    requires forall f :: Closes(s'.procs[pid], f) <==> f in refs
    ensures ClosesHanded(s')
  {
    forall q, e | q in s'.procs && Closes(s'.procs[q], e)
      ensures e in s'.closer && s'.closer[e] == q
    {
      if q != pid {
        assert Closes(s.procs[q], e);
        assert e in s.closer;
      }
    }
  }

  lemma AssignClosing(t: Table, closer: map<Ref, Pid>, refs: set<Ref>, pid: Pid)
    requires forall e :: e in closer <==> 0 <= e < |t.entries| && t.entries[e].state == Closing
    requires forall f :: f in refs ==> f < |t.entries| && t.entries[f].state == Open
    ensures var t', after := Close(t, refs), Assign(closer, refs, pid);
            && (forall e :: e in after <==> 0 <= e < |t'.entries| && t'.entries[e].state == Closing)
            && (forall e :: e in refs ==> e !in closer)
  {
  }

  lemma MintersBatch(s: Sys, s': Sys, pid: Pid, refs: set<Ref>)
    requires MintersWrite(s)
    requires pid in s.procs ==> !s.procs[pid].AdmitWrite?
    requires s'.t.entries == Close(s.t, refs).entries && s'.t.minted == s.t.minted && s'.writer == s.writer
    requires pid in s'.procs && s'.procs == s.procs[pid := s'.procs[pid]]
    ensures MintersWrite(s')
  {
    assert forall e :: 0 <= e < |s.t.entries| && s'.t.entries[e].state == Minting ==> s.t.entries[e].state == Minting;
  }

  lemma BatchCloses(request: bool, out: seq<Taken>)
    ensures forall f :: Closes(Abandon(request, out, false), f) <==> f in Refs(out)
  {
    assert forall i :: 0 <= i < |out| ==> out[i] in out;
  }

  /** What a scan of the table names is open, and it names each entry once. */
  lemma BatchKnown(s: Sys, out: seq<Taken>)
    requires WellFormed(s.t) && Names(s.t, out)
    requires forall i :: 0 <= i < |out| ==> s.t.entries[out[i].e].state == Open
    ensures Knows(s.t, Abandon(false, out, false))
    ensures forall f :: f in Refs(out) ==> f < |s.t.entries| && s.t.entries[f].state == Open
  {
    forall i, j | 0 <= i < j < |out|
      ensures out[i].e != out[j].e
    {
      assert s.t.minted[out[i].e] == out[i].id && s.t.minted[out[j].e] == out[j].id;
    }
  }

  lemma OwnedMintStep(c: Config, s: Sys, l: Label)
    requires Owned(s) && Can(c, s, l) && l.DoMint?
    ensures Owned(Apply(c, s, l))
  {
    var s', p := Apply(c, s, l), s.procs[l.pid];
    if s.t.shut {
      OwnedMoved(s, s', l.pid);
    } else {
      OwnedMint(s, s', l.pid, l.id, Entry(p.run, Some(p.x), l.expires, p.key, Minting, NoEnding));
      KnowsKept(s, s', l.pid);
    }
  }

  lemma OwnedSettleStep(c: Config, s: Sys, l: Label)
    requires Owned(s) && Can(c, s, l) && l.DoSettle?
    ensures Owned(Apply(c, s, l))
  {
    var s', p := Apply(c, s, l), s.procs[l.pid];
    assert Knows(s.t, p);
    if SettleTakes(s.t, p.e) {
      BatchCloses(true, [Taken(p.id, p.e)]);
      OwnedHanded(s, s', l.pid, p.e);
    } else {
      OwnedSettled(s, s', l.pid, p.e);
    }
    KnowsKept(s, s', l.pid);
  }

  lemma OwnedTakeStep(c: Config, s: Sys, l: Label)
    requires Owned(s) && Can(c, s, l) && l.DoTake?
    ensures Owned(Apply(c, s, l))
  {
    var s', p := Apply(c, s, l), s.procs[l.pid];
    if TakeCode(s.t, l.id, p.run, l.now) == Granted {
      OwnedTaking(s, s', l.pid, l.how, l.id, l.now);
    } else {
      OwnedMoved(s, s', l.pid);
    }
  }

  lemma OwnedTaking(s: Sys, s': Sys, pid: Pid, how: How, id: string, now: int)
    requires Owned(s) && WellFormed(s.t) && pid in s.procs && s.procs[pid].ClientRead?
    requires TakeCode(s.t, id, s.procs[pid].run, now) == Granted
    requires s'.t == Take(s.t, id, s.procs[pid].run, now) && s'.closer == s.closer[s.t.byID[id] := pid]
    requires s'.writer == s.writer && s'.procs == s.procs[pid := ClientClose(how, id, s.t.byID[id])]
    ensures Owned(s')
  {
    OwnedHanded(s, s', pid, s.t.byID[id]);
    KnowsKept(s, s', pid);
  }

  lemma OwnedSpendStep(c: Config, s: Sys, l: Label)
    requires Owned(s) && TableInv(s.t, c.maxSpent) && Can(c, s, l) && l.DoSpend?
    ensures Owned(Apply(c, s, l))
  {
    var p := s.procs[l.pid];
    assert Knows(s.t, p);
    OwnedSpending(c, s, Apply(c, s, l), l.pid, Taken(p.id, p.e), p.ending);
  }

  lemma OwnedSpending(c: Config, s: Sys, s': Sys, pid: Pid, x: Taken, ending: Ending)
    requires Owned(s) && pid in s.procs && Closes(s.procs[pid], x.e) && !s.procs[pid].AdmitWrite?
    requires x.e < |s.t.entries|
    requires pid in s'.procs && s' == Go(Spends(c, s, x.id, x.e, ending), pid, s'.procs[pid])
    requires Knows(s.t, s'.procs[pid])
    requires forall f :: Closes(s'.procs[pid], f) <==> Closes(s.procs[pid], f) && f != x.e
    ensures Owned(s')
  {
    SpendKeeps(s.t, c.maxSpent, x.id, x.e, ending);
    OwnedSpent(s, s', pid, x.e, s'.t.entries[x.e]);
    KnowsKept(s, s', pid);
  }

  lemma OwnedAbandonStep(c: Config, s: Sys, l: Label)
    requires Owned(s) && TableInv(s.t, c.maxSpent) && Can(c, s, l) && l.AbandonSpend?
    ensures Owned(Apply(c, s, l))
  {
    var p := s.procs[l.pid];
    assert Knows(s.t, p);
    RestCloses(s.t, p);
    OwnedSpending(c, s, Apply(c, s, l), l.pid, p.todo[0], Ending.Abandoned);
  }

  lemma RestCloses(t: Table, p: Proc)
    requires p.Abandon? && p.todo != [] && Knows(t, p)
    ensures var q := Abandon(p.request, p.todo[1..], false);
            Knows(t, q) && forall f :: Closes(q, f) <==> Closes(p, f) && f != p.todo[0].e
  {
    var q := Abandon(p.request, p.todo[1..], false);
    forall f
      ensures Closes(q, f) <==> Closes(p, f) && f != p.todo[0].e
    {
      if Closes(p, f) && f != p.todo[0].e {
        var i :| 0 <= i < |p.todo| && p.todo[i].e == f;
        assert q.todo[i - 1].e == f;
      }
    }
  }

  lemma OwnedSweepStep(c: Config, s: Sys, l: Label)
    requires Owned(s) && s.next !in s.procs && Can(c, s, l) && l.SweepTake?
    ensures Owned(Apply(c, s, l))
  {
    var s' := Apply(c, s, l);
    BatchKnown(s, l.out);
    BatchCloses(false, l.out);
    OwnedBatch(s, s', s.next, Refs(l.out));
    MintersBatch(s, s', s.next, Refs(l.out));
    KnowsKept(s, s', s.next);
  }

  lemma OwnedShutStep(c: Config, s: Sys, l: Label)
    requires Owned(s) && (!s.started ==> s.t.entries == []) && Can(c, s, l) && l.ShutTake?
    ensures Owned(Apply(c, s, l))
  {
    var s' := Apply(c, s, l);
    if s.started {
      BatchKnown(s, l.out);
      BatchCloses(false, l.out);
      OwnedBatch(s, s', l.pid, Refs(l.out));
      MintersBatch(s, s', l.pid, Refs(l.out));
      KnowsKept(s, s', l.pid);
    } else {
      assert s'.t.entries == [];
      OwnedStopped(s, s', l.pid);
    }
  }

  lemma OwnedStep(c: Config, s: Sys, l: Label)
    requires TableInv(s.t, c.maxSpent) && Owned(s) && Counted(s) && Can(c, s, l)
    ensures Owned(Apply(c, s, l))
  {
    assert s.next !in s.procs;
    if Quiet(l) {
      OwnedQuiet(c, s, l);
    } else if l.DoMint? || l.DoSettle? || l.DoTake? {
      OwnedEntryStep(c, s, l);
    } else {
      OwnedEndStep(c, s, l);
    }
  }

  lemma OwnedEntryStep(c: Config, s: Sys, l: Label)
    requires Owned(s) && Can(c, s, l) && (l.DoMint? || l.DoSettle? || l.DoTake?)
    ensures Owned(Apply(c, s, l))
  {
    if l.DoMint? {
      OwnedMintStep(c, s, l);
    } else if l.DoSettle? {
      OwnedSettleStep(c, s, l);
    } else {
      OwnedTakeStep(c, s, l);
    }
  }

  lemma OwnedEndStep(c: Config, s: Sys, l: Label)
    requires TableInv(s.t, c.maxSpent) && Owned(s) && s.next !in s.procs && (!s.started ==> s.t.entries == [])
    requires Can(c, s, l) && (l.DoSpend? || l.AbandonSpend? || l.SweepTake? || l.ShutTake?)
    ensures Owned(Apply(c, s, l))
  {
    if l.DoSpend? {
      OwnedSpendStep(c, s, l);
    } else if l.AbandonSpend? {
      OwnedAbandonStep(c, s, l);
    } else if l.SweepTake? {
      OwnedSweepStep(c, s, l);
    } else {
      OwnedShutStep(c, s, l);
    }
  }
}
