/** What every run of the enforcement adapter guarantees. */
module LifecycleTheorems {
  import opened Options
  import opened Handles
  import opened HandleLemmas
  import opened Flights
  import opened Lifecycle
  import opened LifecycleSteps
  import opened LifecyclePlaces
  import opened LifecycleSlots

  // ------------------------------------------------ every reachable state

  lemma InitInv(c: Config)
    ensures Inv(c, Init)
  {
    EmptyInv(c.maxSpent);
    assert Requests(Init.procs) == {};
    assert Holdings(Init) == map[];
    assert forall run :: HoldersOf(map[], run) == {};
  }

  lemma OrderedStep(c: Config, s: Sys, l: Label)
    requires Ordered(s) && Can(c, s, l)
    ensures Ordered(Apply(c, s, l))
  {
    if Mover(l).Some? {
      MoverStep(c, s, l);
    } else if !l.Start? {
      SpawnStep(c, s, l);
    }
    ShutOnlyByShutdown(c, s, l);
  }

  lemma ShutOnlyByShutdown(c: Config, s: Sys, l: Label)
    requires Can(c, s, l)
    ensures Apply(c, s, l).t.shut == (s.t.shut || l.ShutTake?)
    ensures Mover(l).Some? ==>
              var pid, s' := Mover(l).value, Apply(c, s, l);
              (pid in s'.procs ==> !s'.procs[pid].ShutWait?) && (l.ShutTake? ==> s.procs[pid].ShutWait?)
    ensures Mover(l).None? && !l.Start? ==> (Apply(c, s, l).procs[s.next].ShutWait? ==> l.ShutBegin?)
  {
    ShutWaits(c, s, l);
    if l.DoSpend? {
      SpendKeeps(s.t, c.maxSpent, s.procs[l.pid].id, s.procs[l.pid].e, s.procs[l.pid].ending);
    } else if l.AbandonSpend? {
      SpendKeeps(s.t, c.maxSpent, s.procs[l.pid].todo[0].id, s.procs[l.pid].todo[0].e, Ending.Abandoned);
    }
  }

  lemma ShutWaits(c: Config, s: Sys, l: Label)
    requires Can(c, s, l)
    ensures Mover(l).Some? ==>
              var pid, s' := Mover(l).value, Apply(c, s, l);
              (pid in s'.procs ==> !s'.procs[pid].ShutWait?) && (l.ShutTake? ==> s.procs[pid].ShutWait?)
    ensures Mover(l).None? && !l.Start? ==> (Apply(c, s, l).procs[s.next].ShutWait? ==> l.ShutBegin?)
  {
  }

  lemma StepInv(c: Config, s: Sys, l: Label)
    requires Inv(c, s) && Can(c, s, l)
    ensures Inv(c, Apply(c, s, l))
  {
    assert s.next !in s.procs;
    TableStep(c, s, l);
    CountedStep(c, s, l);
    OrderedStep(c, s, l);
    OwnedStep(c, s, l);
    PlacedStep(c, s, l);
    ConservedStep(c, s, l);
  }

  lemma {:induction false} RunInv(c: Config, s: Sys, ls: seq<Label>)
    requires Inv(c, s) && IsRun(c, s, ls)
    ensures Inv(c, After(c, s, ls))
    decreases |ls|
  {
    if ls != [] {
      StepInv(c, s, ls[0]);
      RunInv(c, Apply(c, s, ls[0]), ls[1..]);
    }
  }

  /** The invariant holds in every state of every run of the adapter. */
  lemma Reachable(c: Config, ls: seq<Label>)
    requires IsRun(c, Init, ls)
    ensures Inv(c, After(c, Init, ls))
  {
    InitInv(c);
    RunInv(c, Init, ls);
  }

  /** The admits of run in flight, and its entries not yet spent. */
  function AdmitsOf(s: Sys, run: string): set<Pid> {
    set pid | pid in s.procs && Reserved(s.procs[pid]) && s.procs[pid].run == run
  }

  function UnspentOf(s: Sys, run: string): set<Ref> {
    set e | 0 <= e < |s.t.entries| && s.t.entries[e].state != Spent && s.t.entries[e].run == run
  }

  /** Slots and keys in every run: a run's count is its admits in flight plus its
      unspent entries and never passes the bound, a run that holds nothing has no
      count, and two live holders of one run never share a request key. */
  lemma SlotsAndKeys(c: Config, ls: seq<Label>, run: string)
    requires IsRun(c, Init, ls)
    ensures var s := After(c, Init, ls);
            && Count(s.t.perRun, run) == |AdmitsOf(s, run)| + |UnspentOf(s, run)|
            && 0 <= Count(s.t.perRun, run) <= c.maxPerRun
            && (run in s.t.perRun <==> Count(s.t.perRun, run) > 0)
            && (forall h, g :: h in Holders(s) && g in Holders(s) && h != g && Holding(s, h) == Holding(s, g) ==>
                Holding(s, h).key == "")
            && (forall k: KeyRef :: k in s.t.keys <==> k.key != "" && exists h :: h in Holders(s) && Holding(s, h) == k)
  {
    Reachable(c, ls);
    var s := After(c, Init, ls);
    var held := Holdings(s);
    CountHolders(s, run);
    assert forall h :: h in Holders(s) ==> held[h] == Holding(s, h);
    forall k: KeyRef | k.key != "" && exists h :: h in Holders(s) && Holding(s, h) == k
      ensures k in s.t.keys
    {
      var h :| h in Holders(s) && Holding(s, h) == k;
      assert held[h] == k;
    }
    forall k | k in s.t.keys
      ensures k.key != "" && exists h :: h in Holders(s) && Holding(s, h) == k
    {
      var h :| h in held && held[h] == k;
      assert Holding(s, h) == k;
    }
  }

  /** A live holder of the run has the request key. */
  ghost predicate KeyInUse(s: Sys, run: string, key: string) {
    key != "" && exists h :: h in Holders(s) && Holding(s, h) == KeyRef(run, key)
  }

  /** What an admit about to reserve is answered, in every run and whatever it asks for: a duplicate
      exactly when a live holder of its run has its key, unavailable exactly when none
      does and the run's admits in flight and unspent entries are at the bound, and a
      slot otherwise. */
  lemma ReserveExactly(c: Config, ls: seq<Label>, pid: Pid, key: string)
    requires IsRun(c, Init, ls) && pid in After(c, Init, ls).procs && After(c, Init, ls).procs[pid].AdmitRead?
    ensures var s := After(c, Init, ls);
            var run := s.procs[pid].run;
            var full := |AdmitsOf(s, run)| + |UnspentOf(s, run)| >= c.maxPerRun;
            var code := ReserveCode(s.t, c.maxPerRun, run, key);
            && (code == DuplicateRequest <==> KeyInUse(s, run, key))
            && (code == Unavailable <==> !KeyInUse(s, run, key) && full)
            && (code == Granted <==> !KeyInUse(s, run, key) && !full)
  {
    SlotsAndKeys(c, ls, After(c, Init, ls).procs[pid].run);
  }

  /** The step it then takes: on to the pipeline with one slot more and the key held, or away with
      the table as it was. */
  lemma ReserveLeads(c: Config, ls: seq<Label>, pid: Pid, key: string)
    requires IsRun(c, Init, ls) && pid in After(c, Init, ls).procs && After(c, Init, ls).procs[pid].AdmitRead?
    ensures var s := After(c, Init, ls);
            var run := s.procs[pid].run;
            && Can(c, s, DoReserve(pid, key))
            && var s' := Apply(c, s, DoReserve(pid, key));
            if KeyInUse(s, run, key) || |AdmitsOf(s, run)| + |UnspentOf(s, run)| >= c.maxPerRun
            then s' == Go(s, pid, Leave)
            else
              && s'.procs == s.procs[pid := AdmitAsk(run, key)]
              && Count(s'.t.perRun, run) == Count(s.t.perRun, run) + 1
              && Holdings(s') == Holdings(s)[ByProc(pid) := KeyRef(run, key)]
              && (key != "" ==> KeyInUse(s', run, key))
  {
    var s := After(c, Init, ls);
    Reachable(c, ls);
    ReserveExactly(c, ls, pid, key);
    ReserveHoldings(c, s, DoReserve(pid, key));
    var s', run := Apply(c, s, DoReserve(pid, key)), s.procs[pid].run;
    if ReserveCode(s.t, c.maxPerRun, run, key) == Granted {
      assert ByProc(pid) in Holdings(s');
      assert Holding(s', ByProc(pid)) == KeyRef(run, key);
    }
  }

  lemma CountHolders(s: Sys, run: string)
    ensures |HoldersOf(Holdings(s), run)| == |AdmitsOf(s, run)| + |UnspentOf(s, run)|
  {
    var pids, refs := AdmitsOf(s, run), UnspentOf(s, run);
    var of := HoldersOf(Holdings(s), run);
    forall pid: Pid
      ensures ByProc(pid) in of <==> pid in pids
    {
      assert ByProc(pid) in of <==> ByProc(pid) in Holders(s) && Holding(s, ByProc(pid)).run == run;
    }
    forall e: Ref
      ensures ByEntry(e) in of <==> e in refs
    {
      assert ByEntry(e) in of <==> ByEntry(e) in Holders(s) && Holding(s, ByEntry(e)).run == run;
    }
    SplitHolders(of, pids, refs);
  }

  lemma SplitHolders(of: set<Holder>, pids: set<Pid>, refs: set<Ref>)
    requires forall pid :: ByProc(pid) in of <==> pid in pids
    requires forall e :: ByEntry(e) in of <==> e in refs
    ensures |of| == |pids| + |refs|
  {
    var byPid := set pid | pid in pids :: ByProc(pid);
    var byRef := set e | e in refs :: ByEntry(e);
    ProcsAsHolders(pids);
    EntriesAsHolders(refs);
    forall h
      ensures h in of <==> h in byPid + byRef
    {
      match h
      case ByProc(pid) =>
      case ByEntry(e) =>
    }
    assert of == byPid + byRef;
  }

  lemma {:induction false} ProcsAsHolders(pids: set<Pid>)
    ensures |set pid | pid in pids :: ByProc(pid)| == |pids|
  {
    if pids != {} {
      var p :| p in pids;
      ProcsAsHolders(pids - {p});
      assert (set pid | pid in pids :: ByProc(pid)) == (set pid | pid in pids - {p} :: ByProc(pid)) + {ByProc(p)};
    }
  }

  lemma {:induction false} EntriesAsHolders(refs: set<Ref>)
    ensures |set e | e in refs :: ByEntry(e)| == |refs|
  {
    if refs != {} {
      var r :| r in refs;
      EntriesAsHolders(refs - {r});
      assert (set e | e in refs :: ByEntry(e)) == (set e | e in refs - {r} :: ByEntry(e)) + {ByEntry(r)};
    }
  }

  // ------------------------------------------------ one way, one closer

  function Rank(state: State): nat {
    match state
    case Minting => 0
    case Open => 1
    case Closing => 2
    case Spent => 3
  }

  /** b is a later value of the entry a: its state moved forward if at all, and
      once spent nothing of it changes. */
  predicate Later(a: Entry, b: Entry) {
    && a.run == b.run && a.key == b.key && a.expires == b.expires
    && Rank(a.state) <= Rank(b.state)
    && (a.state == Spent ==> a == b)
  }

  predicate AllLater(a: seq<Entry>, b: seq<Entry>) {
    |a| <= |b| && forall e :: 0 <= e < |a| ==> Later(a[e], b[e])
  }

  lemma ForwardStep(c: Config, s: Sys, l: Label)
    requires TableInv(s.t, c.maxSpent) && Owned(s) && Can(c, s, l)
    ensures AllLater(s.t.entries, Apply(c, s, l).t.entries)
  {
    if l.DoSpend? {
      assert Knows(s.t, s.procs[l.pid]);
      ForwardSpend(c, s, l.pid, Taken(s.procs[l.pid].id, s.procs[l.pid].e), s.procs[l.pid].ending);
    } else if l.AbandonSpend? {
      HeadIsClosed(s, l.pid);
      ForwardSpend(c, s, l.pid, s.procs[l.pid].todo[0], Ending.Abandoned);
    } else if l.SweepTake? || l.ShutTake? {
      BatchKnown(s, l.out);
      ForwardClose(s.t, Refs(l.out));
    } else {
      ForwardSimple(c, s, l);
    }
  }

  lemma ForwardSpend(c: Config, s: Sys, pid: Pid, x: Taken, ending: Ending)
    requires TableInv(s.t, c.maxSpent) && OneCloser(s) && pid in s.procs && Closes(s.procs[pid], x.e)
    requires x.e < |s.t.minted| && s.t.minted[x.e] == x.id
    ensures AllLater(s.t.entries, Spend(s.t, c.maxSpent, x.id, x.e, ending).entries)
  {
    assert x.e in s.closer;
    SpendInv(s.t, c.maxSpent, x.id, x.e, ending);
  }

  lemma ForwardClose(t: Table, refs: set<Ref>)
    requires forall f :: f in refs ==> f < |t.entries| && t.entries[f].state == Open
    ensures AllLater(t.entries, Close(t, refs).entries)
  {
  }

  lemma ForwardSimple(c: Config, s: Sys, l: Label)
    requires Can(c, s, l) && !l.DoSpend? && !l.AbandonSpend? && !l.SweepTake? && !l.ShutTake?
    ensures AllLater(s.t.entries, Apply(c, s, l).t.entries)
  {
    if l.DoMint? || l.DoSettle? || l.DoTake? {
      ForwardEntry(c, s, l);
    } else {
      EntriesKept(c, s, l);
    }
  }

  lemma ForwardEntry(c: Config, s: Sys, l: Label)
    requires Can(c, s, l) && (l.DoMint? || l.DoSettle? || l.DoTake?)
    ensures AllLater(s.t.entries, Apply(c, s, l).t.entries)
  {
    if l.DoTake? {
      assert Apply(c, s, l).t.entries == Take(s.t, l.id, s.procs[l.pid].run, l.now).entries;
    } else if l.DoSettle? {
      assert Apply(c, s, l).t.entries == Settle(s.t, s.procs[l.pid].e).entries;
    }
  }

  /** The steps that touch no entry. */
  lemma EntriesKept(c: Config, s: Sys, l: Label)
    requires Can(c, s, l) && Quiet(l)
    ensures Apply(c, s, l).t.entries == s.t.entries
  {
    QuietStep(c, s, l);
  }

  /** Over any run an entry's state only moves forward, its ending never changes
      once it is spent, and once shutdown began no entry is ever open again. */
  lemma {:induction false} Forward(c: Config, s: Sys, ls: seq<Label>)
    requires Inv(c, s) && IsRun(c, s, ls)
    ensures var s' := After(c, s, ls);
            && AllLater(s.t.entries, s'.t.entries)
            && (s.t.shut ==> s'.t.shut && forall e :: 0 <= e < |s'.t.entries| ==> s'.t.entries[e].state != Open)
    decreases |ls|
  {
    if ls != [] {
      var s1 := Apply(c, s, ls[0]);
      StepInv(c, s, ls[0]);
      ForwardStep(c, s, ls[0]);
      ShutOnlyByShutdown(c, s, ls[0]);
      Forward(c, s1, ls[1..]);
      LaterTransitive(s.t.entries, s1.t.entries, After(c, s1, ls[1..]).t.entries);
    }
  }

  lemma LaterTransitive(a: seq<Entry>, b: seq<Entry>, d: seq<Entry>)
    requires AllLater(a, b) && AllLater(b, d)
    ensures AllLater(a, d)
  {
    forall e | 0 <= e < |a|
      ensures Later(a[e], d[e])
    {
      assert Later(a[e], b[e]) && Later(b[e], d[e]);
    }
  }

  /** In every run an entry is being closed exactly when one process was handed
      it, that process is the only one, and no execution is ever closed twice. */
  lemma OneCloserEach(c: Config, ls: seq<Label>)
    requires IsRun(c, Init, ls)
    ensures var s := After(c, Init, ls);
            && (forall e :: 0 <= e < |s.t.entries| ==>
                  (s.t.entries[e].state == Closing <==> exists pid :: pid in s.procs && Closes(s.procs[pid], e)))
            && (forall p, q, e :: p in s.procs && q in s.procs && Closes(s.procs[p], e) && Closes(s.procs[q], e) ==>
                p == q)
            && (forall x: Exec :: Closings(s.closings, x) <= 1)
  {
    Reachable(c, ls);
    ClosingHasCloser(After(c, Init, ls));
    ClosingsAtMostOne(After(c, Init, ls));
  }

  lemma ClosingHasCloser(s: Sys)
    requires OneCloser(s)
    ensures forall e :: 0 <= e < |s.t.entries| ==>
              (s.t.entries[e].state == Closing <==> exists pid :: pid in s.procs && Closes(s.procs[pid], e))
    ensures forall p, q, e :: p in s.procs && q in s.procs && Closes(s.procs[p], e) && Closes(s.procs[q], e) ==> p == q
  {
    forall e | 0 <= e < |s.t.entries|
      ensures s.t.entries[e].state == Closing <==> exists pid :: pid in s.procs && Closes(s.procs[pid], e)
    {
      if s.t.entries[e].state == Closing {
        assert e in s.closer && Closes(s.procs[s.closer[e]], e);
      }
    }
    forall p, q, e: Ref | p in s.procs && q in s.procs && Closes(s.procs[p], e) && Closes(s.procs[q], e)
      ensures p == q
    {
      assert s.closer[e] == p;
    }
  }

  lemma ClosingsAtMostOne(s: Sys)
    requires ClosedOnce(s)
    ensures forall x: Exec :: Closings(s.closings, x) <= 1
  {
    forall x: Exec
      ensures Closings(s.closings, x) <= 1
    {
      if x >= |s.home| {
        NoClosings(s.closings, x);
      }
    }
  }

  // ------------------------------------------------ draining

  /** A sweep or a shutdown that took nothing. */
  predicate Harmless(p: Proc) {
    p.ShutWait? || (p.Abandon? && !p.request && p.todo == [])
  }

  lemma NothingOpenToTake(t: Table, out: seq<Taken>)
    requires NoneOpenOnceShut(t) && WellFormed(t) && Names(t, out)
    requires forall i :: 0 <= i < |out| ==> t.entries[out[i].e].state == Open
    ensures t.shut ==> out == []
  {
    if out != [] {
      assert t.entries[out[0].e].state == Open;
    }
  }

  /** Once the table is shut, whoever starts takes nothing. */
  lemma HarmlessStep(c: Config, s: Sys, l: Label, earlier: set<Pid>)
    requires Inv(c, s) && s.t.shut && Can(c, s, l)
    requires forall pid :: pid in s.procs && pid !in earlier ==> Harmless(s.procs[pid])
    ensures var s' := Apply(c, s, l); forall pid :: pid in s'.procs && pid !in earlier ==> Harmless(s'.procs[pid])
  {
    if Mover(l).Some? {
      MoverStep(c, s, l);
      HarmlessMove(c, s, l);
    } else if !l.Start? {
      SpawnStep(c, s, l);
      HarmlessSpawn(c, s, l);
    }
  }

  lemma HarmlessMove(c: Config, s: Sys, l: Label)
    requires NoneOpenOnceShut(s.t) && s.t.shut && Can(c, s, l) && Mover(l).Some?
    ensures var pid, s' := Mover(l).value, Apply(c, s, l);
            Harmless(s.procs[pid]) && pid in s'.procs ==> Harmless(s'.procs[pid])
  {
    if l.ShutTake? {
      NothingOpenToTake(s.t, l.out);
    }
  }

  lemma HarmlessSpawn(c: Config, s: Sys, l: Label)
    requires NoneOpenOnceShut(s.t) && Ordered(s) && s.t.shut && Can(c, s, l) && Mover(l).None? && !l.Start?
    ensures Harmless(Apply(c, s, l).procs[s.next])
  {
    if l.SweepTake? {
      NothingOpenToTake(s.t, l.out);
    }
  }

  lemma {:induction false} LaterHarmless(c: Config, s: Sys, ls: seq<Label>, earlier: set<Pid>)
    requires Inv(c, s) && s.t.shut && IsRun(c, s, ls)
    requires forall pid :: pid in s.procs && pid !in earlier ==> Harmless(s.procs[pid])
    ensures var s' := After(c, s, ls); forall pid :: pid in s'.procs && pid !in earlier ==> Harmless(s'.procs[pid])
    decreases |ls|
  {
    if ls != [] {
      StepInv(c, s, ls[0]);
      HarmlessStep(c, s, ls[0], earlier);
      ShutOnlyByShutdown(c, s, ls[0]);
      LaterHarmless(c, Apply(c, s, ls[0]), ls[1..], earlier);
    }
  }

  /** Nothing is left: every execution had its one closing call, every entry is
      spent, and no slot and no key is held. */
  ghost predicate Drained(s: Sys) {
    && (forall x :: 0 <= x < |s.home| ==> Closings(s.closings, x) == 1)
    && (forall e :: 0 <= e < |s.t.entries| ==> s.t.entries[e].state == Spent)
    && s.t.keys == {} && s.t.perRun == map[]
  }

  lemma AllSpent(c: Config, s: Sys)
    requires TableInv(s.t, c.maxSpent) && OneCloser(s) && MintersWrite(s) && s.t.shut
    requires forall pid :: pid in s.procs ==> Harmless(s.procs[pid])
    ensures forall e :: 0 <= e < |s.t.entries| ==> s.t.entries[e].state == Spent
  {
    assert forall pid :: pid in s.procs ==> ClosesNone(s.procs[pid]);
    assert s.closer == map[];
  }

  lemma NothingReserved(c: Config, s: Sys)
    requires Conserved(c, s.t, Holdings(s))
    requires forall pid :: pid in s.procs ==> Harmless(s.procs[pid])
    requires forall e :: 0 <= e < |s.t.entries| ==> s.t.entries[e].state == Spent
    ensures s.t.keys == {} && s.t.perRun == map[]
  {
    assert Holders(s) == {};
    assert Holdings(s) == map[];
    forall run
      ensures run !in s.t.perRun
    {
      assert HoldersOf(Holdings(s), run) == {};
    }
  }

  lemma NothingHeld(c: Config, s: Sys)
    requires Inv(c, s) && s.t.shut
    requires forall pid :: pid in s.procs ==> Harmless(s.procs[pid])
    ensures Drained(s)
  {
    AllSpent(c, s);
    NothingReserved(c, s);
    AllGone(s);
  }

  lemma AllGone(s: Sys)
    requires Placed(s)
    requires forall pid :: pid in s.procs ==> Harmless(s.procs[pid])
    requires forall e :: 0 <= e < |s.t.entries| ==> s.t.entries[e].state == Spent
    ensures forall x :: 0 <= x < |s.home| ==> Closings(s.closings, x) == 1
  {
    forall x | 0 <= x < |s.home|
      ensures s.home[x].Gone?
    {
    }
  }

  /** Drain completeness. Take any run in which some Shutdown took the open
      executions by the end of `before`, whether its wait ended because nothing
      was in flight or because its context did. Once every request, sweep and
      shutdown then in progress has finished, everything handed out has been
      closed exactly once and nothing is held, whatever started since. */
  lemma DrainComplete(c: Config, before: seq<Label>, after: seq<Label>)
    requires IsRun(c, Init, before) && IsRun(c, After(c, Init, before), after)
    requires After(c, Init, before).t.shut
    requires var s, s' := After(c, Init, before), After(c, After(c, Init, before), after);
             forall pid :: pid in s.procs ==> pid !in s'.procs
    ensures Drained(After(c, After(c, Init, before), after))
  {
    Reachable(c, before);
    var s := After(c, Init, before);
    RunInv(c, s, after);
    LaterHarmless(c, s, after, s.procs.Keys);
    Forward(c, s, after);
    NothingHeld(c, After(c, s, after));
  }

  /** A Shutdown whose wait ended because the latch was idle finds no request in
      progress, and none enters after it. */
  lemma IdleMeansNoRequest(c: Config, ls: seq<Label>)
    requires IsRun(c, Init, ls)
    ensures var s := After(c, Init, ls);
            && s.latch.n == |Requests(s.procs)|
            && (s.latch.closed <==> s.latch.made && Requests(s.procs) == {})
            && (s.latch.made ==> forall run :: !Can(c, s, EnterAdmit(run)) && !Can(c, s, EnterClient(run)))
  {
    Reachable(c, ls);
  }

  /** Some step of the process, whichever answer the pipeline, the clock and the
      random source give, can be taken now. */
  ghost predicate CanMove(c: Config, s: Sys, pid: Pid) {
    exists l :: Mover(l) == Some(pid) && Can(c, s, l)
  }

  lemma Moves(c: Config, s: Sys, pid: Pid, l: Label)
    requires Mover(l) == Some(pid) && Can(c, s, l)
    ensures CanMove(c, s, pid)
  {
  }

  lemma AdmitMoves(c: Config, s: Sys, pid: Pid)
    requires WellFormed(s.t) && |s.t.entries| == |s.t.minted| && pid in s.procs && Knows(s.t, s.procs[pid])
    requires !s.procs[pid].ClientClose? && !s.procs[pid].ClientSpend? && !s.procs[pid].Abandon?
    ensures CanMove(c, s, pid)
  {
    match s.procs[pid]
    case AdmitRead(_) => Moves(c, s, pid, Malformed(pid));
    case AdmitAsk(_, _) => Moves(c, s, pid, PipelineHands(pid));
    case AdmitMint(_, _, _) =>
      var id := FreeHandle(s.t.byID.Keys);
      Moves(c, s, pid, DoMint(pid, 0, id));
    case AdmitUnminted(_, _, _) => Moves(c, s, pid, AbandonUnminted(pid));
    case AdmitRelease(_, _) => Moves(c, s, pid, DoRelease(pid));
    case AdmitWrite(_, _) => Moves(c, s, pid, DoSettle(pid));
    case ClientRead(_) => Moves(c, s, pid, Malformed(pid));
    case ShutWait =>
      var out := OpenList(s.t);
      Moves(c, s, pid, ShutTake(pid, false, out));
    case Leave => Moves(c, s, pid, DoLeave(pid));
  }

  lemma CloserMoves(c: Config, s: Sys, pid: Pid)
    requires WellFormed(s.t) && Owned(s) && EntriesPlaced(s) && pid in s.procs
    requires s.procs[pid].ClientClose? || s.procs[pid].ClientSpend? || s.procs[pid].Abandon?
    ensures CanMove(c, s, pid)
  {
    if s.procs[pid].Abandon? {
      AbandonMoves(c, s, pid);
    } else {
      ClientMoves(c, s, pid);
    }
  }

  lemma ClientMoves(c: Config, s: Sys, pid: Pid)
    requires WellFormed(s.t) && Owned(s) && EntriesPlaced(s) && pid in s.procs
    requires s.procs[pid].ClientClose? || s.procs[pid].ClientSpend?
    ensures CanMove(c, s, pid)
  {
    ClosedByHolder(s, pid, s.procs[pid].e);
    if s.procs[pid].ClientClose? {
      StillHeld(s, pid, s.procs[pid].e);
      Moves(c, s, pid, DoClose(pid, Recorded));
    } else {
      Moves(c, s, pid, DoSpend(pid));
    }
  }

  lemma AbandonMoves(c: Config, s: Sys, pid: Pid)
    requires WellFormed(s.t) && Owned(s) && EntriesPlaced(s) && pid in s.procs && s.procs[pid].Abandon?
    ensures CanMove(c, s, pid)
  {
    var p := s.procs[pid];
    if p.todo == [] {
      Moves(c, s, pid, AbandonDone(pid));
    } else if p.called {
      HeadIsClosed(s, pid);
      Moves(c, s, pid, AbandonSpend(pid));
    } else {
      AbandonCalls(c, s, pid);
    }
  }

  lemma AbandonCalls(c: Config, s: Sys, pid: Pid)
    requires WellFormed(s.t) && Owned(s) && EntriesPlaced(s) && pid in s.procs && s.procs[pid].Abandon?
    requires s.procs[pid].todo != [] && !s.procs[pid].called
    ensures CanMove(c, s, pid)
  {
    HeadIsClosed(s, pid);
    StillHeld(s, pid, s.procs[pid].todo[0].e);
    Moves(c, s, pid, AbandonCall(pid));
  }

  /** An entry whose closer has not called yet still holds its execution. */
  lemma StillHeld(s: Sys, pid: Pid, e: Ref)
    requires EntriesPlaced(s) && pid in s.procs && e < |s.t.entries| && s.t.entries[e].state == Closing
    requires e in s.closer && s.closer[e] == pid && !Called(s.procs[pid], e)
    ensures HasExec(s, e)
  {
    assert Unclosed(s, e);
  }

  /** No process is ever stuck: whatever the others did, the next call it makes is
      made on an entry that is there and still holds its execution. */
  lemma NeverStuck(c: Config, ls: seq<Label>, pid: Pid)
    requires IsRun(c, Init, ls) && pid in After(c, Init, ls).procs
    ensures CanMove(c, After(c, Init, ls), pid)
  {
    Reachable(c, ls);
    MovesOn(c, After(c, Init, ls), pid);
  }

  lemma MovesOn(c: Config, s: Sys, pid: Pid)
    requires Inv(c, s) && pid in s.procs
    ensures CanMove(c, s, pid)
  {
    if s.procs[pid].ClientClose? || s.procs[pid].ClientSpend? || s.procs[pid].Abandon? {
      CloserMoves(c, s, pid);
    } else {
      AdmitMoves(c, s, pid);
    }
  }

  function Marks(n: nat): string {
    seq(n, _ => 'a')
  }

  /** A finite table leaves a handle free. */
  lemma FreeHandle(ids: set<string>) returns (id: string)
    ensures id !in ids
  {
    var n := 0;
    var left := ids;
    while Marks(n) in ids
      invariant left == ids - (set i | 0 <= i < n :: Marks(i))
      decreases |left|
    {
      assert Marks(n) in left by {
        assert forall i :: 0 <= i < n ==> |Marks(i)| == i;
      }
      left := left - {Marks(n)};
      n := n + 1;
    }
    id := Marks(n);
  }

  /** The open handles among ids, in some order. */
  lemma {:induction false} OpenAmong(t: Table, ids: set<string>) returns (out: seq<Taken>)
    requires WellFormed(t) && ids <= t.byID.Keys
    ensures Names(t, out)
    ensures forall x :: x in out ==> x.id in ids && t.entries[x.e].state == Open
    ensures forall id :: id in ids && t.entries[t.byID[id]].state == Open ==> Taken(id, t.byID[id]) in out
    decreases ids
  {
    out := [];
    if ids != {} {
      var id :| id in ids;
      var rest := OpenAmong(t, ids - {id});
      out := rest;
      if t.entries[t.byID[id]].state == Open {
        out := rest + [Taken(id, t.byID[id])];
        OneMoreName(t, rest, id);
      }
    }
  }

  lemma OneMoreName(t: Table, out: seq<Taken>, id: string)
    requires Names(t, out) && id in t.byID && forall x :: x in out ==> x.id != id
    ensures Names(t, out + [Taken(id, t.byID[id])])
  {
    assert forall i :: 0 <= i < |out| ==> out[i] in out;
  }

  /** What a shutdown may take. */
  lemma OpenList(t: Table) returns (out: seq<Taken>)
    requires WellFormed(t)
    ensures ShutdownPick(t, out)
  {
    out := OpenAmong(t, t.byID.Keys);
    assert forall i :: 0 <= i < |out| ==> out[i] in out;
    forall id | id in t.byID && t.entries[t.byID[id]].state == Open
      ensures exists i :: 0 <= i < |out| && out[i].id == id
    {
      var i :| 0 <= i < |out| && out[i] == Taken(id, t.byID[id]);
      assert out[i].id == id;
    }
  }
}
