/** How often an entry is handed to somebody to close, counted over whole runs. */
module LifecycleHandings {
  import opened Options
  import opened Handles
  import opened HandleLemmas
  import opened Lifecycle
  import opened LifecycleSteps
  import opened LifecycleTheorems

  /** The step hands the entry e to a process to close. */
  ghost predicate Hands(c: Config, s: Sys, l: Label, e: Ref)
    requires Can(c, s, l)
  {
    match l
    case DoSettle(pid) => s.procs[pid].e == e && SettleTakes(s.t, e)
    case DoTake(pid, _, id, now) => TakeCode(s.t, id, s.procs[pid].run, now) == Granted && s.t.byID[id] == e
    case SweepTake(_, _, out) => e in Refs(out)
    case ShutTake(_, _, out) => e in Refs(out)
    case _ => false
  }

  /** The process it hands e to. */
  function HandedTo(s: Sys, l: Label): Pid {
    if Mover(l).Some? then Mover(l).value else s.next
  }

  ghost function Handings(c: Config, s: Sys, ls: seq<Label>, e: Ref): nat
    requires IsRun(c, s, ls)
    decreases |ls|
  {
    if ls == [] then 0
    else (if Hands(c, s, ls[0], e) then 1 else 0) + Handings(c, Apply(c, s, ls[0]), ls[1..], e)
  }

  /** e is being closed or spent. */
  predicate PastOpen(t: Table, e: Ref) {
    e < |t.entries| && Rank(t.entries[e].state) >= Rank(Closing)
  }

  lemma BatchHands(c: Config, s: Sys, l: Label, e: Ref)
    requires Can(c, s, l) && (l.SweepTake? || l.ShutTake?)
    ensures Hands(c, s, l, e) ==> e < |s.t.entries| && !PastOpen(s.t, e)
    ensures PastOpen(Apply(c, s, l).t, e) <==> PastOpen(s.t, e) || Hands(c, s, l, e)
  {
    BatchKnown(s, l.out);
  }

  lemma OneHands(c: Config, s: Sys, l: Label, e: Ref)
    requires Can(c, s, l) && (l.DoMint? || l.DoSettle? || l.DoTake?)
    ensures Hands(c, s, l, e) ==> e < |s.t.entries| && !PastOpen(s.t, e)
    ensures PastOpen(Apply(c, s, l).t, e) <==> PastOpen(s.t, e) || Hands(c, s, l, e)
  {
  }

  lemma SpendHandsNone(c: Config, s: Sys, l: Label, e: Ref)
    requires Owned(s) && Can(c, s, l) && (l.DoSpend? || l.AbandonSpend?)
    ensures PastOpen(Apply(c, s, l).t, e) <==> PastOpen(s.t, e)
  {
    if l.DoSpend? {
      ClosedByHolder(s, l.pid, s.procs[l.pid].e);
      SpentOnly(c, s, l, s.procs[l.pid].e);
    } else {
      HeadIsClosed(s, l.pid);
      SpentOnly(c, s, l, s.procs[l.pid].todo[0].e);
    }
  }

  /** A spend changes its own entry only, and leaves it spent. */
  lemma SpentOnly(c: Config, s: Sys, l: Label, x: Ref)
    requires Can(c, s, l) && (l.DoSpend? || l.AbandonSpend?) && x < |s.t.entries|
    requires x == if l.DoSpend? then s.procs[l.pid].e else s.procs[l.pid].todo[0].e
    ensures var es := Apply(c, s, l).t.entries;
            |es| == |s.t.entries| && es[x].state == Spent && forall e :: 0 <= e < |es| && e != x ==>
                es[e] == s.t.entries[e]
  {
    var p := s.procs[l.pid];
    var id, ending := if l.DoSpend? then p.id else p.todo[0].id, if l.DoSpend? then p.ending else Ending.Abandoned;
    SpendKeeps(s.t, c.maxSpent, id, x, ending);
  }

  /** A step hands over exactly an entry that was minting or open, which is being closed from
      then on. */
  lemma HandsExactly(c: Config, s: Sys, l: Label, e: Ref)
    requires Inv(c, s) && Can(c, s, l)
    ensures Hands(c, s, l, e) <==> !PastOpen(s.t, e) && PastOpen(Apply(c, s, l).t, e)
    ensures PastOpen(s.t, e) ==> PastOpen(Apply(c, s, l).t, e)
  {
    if l.SweepTake? || l.ShutTake? {
      BatchHands(c, s, l, e);
    } else if l.DoMint? || l.DoSettle? || l.DoTake? {
      OneHands(c, s, l, e);
    } else if l.DoSpend? || l.AbandonSpend? {
      SpendHandsNone(c, s, l, e);
    } else {
      EntriesKept(c, s, l);
    }
  }

  lemma BatchHandedTo(c: Config, s: Sys, l: Label, e: Ref)
    requires (!s.started ==> s.t.entries == []) && Can(c, s, l) && (l.SweepTake? || l.ShutTake?) && Hands(c, s, l, e)
    ensures var s' := Apply(c, s, l); HandedTo(s, l) in s'.procs && Closes(s'.procs[HandedTo(s, l)], e)
  {
    BatchKnown(s, l.out);
    BatchCloses(false, l.out);
  }

  lemma OneHandedTo(c: Config, s: Sys, l: Label, e: Ref)
    requires Can(c, s, l) && (l.DoSettle? || l.DoTake?) && Hands(c, s, l, e)
    ensures var s' := Apply(c, s, l); HandedTo(s, l) in s'.procs && Closes(s'.procs[HandedTo(s, l)], e)
  {
    if l.DoSettle? {
      BatchCloses(true, [Taken(s.procs[l.pid].id, e)]);
      assert [Taken(s.procs[l.pid].id, e)][0] in [Taken(s.procs[l.pid].id, e)];
    }
  }

  /** Whoever is handed an entry is its closer at once. */
  lemma HandedIsCloser(c: Config, s: Sys, l: Label, e: Ref)
    requires Inv(c, s) && Can(c, s, l) && Hands(c, s, l, e)
    ensures var s' := Apply(c, s, l); HandedTo(s, l) in s'.procs && Closes(s'.procs[HandedTo(s, l)], e)
  {
    if l.SweepTake? || l.ShutTake? {
      BatchHandedTo(c, s, l, e);
    } else {
      OneHandedTo(c, s, l, e);
    }
  }

  lemma {:induction false} HandingsFrom(c: Config, s: Sys, ls: seq<Label>, e: Ref)
    requires Inv(c, s) && IsRun(c, s, ls)
    ensures Handings(c, s, ls, e) == if !PastOpen(s.t, e) && PastOpen(After(c, s, ls).t, e) then 1 else 0
    ensures PastOpen(s.t, e) ==> PastOpen(After(c, s, ls).t, e)
    decreases |ls|
  {
    if ls != [] {
      HandsExactly(c, s, ls[0], e);
      StepInv(c, s, ls[0]);
      HandingsFrom(c, Apply(c, s, ls[0]), ls[1..], e);
    }
  }

  /** Over every run an entry is handed over at most once, and exactly once if it is being
      closed or spent at the end: no two callers, at whatever time, are told to close
      the same execution. */
  lemma HandedOnce(c: Config, ls: seq<Label>, e: Ref)
    requires IsRun(c, Init, ls)
    ensures Handings(c, Init, ls, e) == if PastOpen(After(c, Init, ls).t, e) then 1 else 0
  {
    InitInv(c);
    HandingsFrom(c, Init, ls, e);
  }
}
