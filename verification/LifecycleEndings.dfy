/** How each execution is closed and which ending its handle keeps, over whole runs: by
    the call and with the answer of the client that took it, or given up by whoever
    else was left with it. */
module LifecycleEndings {
  import opened Options
  import opened Handles
  import opened HandleLemmas
  import opened Lifecycle
  import opened LifecycleSteps
  import opened LifecyclePlaces
  import opened LifecycleTheorems
  import opened LifecycleHandings

  // ------------------------------------------------ what a step leaves alone

  /** The step spends the entry e. */
  predicate SpendsEntry(s: Sys, l: Label, e: Ref) {
    || (l.DoSpend? && l.pid in s.procs && s.procs[l.pid].ClientSpend? && s.procs[l.pid].e == e)
    || (l.AbandonSpend? && l.pid in s.procs && s.procs[l.pid].Abandon? && s.procs[l.pid].todo != []
        && s.procs[l.pid].todo[0].e == e)
  }

  predicate SameEntry(s: Sys, s': Sys, e: Ref) {
    e < |s.t.entries| && e < |s'.t.entries| && s'.t.entries[e] == s.t.entries[e]
  }

  lemma BatchKeepsClosing(c: Config, s: Sys, l: Label, e: Ref)
    requires Can(c, s, l) && (l.SweepTake? || l.ShutTake?) && e < |s.t.entries| && s.t.entries[e].state == Closing
    ensures SameEntry(s, Apply(c, s, l), e)
  {
    BatchKnown(s, l.out);
  }

  lemma OneKeepsClosing(c: Config, s: Sys, l: Label, e: Ref)
    requires Can(c, s, l) && (l.DoMint? || l.DoSettle? || l.DoTake?)
    requires e < |s.t.entries| && s.t.entries[e].state == Closing
    ensures SameEntry(s, Apply(c, s, l), e)
  {
  }

  /** An entry being closed changes only when it is spent. */
  lemma ClosingStays(c: Config, s: Sys, l: Label, e: Ref)
    requires Can(c, s, l) && e < |s.t.entries| && s.t.entries[e].state == Closing && !SpendsEntry(s, l, e)
    ensures SameEntry(s, Apply(c, s, l), e)
  {
    if l.SweepTake? || l.ShutTake? {
      BatchKeepsClosing(c, s, l, e);
    } else if l.DoMint? || l.DoSettle? || l.DoTake? {
      OneKeepsClosing(c, s, l, e);
    } else if l.DoSpend? {
      SpentOnly(c, s, l, s.procs[l.pid].e);
    } else if l.AbandonSpend? {
      SpentOnly(c, s, l, s.procs[l.pid].todo[0].e);
    } else {
      EntriesKept(c, s, l);
    }
  }

  lemma ProcStays(c: Config, s: Sys, l: Label, pid: Pid)
    requires Can(c, s, l) && pid in s.procs && pid != s.next && Mover(l) != Some(pid)
    ensures pid in Apply(c, s, l).procs && Apply(c, s, l).procs[pid] == s.procs[pid]
  {
    if Mover(l).Some? {
      MoverStep(c, s, l);
    } else if !l.Start? {
      SpawnStep(c, s, l);
    }
  }

  /** Closing calls are only ever added, one at a time. */
  lemma ClosingsGrow(c: Config, s: Sys, l: Label)
    requires Can(c, s, l)
    ensures s.closings <= Apply(c, s, l).closings
  {
    if l.DoClose? || l.AbandonCall? || l.AbandonUnminted? {
      ClosingsAdd(c, s, l);
    } else {
      ClosingsKept(c, s, l);
    }
  }

  lemma ClosingsAdd(c: Config, s: Sys, l: Label)
    requires Can(c, s, l) && (l.DoClose? || l.AbandonCall? || l.AbandonUnminted?)
    ensures s.closings <= Apply(c, s, l).closings
  {
  }

  lemma ClosingsKept(c: Config, s: Sys, l: Label)
    requires Can(c, s, l) && !l.DoClose? && !l.AbandonCall? && !l.AbandonUnminted?
    ensures s.closings == Apply(c, s, l).closings
  {
  }

  // ------------------------------------------------ a client's own call

  /** The client took e, which holds x, and is about to make its call. */
  predicate Taking(s: Sys, pid: Pid, how: How, id: string, e: Ref, x: Exec) {
    && pid in s.procs && s.procs[pid] == ClientClose(how, id, e)
    && e < |s.t.entries| && s.t.entries[e].state == Closing && s.t.entries[e].d == Some(x)
  }

  /** The client's call was made, and e keeps or will keep the pipeline's answer. */
  predicate Reported(s: Sys, pid: Pid, how: How, id: string, e: Ref, x: Exec, ending: Ending) {
    && Closed(x, how) in s.closings
    && e < |s.t.entries|
    && if s.t.entries[e].state == Spent then s.t.entries[e].ending == ending
       else s.t.entries[e].state == Closing && pid in s.procs && s.procs[pid] == ClientSpend(id, e, ending)
  }

  lemma TakeLeads(c: Config, s: Sys, l: Label, x: Exec)
    requires Can(c, s, l) && l.DoTake? && TakeCode(s.t, l.id, s.procs[l.pid].run, l.now) == Granted
    requires s.t.entries[s.t.byID[l.id]].d == Some(x)
    ensures Taking(Apply(c, s, l), l.pid, l.how, l.id, s.t.byID[l.id], x)
  {
  }

  lemma TakingStep(c: Config, s: Sys, l: Label, pid: Pid, how: How, id: string, e: Ref, x: Exec)
    requires Inv(c, s) && Can(c, s, l) && Taking(s, pid, how, id, e, x)
    ensures if l.DoClose? && l.pid == pid then Reported(Apply(c, s, l), pid, how, id, e, x, l.ending)
            else Taking(Apply(c, s, l), pid, how, id, e, x)
  {
    if Mover(l) != Some(pid) {
      ProcStays(c, s, l, pid);
      NotSpent(c, s, l, pid, e);
      ClosingStays(c, s, l, e);
    }
  }

  /** Only the closer of an entry spends it. */
  lemma NotSpent(c: Config, s: Sys, l: Label, pid: Pid, e: Ref)
    requires Owned(s) && Can(c, s, l) && pid in s.procs && Closes(s.procs[pid], e) && Mover(l) != Some(pid)
    ensures !SpendsEntry(s, l, e)
  {
    ClosedByHolder(s, pid, e);
    if SpendsEntry(s, l, e) {
      if l.AbandonSpend? {
        HeadIsClosed(s, l.pid);
      } else {
        ClosedByHolder(s, l.pid, e);
      }
    }
  }

  lemma ReportedStep(c: Config, s: Sys, l: Label, pid: Pid, how: How, id: string, e: Ref, x: Exec, ending: Ending)
    requires Inv(c, s) && Can(c, s, l) && Reported(s, pid, how, id, e, x, ending)
    ensures Reported(Apply(c, s, l), pid, how, id, e, x, ending)
  {
    ClosingsGrow(c, s, l);
    if s.t.entries[e].state == Spent {
      ForwardStep(c, s, l);
      assert Later(s.t.entries[e], Apply(c, s, l).t.entries[e]);
    } else if Mover(l) != Some(pid) {
      ProcStays(c, s, l, pid);
      NotSpent(c, s, l, pid, e);
      ClosingStays(c, s, l, e);
    } else {
      SpendKeeps(s.t, c.maxSpent, id, e, ending);
    }
  }

  lemma {:induction false} ReportedRun(c: Config, s: Sys, ls: seq<Label>,
                                       pid: Pid, how: How, id: string, e: Ref, x: Exec, ending: Ending)
    requires Inv(c, s) && IsRun(c, s, ls) && Reported(s, pid, how, id, e, x, ending)
    ensures Reported(After(c, s, ls), pid, how, id, e, x, ending)
    decreases |ls|
  {
    if ls != [] {
      ReportedStep(c, s, ls[0], pid, how, id, e, x, ending);
      StepInv(c, s, ls[0]);
      ReportedRun(c, Apply(c, s, ls[0]), ls[1..], pid, how, id, e, x, ending);
    }
  }

  /** A process past its call never makes another: it spends, leaves and its number is not used
      again. */
  predicate Past(s: Sys, pid: Pid) {
    pid < s.next && (pid in s.procs ==> s.procs[pid].ClientSpend? || s.procs[pid].Leave?)
  }

  lemma PastStep(c: Config, s: Sys, l: Label, pid: Pid)
    requires Can(c, s, l) && Past(s, pid)
    ensures Past(Apply(c, s, l), pid)
  {
    if Mover(l).Some? {
      MoverStep(c, s, l);
    } else if !l.Start? {
      SpawnStep(c, s, l);
    }
  }

  lemma TakingOrPast(c: Config, s: Sys, l: Label, pid: Pid, how: How, id: string, e: Ref, x: Exec)
    requires Inv(c, s) && Can(c, s, l) && (Taking(s, pid, how, id, e, x) || Past(s, pid))
    ensures Taking(Apply(c, s, l), pid, how, id, e, x) || Past(Apply(c, s, l), pid)
  {
    if Past(s, pid) {
      PastStep(c, s, l, pid);
    } else {
      TakingStep(c, s, l, pid, how, id, e, x);
    }
  }

  /** Until its call a client that took an entry waits with it. */
  lemma {:induction false} TakingRun(c: Config, s: Sys, ls: seq<Label>, pid: Pid, how: How, id: string, e: Ref, x: Exec)
    requires Inv(c, s) && IsRun(c, s, ls) && (Taking(s, pid, how, id, e, x) || Past(s, pid))
    ensures Taking(After(c, s, ls), pid, how, id, e, x) || Past(After(c, s, ls), pid)
    decreases |ls|
  {
    if ls != [] {
      TakingOrPast(c, s, ls[0], pid, how, id, e, x);
      StepInv(c, s, ls[0]);
      TakingRun(c, Apply(c, s, ls[0]), ls[1..], pid, how, id, e, x);
    }
  }

  lemma CloseReports(c: Config, s: Sys, ls: seq<Label>, pid: Pid, how: How, id: string, e: Ref, x: Exec)
    requires Inv(c, s) && IsRun(c, s, ls) && (Taking(s, pid, how, id, e, x) || Past(s, pid))
    requires ls != [] && ls[0].DoClose? && ls[0].pid == pid
    ensures Reported(After(c, s, ls), pid, how, id, e, x, ls[0].ending)
  {
    TakingStep(c, s, ls[0], pid, how, id, e, x);
    StepInv(c, s, ls[0]);
    ReportedRun(c, Apply(c, s, ls[0]), ls[1..], pid, how, id, e, x, ls[0].ending);
  }

  lemma AskedFrom(c: Config, s: Sys, ls: seq<Label>, j: nat, pid: Pid, how: How, id: string, e: Ref, x: Exec)
    requires Inv(c, s) && IsRun(c, s, ls) && Taking(s, pid, how, id, e, x)
    requires j < |ls| && ls[j].DoClose? && ls[j].pid == pid
    ensures Reported(After(c, s, ls), pid, how, id, e, x, ls[j].ending)
  {
    SplitRun(c, s, ls, j);
    TakingRun(c, s, ls[..j], pid, how, id, e, x);
    RunInv(c, s, ls[..j]);
    CloseReports(c, After(c, s, ls[..j]), ls[j..], pid, how, id, e, x);
  }

  lemma {:induction false} SplitRun(c: Config, s: Sys, ls: seq<Label>, i: nat)
    requires IsRun(c, s, ls) && i <= |ls|
    ensures IsRun(c, s, ls[..i]) && IsRun(c, After(c, s, ls[..i]), ls[i..])
    ensures After(c, s, ls) == After(c, After(c, s, ls[..i]), ls[i..])
    decreases |ls|
  {
    if i == 0 {
      assert ls[..0] == [] && ls[0..] == ls;
    } else {
      SplitRun(c, Apply(c, s, ls[0]), ls[1..], i - 1);
      assert ls[..i][1..] == ls[1..][..i - 1] && ls[1..][i - 1..] == ls[i..];
    }
  }

  /** The take numbered i of the run was granted the entry e of the execution x. */
  ghost predicate TakesAt(c: Config, ls: seq<Label>, i: nat, e: Ref, x: Exec)
    requires IsRun(c, Init, ls) && i < |ls|
  {
    && ls[i].DoTake? && IsRun(c, Init, ls[..i])
    && var s := After(c, Init, ls[..i]);
    && Can(c, s, ls[i]) && Hands(c, s, ls[i], e) && e < |s.t.entries| && s.t.entries[e].d == Some(x)
  }

  /** In every run, a client whose take was granted and whose call the pipeline then answered closed
      the execution by the very call it came to make, no other call closed it, and its
      handle, once spent, keeps the very answer. */
  lemma ClosedAsAsked(c: Config, ls: seq<Label>, i: nat, j: nat, e: Ref, x: Exec)
    requires IsRun(c, Init, ls) && i < j < |ls| && TakesAt(c, ls, i, e, x)
    requires ls[j].DoClose? && ls[j].pid == ls[i].pid
    ensures var s := After(c, Init, ls);
            && Closed(x, ls[i].how) in s.closings
            && (forall how: How :: Closed(x, how) in s.closings ==> how == ls[i].how)
            && e < |s.t.entries|
            && (s.t.entries[e].state == Spent ==> s.t.entries[e].ending == ls[j].ending)
  {
    RunAt(c, Init, ls, i);
    LaterIn(ls, i, j);
    AskedIn(c, ls[..i], ls[i], ls[i + 1..], j - i - 1, e, x);
  }

  lemma AskedIn(c: Config, before: seq<Label>, l: Label, rest: seq<Label>, j: nat, e: Ref, x: Exec)
    requires IsRun(c, Init, before)
    requires var s := After(c, Init, before);
             && Can(c, s, l) && IsRun(c, Apply(c, s, l), rest)
             && l.DoTake? && Hands(c, s, l, e) && e < |s.t.entries| && s.t.entries[e].d == Some(x)
    requires j < |rest| && rest[j].DoClose? && rest[j].pid == l.pid
    ensures var s := After(c, Apply(c, After(c, Init, before), l), rest);
            && Closed(x, l.how) in s.closings
            && (forall how: How :: Closed(x, how) in s.closings ==> how == l.how)
            && e < |s.t.entries|
            && (s.t.entries[e].state == Spent ==> s.t.entries[e].ending == rest[j].ending)
  {
    var s := After(c, Init, before);
    Reachable(c, before);
    TakenFrom(c, s, l, rest, j, e, x);
    StepInv(c, s, l);
    RunInv(c, Apply(c, s, l), rest);
    OnlyHow(After(c, Apply(c, s, l), rest), x, l.how);
  }

  lemma LaterIn(ls: seq<Label>, i: nat, j: nat)
    requires i < j < |ls|
    ensures ls[i + 1..][j - i - 1] == ls[j]
  {
  }

  /** A run around its step i. */
  lemma RunAt(c: Config, s: Sys, ls: seq<Label>, i: nat)
    requires IsRun(c, s, ls) && i < |ls|
    ensures IsRun(c, s, ls[..i]) && Can(c, After(c, s, ls[..i]), ls[i])
    ensures var s1 := Apply(c, After(c, s, ls[..i]), ls[i]);
            IsRun(c, s1, ls[i + 1..]) && After(c, s, ls) == After(c, s1, ls[i + 1..])
  {
    SplitRun(c, s, ls, i);
    assert ls[i..][0] == ls[i] && ls[i..][1..] == ls[i + 1..];
  }

  lemma TakenFrom(c: Config, s: Sys, l: Label, rest: seq<Label>, j: nat, e: Ref, x: Exec)
    requires Inv(c, s) && Can(c, s, l) && IsRun(c, Apply(c, s, l), rest) && j < |rest|
    requires l.DoTake? && Hands(c, s, l, e) && e < |s.t.entries| && s.t.entries[e].d == Some(x)
    requires rest[j].DoClose? && rest[j].pid == l.pid
    ensures Reported(After(c, Apply(c, s, l), rest), l.pid, l.how, l.id, e, x, rest[j].ending)
  {
    TakeLeads(c, s, l, x);
    StepInv(c, s, l);
    AskedFrom(c, Apply(c, s, l), rest, j, l.pid, l.how, l.id, e, x);
  }

  lemma OnlyHow(s: Sys, x: Exec, how: How)
    requires ClosedOnce(s) && Closed(x, how) in s.closings
    ensures forall other: How :: Closed(x, other) in s.closings ==> other == how
  {
    forall other: How | Closed(x, other) in s.closings
      ensures other == how
    {
      OneHow(s, x, other, how);
    }
  }

  lemma {:induction false} TwoClosings(cs: seq<Closed>, x: Exec, i: nat, j: nat)
    requires i < j < |cs| && cs[i].x == x && cs[j].x == x
    ensures Closings(cs, x) >= 2
  {
    var n := |cs| - 1;
    if j < n {
      TwoClosings(cs[..n], x, i, j);
    } else {
      OneClosing(cs[..n], x, i);
    }
  }

  lemma {:induction false} OneClosing(cs: seq<Closed>, x: Exec, i: nat)
    requires i < |cs| && cs[i].x == x
    ensures Closings(cs, x) >= 1
  {
    if i < |cs| - 1 {
      OneClosing(cs[..|cs| - 1], x, i);
    }
  }

  /** One call closes an execution, so one kind of call. */
  lemma OneHow(s: Sys, x: Exec, how: How, other: How)
    requires ClosedOnce(s) && Closed(x, how) in s.closings && Closed(x, other) in s.closings
    ensures how == other
  {
    var i :| 0 <= i < |s.closings| && s.closings[i] == Closed(x, how);
    var j :| 0 <= j < |s.closings| && s.closings[j] == Closed(x, other);
    if i < j {
      TwoClosings(s.closings, x, i, j);
    } else if j < i {
      TwoClosings(s.closings, x, j, i);
    }
  }
}
