/** Which call closes an execution is decided by who was left with it, exactly: a client
    that took it closes it its own way, and whoever else was left with it gives it up. */
module LifecycleFates {
  import opened Options
  import opened Handles
  import opened HandleLemmas
  import opened Lifecycle
  import opened LifecycleSteps
  import opened LifecyclePlaces
  import opened LifecycleTheorems
  import opened LifecycleHandings
  import opened LifecycleEndings

  /** What a process handed an entry by the step is to do with it. */
  function ToDo(l: Label): How {
    if l.DoTake? then l.how else GivenUp
  }

  /** The step hands over the entry e, which holds x. */
  ghost predicate HandsOver(c: Config, s: Sys, l: Label, e: Ref, x: Exec)
    requires Can(c, s, l)
  {
    Hands(c, s, l, e) && e < |s.t.entries| && s.t.entries[e].d == Some(x)
  }

  /** The step leaves somebody with the execution x to close it as how says: a take, a settle, a
      sweep or a shutdown hands over the entry that holds it, or a mint is refused. */
  ghost predicate LeftWith(c: Config, s: Sys, l: Label, x: Exec, how: How)
    requires Can(c, s, l)
  {
    || (l.DoMint? && s.t.shut && s.procs[l.pid].x == x && how == GivenUp)
    || (how == ToDo(l) && exists e: Ref :: HandsOver(c, s, l, e, x))
  }

  /** Some step of the run did. */
  ghost predicate LeftIn(c: Config, s: Sys, ls: seq<Label>, x: Exec, how: How)
    requires IsRun(c, s, ls)
    decreases |ls|
  {
    ls != [] && (LeftWith(c, s, ls[0], x, how) || LeftIn(c, Apply(c, s, ls[0]), ls[1..], x, how))
  }

  /** What the process will do, or did, with the entries it closes. */
  predicate WillDo(p: Proc, how: How) {
    if p.ClientClose? then p.how == how else p.Abandon? && how == GivenUp
  }

  /** The closer of the entry e that holds x has yet to make the call, and will as how says. */
  predicate CallDue(s: Sys, e: Ref, x: Exec, how: How) {
    && e in s.closer && s.closer[e] in s.procs
    && e < |s.t.entries| && s.t.entries[e].d == Some(x)
    && WillDo(s.procs[s.closer[e]], how) && !Called(s.procs[s.closer[e]], e)
  }

  predicate Unminted(s: Sys, pid: Pid, x: Exec) {
    pid in s.procs && s.procs[pid].AdmitUnminted? && s.procs[pid].x == x
  }

  /** x was or will be closed as how says. */
  ghost predicate Fated(s: Sys, x: Exec, how: How) {
    || Closed(x, how) in s.closings
    || (exists e :: CallDue(s, e, x, how))
    || (how == GivenUp && exists pid :: Unminted(s, pid, x))
  }

  // ------------------------------------------------ once left, fated

  lemma EntryFates(c: Config, s: Sys, l: Label, e: Ref, x: Exec)
    requires Inv(c, s) && Can(c, s, l) && Hands(c, s, l, e) && e < |s.t.entries| && s.t.entries[e].d == Some(x)
    ensures CallDue(Apply(c, s, l), e, x, ToDo(l))
  {
    var s' := Apply(c, s, l);
    StepInv(c, s, l);
    HandedIsCloser(c, s, l, e);
    ClosedByHolder(s', HandedTo(s, l), e);
    HandedKeeps(c, s, l, e);
    HandedDoes(c, s, l, e);
  }

  lemma HandedKeeps(c: Config, s: Sys, l: Label, e: Ref)
    requires Can(c, s, l) && Hands(c, s, l, e) && e < |s.t.entries|
    ensures e < |Apply(c, s, l).t.entries| && Apply(c, s, l).t.entries[e].d == s.t.entries[e].d
  {
  }

  lemma HandedDoes(c: Config, s: Sys, l: Label, e: Ref)
    requires (!s.started ==> s.t.entries == []) && Can(c, s, l) && Hands(c, s, l, e) && e < |s.t.entries|
    ensures var s' := Apply(c, s, l);
            && HandedTo(s, l) in s'.procs
            && WillDo(s'.procs[HandedTo(s, l)], ToDo(l)) && !Called(s'.procs[HandedTo(s, l)], e)
  {
  }

  lemma LeftFates(c: Config, s: Sys, l: Label, x: Exec, how: How)
    requires Inv(c, s) && Can(c, s, l) && LeftWith(c, s, l, x, how)
    ensures Fated(Apply(c, s, l), x, how)
  {
    if l.DoMint? {
      assert Unminted(Apply(c, s, l), l.pid, x);
    } else {
      var e: Ref :| HandsOver(c, s, l, e, x);
      EntryFates(c, s, l, e, x);
    }
  }

  // ------------------------------------------------ fated once, fated for good

  /** The closer's own step makes the call or leaves it due. */
  lemma DueOwnStep(c: Config, s: Sys, l: Label, e: Ref, x: Exec, how: How)
    requires Inv(c, s) && Can(c, s, l) && CallDue(s, e, x, how) && Mover(l) == Some(s.closer[e])
    ensures Fated(Apply(c, s, l), x, how)
  {
    var pid := s.closer[e];
    assert Closes(s.procs[pid], e);
    if l.DoClose? {
      MakesCall(c, s, l, e, x, how);
    } else if l.AbandonCall? && s.procs[pid].todo[0].e == e {
      MakesCall(c, s, l, e, x, how);
    } else {
      DueStays(c, s, l, e, x, how);
    }
  }

  lemma MakesCall(c: Config, s: Sys, l: Label, e: Ref, x: Exec, how: How)
    requires Can(c, s, l) && CallDue(s, e, x, how) && Mover(l) == Some(s.closer[e])
    requires Closes(s.procs[s.closer[e]], e)
    requires l.DoClose? || (l.AbandonCall? && s.procs[l.pid].todo[0].e == e)
    ensures Closed(x, how) in Apply(c, s, l).closings
  {
  }

  /** A closer that calls for another entry, or spends another, keeps e to call for. */
  lemma DueStays(c: Config, s: Sys, l: Label, e: Ref, x: Exec, how: How)
    requires Inv(c, s) && Can(c, s, l) && CallDue(s, e, x, how) && Mover(l) == Some(s.closer[e])
    requires Closes(s.procs[s.closer[e]], e) && !l.DoClose? && !(l.AbandonCall? && s.procs[l.pid].todo[0].e == e)
    ensures CallDue(Apply(c, s, l), e, x, how)
  {
    var pid, p, s' := s.closer[e], s.procs[s.closer[e]], Apply(c, s, l);
    assert Knows(s.t, p);
    ClosedByHolder(s, pid, e);
    assert p.Abandon? && p.todo != [];
    ClosingStays(c, s, l, e);
    StepInv(c, s, l);
    if l.AbandonSpend? {
      RestCloses(s.t, p);
    }
    assert Closes(s'.procs[pid], e);
    ClosedByHolder(s', pid, e);
    RestUncalled(s, s', l, e);
  }

  lemma RestUncalled(s: Sys, s': Sys, l: Label, e: Ref)
    requires Mover(l).Some? && Mover(l).value in s'.procs
    requires var q := s'.procs[Mover(l).value];
             q.Abandon? && (q.called ==> q.todo != [] && q.todo[0].e != e)
    ensures !Called(s'.procs[Mover(l).value], e) && WillDo(s'.procs[Mover(l).value], GivenUp)
  {
  }

  lemma DueOtherStep(c: Config, s: Sys, l: Label, e: Ref, x: Exec, how: How)
    requires Inv(c, s) && Can(c, s, l) && CallDue(s, e, x, how) && Mover(l) != Some(s.closer[e])
    ensures CallDue(Apply(c, s, l), e, x, how)
  {
    var pid, s' := s.closer[e], Apply(c, s, l);
    assert Closes(s.procs[pid], e);
    ProcStays(c, s, l, pid);
    NotSpent(c, s, l, pid, e);
    ClosingStays(c, s, l, e);
    StepInv(c, s, l);
    ClosedByHolder(s', pid, e);
  }

  lemma UnmintedStep(c: Config, s: Sys, l: Label, pid: Pid, x: Exec)
    requires Inv(c, s) && Can(c, s, l) && Unminted(s, pid, x)
    ensures Closed(x, GivenUp) in Apply(c, s, l).closings || Unminted(Apply(c, s, l), pid, x)
  {
    if Mover(l) != Some(pid) {
      ProcStays(c, s, l, pid);
    } else {
      assert IsCarrier(s.procs[pid]);
    }
  }

  lemma FatedStep(c: Config, s: Sys, l: Label, x: Exec, how: How)
    requires Inv(c, s) && Can(c, s, l) && Fated(s, x, how)
    ensures Fated(Apply(c, s, l), x, how)
  {
    if Closed(x, how) in s.closings {
      ClosingsGrow(c, s, l);
    } else if e :| CallDue(s, e, x, how) {
      if Mover(l) == Some(s.closer[e]) {
        DueOwnStep(c, s, l, e, x, how);
      } else {
        DueOtherStep(c, s, l, e, x, how);
      }
    } else {
      var pid :| Unminted(s, pid, x);
      UnmintedStep(c, s, l, pid, x);
    }
  }

  lemma {:induction false} FatedRun(c: Config, s: Sys, ls: seq<Label>, x: Exec, how: How)
    requires Inv(c, s) && IsRun(c, s, ls) && (Fated(s, x, how) || LeftIn(c, s, ls, x, how))
    ensures Fated(After(c, s, ls), x, how)
    decreases |ls|
  {
    if ls != [] {
      StepInv(c, s, ls[0]);
      if Fated(s, x, how) {
        FatedStep(c, s, ls[0], x, how);
      } else if LeftWith(c, s, ls[0], x, how) {
        LeftFates(c, s, ls[0], x, how);
      }
      FatedRun(c, Apply(c, s, ls[0]), ls[1..], x, how);
    }
  }

  // ------------------------------------------------ nobody was left with it yet

  predicate Minting(s: Sys, pid: Pid, x: Exec) {
    pid in s.procs && s.procs[pid].AdmitMint? && s.procs[pid].x == x
  }

  predicate Waiting(s: Sys, e: Ref, x: Exec) {
    e < |s.t.entries| && s.t.entries[e].d == Some(x) && !PastOpen(s.t, e)
  }

  /** x is with the admit it was handed to, or in an entry nobody was handed. */
  ghost predicate Unleft(s: Sys, x: Exec) {
    (exists pid :: Minting(s, pid, x)) || (exists e :: Waiting(s, e, x))
  }

  lemma MintingStep(c: Config, s: Sys, l: Label, pid: Pid, x: Exec)
    requires Inv(c, s) && Can(c, s, l) && Minting(s, pid, x)
    ensures LeftWith(c, s, l, x, GivenUp) || Unleft(Apply(c, s, l), x)
  {
    if Mover(l) != Some(pid) {
      ProcStays(c, s, l, pid);
      assert Minting(Apply(c, s, l), pid, x);
    } else {
      MintLeaves(c, s, l, x);
    }
  }

  lemma MintLeaves(c: Config, s: Sys, l: Label, x: Exec)
    requires Can(c, s, l) && l.DoMint? && s.procs[l.pid].x == x
    ensures LeftWith(c, s, l, x, GivenUp) || Waiting(Apply(c, s, l), |s.t.entries|, x)
  {
  }

  lemma WaitingStep(c: Config, s: Sys, l: Label, e: Ref, x: Exec)
    requires Inv(c, s) && Can(c, s, l) && Waiting(s, e, x)
    ensures LeftWith(c, s, l, x, ToDo(l)) || Waiting(Apply(c, s, l), e, x)
  {
    HandsExactly(c, s, l, e);
    if Hands(c, s, l, e) {
      assert HandsOver(c, s, l, e, x);
    } else {
      WaitingKeeps(c, s, l, e);
    }
  }

  lemma WaitingKeeps(c: Config, s: Sys, l: Label, e: Ref)
    requires Inv(c, s) && Can(c, s, l) && e < |s.t.entries| && !PastOpen(s.t, e)
    ensures var es := Apply(c, s, l).t.entries;
            e < |es| && (!PastOpen(Apply(c, s, l).t, e) ==> es[e].d == s.t.entries[e].d)
  {
    if l.DoSpend? {
      ClosedByHolder(s, l.pid, s.procs[l.pid].e);
      SpentOnly(c, s, l, s.procs[l.pid].e);
    } else if l.AbandonSpend? {
      HeadIsClosed(s, l.pid);
      SpentOnly(c, s, l, s.procs[l.pid].todo[0].e);
    } else if Quiet(l) {
      EntriesKept(c, s, l);
    } else {
      WaitingOther(c, s, l, e);
    }
  }

  lemma WaitingOther(c: Config, s: Sys, l: Label, e: Ref)
    requires Can(c, s, l) && e < |s.t.entries|
    requires l.DoMint? || l.DoSettle? || l.DoTake? || l.SweepTake? || l.ShutTake?
    ensures e < |Apply(c, s, l).t.entries| && Apply(c, s, l).t.entries[e].d == s.t.entries[e].d
  {
  }

  lemma UnleftStep(c: Config, s: Sys, l: Label, x: Exec)
    requires Inv(c, s) && Can(c, s, l) && Unleft(s, x)
    ensures (exists how :: LeftWith(c, s, l, x, how)) || Unleft(Apply(c, s, l), x)
  {
    if pid :| Minting(s, pid, x) {
      MintingStep(c, s, l, pid, x);
    } else {
      var e :| Waiting(s, e, x);
      WaitingStep(c, s, l, e, x);
    }
  }

  /** A new execution starts with the admit it is handed to. */
  lemma NewStep(c: Config, s: Sys, l: Label, x: Exec)
    requires Can(c, s, l) && |s.home| <= x < |Apply(c, s, l).home|
    ensures Unleft(Apply(c, s, l), x)
  {
    assert l.PipelineHands?;
    assert Minting(Apply(c, s, l), l.pid, x);
  }

  lemma {:induction false} LeftOrUnleft(c: Config, s: Sys, ls: seq<Label>, x: Exec)
    requires Inv(c, s) && IsRun(c, s, ls) && (x >= |s.home| || Unleft(s, x)) && x < |After(c, s, ls).home|
    ensures (exists how :: LeftIn(c, s, ls, x, how)) || Unleft(After(c, s, ls), x)
    decreases |ls|
  {
    if ls != [] {
      var s1 := Apply(c, s, ls[0]);
      StepInv(c, s, ls[0]);
      if x < |s.home| {
        UnleftStep(c, s, ls[0], x);
      } else if x < |s1.home| {
        NewStep(c, s, ls[0], x);
      }
      LeftNow(c, s, ls, x);
      LeftLater(c, s, ls, x);
      if x >= |s1.home| || Unleft(s1, x) {
        LeftOrUnleft(c, s1, ls[1..], x);
      }
    }
  }

  lemma LeftNow(c: Config, s: Sys, ls: seq<Label>, x: Exec)
    requires ls != [] && IsRun(c, s, ls)
    ensures (exists how :: LeftWith(c, s, ls[0], x, how)) ==> exists how :: LeftIn(c, s, ls, x, how)
  {
    if how :| LeftWith(c, s, ls[0], x, how) {
      assert LeftIn(c, s, ls, x, how);
    }
  }

  lemma LeftLater(c: Config, s: Sys, ls: seq<Label>, x: Exec)
    requires ls != [] && IsRun(c, s, ls)
    ensures (exists how :: LeftIn(c, Apply(c, s, ls[0]), ls[1..], x, how)) ==> exists how :: LeftIn(c, s, ls, x, how)
  {
    if how :| LeftIn(c, Apply(c, s, ls[0]), ls[1..], x, how) {
      assert LeftIn(c, s, ls, x, how);
    }
  }

  // ------------------------------------------------ the results

  lemma FatedGone(s: Sys, x: Exec, how: How)
    requires Owned(s) && Placed(s) && x < |s.home| && s.home[x].Gone? && Fated(s, x, how)
    ensures Closed(x, how) in s.closings
  {
    if e :| CallDue(s, e, x, how) {
      assert Unclosed(s, e);
    }
    if pid :| Unminted(s, pid, x) {
      assert IsCarrier(s.procs[pid]);
    }
  }

  lemma UnleftNotGone(s: Sys, x: Exec)
    requires Owned(s) && Placed(s) && Unleft(s, x)
    ensures x < |s.home| && !s.home[x].Gone?
  {
    if pid :| Minting(s, pid, x) {
      assert IsCarrier(s.procs[pid]);
    } else {
      var e :| Waiting(s, e, x);
      assert e !in s.closer && Unclosed(s, e);
    }
  }

  /** An execution whose closing call was made is gone. */
  lemma ClosedGone(s: Sys, x: Exec, how: How)
    requires ClosedOnce(s) && Closed(x, how) in s.closings
    ensures x < |s.home| && s.home[x].Gone?
  {
    var i :| 0 <= i < |s.closings| && s.closings[i] == Closed(x, how);
    OneClosing(s.closings, x, i);
  }

  /** In every run an execution was closed by a call of one kind if and only if it is closed and some
      step left somebody with it to make that call: the client's own complete or abort
      exactly after its take, and giving it up exactly after a settle, a sweep, a
      shutdown or a refused mint. */
  lemma HowExactly(c: Config, ls: seq<Label>, x: Exec, how: How)
    requires IsRun(c, Init, ls)
    ensures var s := After(c, Init, ls);
            Closed(x, how) in s.closings <==> x < |s.home| && s.home[x].Gone? && LeftIn(c, Init, ls, x, how)
  {
    Reachable(c, ls);
    InitInv(c);
    var s := After(c, Init, ls);
    if LeftIn(c, Init, ls, x, how) {
      FatedRun(c, Init, ls, x, how);
      if x < |s.home| && s.home[x].Gone? {
        FatedGone(s, x, how);
      }
    }
    if Closed(x, how) in s.closings {
      ClosedWasLeft(c, ls, x, how);
    }
  }

  lemma ClosedWasLeft(c: Config, ls: seq<Label>, x: Exec, how: How)
    requires IsRun(c, Init, ls) && Closed(x, how) in After(c, Init, ls).closings
    ensures var s := After(c, Init, ls); x < |s.home| && s.home[x].Gone? && LeftIn(c, Init, ls, x, how)
  {
    Reachable(c, ls);
    InitInv(c);
    var s := After(c, Init, ls);
    ClosedGone(s, x, how);
    LeftOrUnleft(c, Init, ls, x);
    if Unleft(s, x) {
      UnleftNotGone(s, x);
    } else {
      var other :| LeftIn(c, Init, ls, x, other);
      FatedRun(c, Init, ls, x, other);
      FatedGone(s, x, other);
      OneHow(s, x, how, other);
    }
  }

  // ------------------------------------------------ the ending a handle keeps

  /** Some step of the run handed e over, a take or another. */
  ghost predicate HandedIn(c: Config, s: Sys, ls: seq<Label>, e: Ref, client: bool)
    requires IsRun(c, s, ls)
    decreases |ls|
  {
    && ls != []
    && ((Hands(c, s, ls[0], e) && ls[0].DoTake? == client) || HandedIn(c, Apply(c, s, ls[0]), ls[1..], e, client))
  }

  /** The pipeline answered a client with it. */
  predicate Answer(ending: Ending) {
    ending != NoEnding && ending != Ending.Abandoned
  }

  predicate EndsWell(p: Proc, client: bool) {
    if client then p.ClientClose? || (p.ClientSpend? && Answer(p.ending)) else p.Abandon?
  }

  /** e keeps, or its closer will give it, an answer of the pipeline's or Abandoned. */
  predicate EndsBy(s: Sys, e: Ref, client: bool) {
    && e < |s.t.entries|
    && if s.t.entries[e].state == Spent
       then s.t.entries[e].d == None
            && (if client then Answer(s.t.entries[e].ending) else s.t.entries[e].ending == Ending.Abandoned)
       else e in s.closer && s.closer[e] in s.procs && EndsWell(s.procs[s.closer[e]], client)
  }

  lemma HandedEnds(c: Config, s: Sys, l: Label, e: Ref)
    requires Inv(c, s) && Can(c, s, l) && Hands(c, s, l, e)
    ensures EndsBy(Apply(c, s, l), e, l.DoTake?)
  {
    var s' := Apply(c, s, l);
    StepInv(c, s, l);
    HandsExactly(c, s, l, e);
    HandedIsCloser(c, s, l, e);
    ClosedByHolder(s', HandedTo(s, l), e);
    assert e in s'.closer;
    HandsListed(c, s, l, e);
    HandedDoes(c, s, l, e);
  }

  lemma HandsListed(c: Config, s: Sys, l: Label, e: Ref)
    requires Can(c, s, l) && Hands(c, s, l, e)
    ensures e < |s.t.entries|
  {
    if l.SweepTake? || l.ShutTake? {
      BatchHands(c, s, l, e);
    } else {
      OneHands(c, s, l, e);
    }
  }

  lemma EndsOwnSpend(c: Config, s: Sys, l: Label, e: Ref, client: bool)
    requires Inv(c, s) && Can(c, s, l) && EndsBy(s, e, client) && s.t.entries[e].state != Spent && SpendsEntry(s, l, e)
    requires Mover(l) == Some(s.closer[e])
    ensures EndsBy(Apply(c, s, l), e, client)
  {
    var p := s.procs[l.pid];
    if l.DoSpend? {
      SpendKeeps(s.t, c.maxSpent, p.id, e, p.ending);
    } else {
      SpendKeeps(s.t, c.maxSpent, p.todo[0].id, e, Ending.Abandoned);
    }
  }

  lemma EndsOwnStep(c: Config, s: Sys, l: Label, e: Ref, client: bool)
    requires Inv(c, s) && Can(c, s, l) && EndsBy(s, e, client) && s.t.entries[e].state != Spent && !SpendsEntry(s, l, e)
    requires Mover(l) == Some(s.closer[e])
    ensures EndsBy(Apply(c, s, l), e, client)
  {
    var pid, p, s' := s.closer[e], s.procs[s.closer[e]], Apply(c, s, l);
    assert Closes(p, e);
    assert Knows(s.t, p);
    ClosedByHolder(s, pid, e);
    ClosingStays(c, s, l, e);
    StepInv(c, s, l);
    if l.AbandonSpend? {
      RestCloses(s.t, p);
    }
    assert pid in s'.procs && Closes(s'.procs[pid], e);
    ClosedByHolder(s', pid, e);
    assert e in s'.closer;
  }

  lemma EndsStep(c: Config, s: Sys, l: Label, e: Ref, client: bool)
    requires Inv(c, s) && Can(c, s, l) && EndsBy(s, e, client)
    ensures EndsBy(Apply(c, s, l), e, client)
  {
    if s.t.entries[e].state == Spent {
      ForwardStep(c, s, l);
      assert Later(s.t.entries[e], Apply(c, s, l).t.entries[e]);
    } else if Mover(l) != Some(s.closer[e]) {
      EndsOtherStep(c, s, l, e, client);
    } else if SpendsEntry(s, l, e) {
      EndsOwnSpend(c, s, l, e, client);
    } else {
      EndsOwnStep(c, s, l, e, client);
    }
  }

  lemma EndsOtherStep(c: Config, s: Sys, l: Label, e: Ref, client: bool)
    requires Inv(c, s) && Can(c, s, l) && EndsBy(s, e, client) && s.t.entries[e].state != Spent
    requires Mover(l) != Some(s.closer[e])
    ensures EndsBy(Apply(c, s, l), e, client)
  {
    var pid, s' := s.closer[e], Apply(c, s, l);
    assert Closes(s.procs[pid], e);
    ClosedByHolder(s, pid, e);
    ProcStays(c, s, l, pid);
    NotSpent(c, s, l, pid, e);
    ClosingStays(c, s, l, e);
    StepInv(c, s, l);
    ClosedByHolder(s', pid, e);
    assert e in s'.closer;
  }

  lemma {:induction false} EndsRun(c: Config, s: Sys, ls: seq<Label>, e: Ref, client: bool)
    requires Inv(c, s) && IsRun(c, s, ls) && (EndsBy(s, e, client) || HandedIn(c, s, ls, e, client))
    ensures EndsBy(After(c, s, ls), e, client)
    decreases |ls|
  {
    if ls != [] {
      StepInv(c, s, ls[0]);
      if EndsBy(s, e, client) {
        EndsStep(c, s, ls[0], e, client);
      } else if Hands(c, s, ls[0], e) && ls[0].DoTake? == client {
        HandedEnds(c, s, ls[0], e);
      }
      EndsRun(c, Apply(c, s, ls[0]), ls[1..], e, client);
    }
  }

  lemma {:induction false} HandedEither(c: Config, s: Sys, ls: seq<Label>, e: Ref)
    requires IsRun(c, s, ls) && Handings(c, s, ls, e) > 0
    ensures HandedIn(c, s, ls, e, true) || HandedIn(c, s, ls, e, false)
    decreases |ls|
  {
    if !Hands(c, s, ls[0], e) {
      HandedEither(c, Apply(c, s, ls[0]), ls[1..], e);
    }
  }

  /** In every run a spent handle keeps Abandoned if and only if a settle, a sweep or a shutdown was
      left with it, and an answer of the pipeline's if and only if a client took it. It
      holds no execution any more. */
  lemma EndingExactly(c: Config, ls: seq<Label>, e: Ref)
    requires IsRun(c, Init, ls) && e < |After(c, Init, ls).t.entries|
    requires After(c, Init, ls).t.entries[e].state == Spent
    ensures var ending := After(c, Init, ls).t.entries[e].ending;
            && (ending == Ending.Abandoned <==> HandedIn(c, Init, ls, e, false))
            && (Answer(ending) <==> HandedIn(c, Init, ls, e, true))
            && ending != NoEnding && After(c, Init, ls).t.entries[e].d == None
  {
    InitInv(c);
    HandedOnce(c, ls, e);
    HandedEither(c, Init, ls, e);
    if HandedIn(c, Init, ls, e, true) {
      EndsRun(c, Init, ls, e, true);
    }
    if HandedIn(c, Init, ls, e, false) {
      EndsRun(c, Init, ls, e, false);
    }
  }
}
