/** The answers a client gets in a run of the adapter, against the full history. */
module LifecycleHistory {
  import opened Options
  import opened Handles
  import opened HandleLemmas
  import opened HandleHistory
  import opened SpentLog
  import opened Lifecycle
  import opened LifecycleSteps
  import opened LifecycleTheorems

  ghost predicate FreshStep(s: Sys, l: Label) {
    l.DoMint? ==> l.id !in s.t.minted
  }

  /** Every mint of the run draws a handle never drawn before. */
  ghost predicate FreshRun(c: Config, s: Sys, ls: seq<Label>)
    requires IsRun(c, s, ls)
    decreases |ls|
  {
    ls == [] || (FreshStep(s, ls[0]) && FreshRun(c, Apply(c, s, ls[0]), ls[1..]))
  }

  predicate IsSpend(l: Label) {
    l.DoSpend? || l.AbandonSpend?
  }

  /** The entry a step spends. */
  ghost function SpentBy(c: Config, s: Sys, l: Label): Ref
    requires Can(c, s, l) && IsSpend(l)
    ensures SpentBy(c, s, l) < |s.t.entries|
  {
    if l.DoSpend? then s.procs[l.pid].e else s.procs[l.pid].todo[0].e
  }

  /** What a step adds to the log of spends and sweeps. */
  ghost function Noted(c: Config, s: Sys, l: Label): seq<Event>
    requires Can(c, s, l)
  {
    if IsSpend(l) then [SpentAt(Handle(SpentBy(c, s, l), s.t.entries[SpentBy(c, s, l)].expires))]
    else if l.SweepTake? then [SweptAt(l.now)]
    else []
  }

  /** log with the spends and the sweeps of a run after it, in order. */
  ghost function LogFrom(c: Config, s: Sys, ls: seq<Label>, log: seq<Event>): seq<Event>
    requires IsRun(c, s, ls)
    decreases |ls|
  {
    if ls == [] then log else LogFrom(c, Apply(c, s, ls[0]), ls[1..], log + Noted(c, s, ls[0]))
  }

  /** The spends and the sweeps of a run of the adapter. */
  ghost function LogOf(c: Config, ls: seq<Label>): seq<Event>
    requires IsRun(c, Init, ls)
  {
    LogFrom(c, Init, ls, [])
  }

  lemma SpendNotes(c: Config, s: Sys, l: Label, h: Hist)
    requires Owned(s) && Can(c, s, l) && IsSpend(l) && h.t == s.t && HistInv(c.maxSpent, h)
    ensures HistInv(c.maxSpent, Hist(Apply(c, s, l).t, h.log + Noted(c, s, l)))
  {
    if l.DoSpend? {
      assert Knows(s.t, s.procs[l.pid]);
      ClosedByHolder(s, l.pid, s.procs[l.pid].e);
      HistSpend(c.maxSpent, h, s.procs[l.pid].e, s.procs[l.pid].ending);
    } else {
      HeadIsClosed(s, l.pid);
      HistSpend(c.maxSpent, h, s.procs[l.pid].todo[0].e, Ending.Abandoned);
    }
  }

  /** The steps that neither mint, spend nor sweep leave the history as it is. */
  lemma SameHistoryStep(c: Config, s: Sys, l: Label)
    requires Can(c, s, l) && !l.DoMint? && !IsSpend(l) && !l.SweepTake?
    ensures SameHistory(s.t, Apply(c, s, l).t)
  {
    if l.ShutTake? {
      OpenRefs(s.t, l.out);
      CloseSame(s.t, Refs(l.out));
    } else if l.DoSettle? || l.DoTake? {
      SameByEntry(c, s, l);
    }
  }

  lemma SameByEntry(c: Config, s: Sys, l: Label)
    requires Can(c, s, l) && (l.DoSettle? || l.DoTake?)
    ensures SameHistory(s.t, Apply(c, s, l).t)
  {
  }

  lemma OtherNotes(c: Config, s: Sys, l: Label, h: Hist)
    requires Owned(s) && Can(c, s, l) && FreshStep(s, l) && !IsSpend(l) && h.t == s.t && HistInv(c.maxSpent, h)
    ensures HistInv(c.maxSpent, Hist(Apply(c, s, l).t, h.log + Noted(c, s, l)))
  {
    assert h.log + [] == h.log;
    if l.SweepTake? {
      HistSweep(c.maxSpent, h, l.now, l.limit, l.out);
    } else if l.DoMint? {
      var p := s.procs[l.pid];
      if !s.t.shut {
        HistMint(c.maxSpent, h, Entry(p.run, Some(p.x), l.expires, p.key, Minting, NoEnding), l.id);
      }
    } else {
      TableStep(c, s, l);
      SameHistoryStep(c, s, l);
      HistKept(c.maxSpent, h, Apply(c, s, l).t);
    }
  }

  lemma NotedKeeps(c: Config, s: Sys, l: Label, h: Hist)
    requires Owned(s) && Can(c, s, l) && FreshStep(s, l) && h.t == s.t && HistInv(c.maxSpent, h)
    ensures HistInv(c.maxSpent, Hist(Apply(c, s, l).t, h.log + Noted(c, s, l)))
  {
    if IsSpend(l) {
      SpendNotes(c, s, l, h);
    } else {
      OtherNotes(c, s, l, h);
    }
  }

  /** The history follows the table over every run. */
  lemma {:induction false} HistoryFollows(c: Config, s: Sys, ls: seq<Label>, h: Hist)
    requires Inv(c, s) && IsRun(c, s, ls) && FreshRun(c, s, ls) && h.t == s.t && HistInv(c.maxSpent, h)
    ensures HistInv(c.maxSpent, Hist(After(c, s, ls).t, LogFrom(c, s, ls, h.log)))
    decreases |ls|
  {
    if ls != [] {
      NotedKeeps(c, s, ls[0], h);
      StepInv(c, s, ls[0]);
      HistoryFollows(c, Apply(c, s, ls[0]), ls[1..], Hist(Apply(c, s, ls[0]).t, h.log + Noted(c, s, ls[0])));
    }
  }

  lemma HistoryHolds(c: Config, ls: seq<Label>)
    requires IsRun(c, Init, ls) && FreshRun(c, Init, ls)
    ensures HistInv(c.maxSpent, Hist(After(c, Init, ls).t, LogOf(c, ls)))
  {
    InitInv(c);
    EmptyHistInv(c.maxSpent);
    HistoryFollows(c, Init, ls, EmptyHist);
  }

  // ---------------------------------------------------------------- the run's own labels

  /** The step numbered i of the run spends e, which expires then. */
  ghost predicate SpendsAt(c: Config, ls: seq<Label>, i: nat, h: Handle)
    requires i < |ls|
  {
    && IsRun(c, Init, ls[..i])
    && var s := After(c, Init, ls[..i]);
    && Can(c, s, ls[i]) && IsSpend(ls[i]) && SpentBy(c, s, ls[i]) == h.e && s.t.entries[h.e].expires == h.expires
  }

  /** A sweep the run made after it spent e read at or past e's expiry. */
  ghost predicate PurgedBy(c: Config, ls: seq<Label>, e: Ref) {
    exists i, k, x :: 0 <= i < k < |ls| && SpendsAt(c, ls, i, Handle(e, x)) && ls[k].SweepTake? && x <= ls[k].now
  }

  lemma {:induction false} LastStep(c: Config, s: Sys, ls: seq<Label>, log: seq<Event>)
    requires ls != [] && IsRun(c, s, ls)
    ensures var was, l := ls[..|ls| - 1], ls[|ls| - 1];
            && IsRun(c, s, was) && Can(c, After(c, s, was), l)
            && LogFrom(c, s, ls, log) == LogFrom(c, s, was, log) + Noted(c, After(c, s, was), l)
    decreases |ls|
  {
    if |ls| == 1 {
      assert ls[..0] == [];
      FirstOfMany(c, s, ls, ls[0], [], log);
    } else {
      var rest := ls[1..];
      assert rest[|rest| - 1] == ls[|ls| - 1];
      LastStep(c, Apply(c, s, ls[0]), rest, log + Noted(c, s, ls[0]));
      FirstOfMany(c, s, ls[..|ls| - 1], ls[0], rest[..|rest| - 1], log);
    }
  }

  lemma FirstOfMany(c: Config, s: Sys, ls: seq<Label>, l: Label, rest: seq<Label>, log: seq<Event>)
    requires ls == [l] + rest && Can(c, s, l) && IsRun(c, Apply(c, s, l), rest)
    ensures IsRun(c, s, ls) && After(c, s, ls) == After(c, Apply(c, s, l), rest)
    ensures LogFrom(c, s, ls, log) == LogFrom(c, Apply(c, s, l), rest, log + Noted(c, s, l))
  {
    assert ls[1..] == rest;
  }

  lemma PrefixSpends(c: Config, ls: seq<Label>, i: nat, h: Handle)
    requires i < |ls| - 1
    ensures SpendsAt(c, ls[..|ls| - 1], i, h) <==> SpendsAt(c, ls, i, h)
  {
    assert ls[..|ls| - 1][..i] == ls[..i];
  }

  lemma NotedSpend(c: Config, ls: seq<Label>, h: Handle)
    requires ls != [] && IsRun(c, Init, ls[..|ls| - 1])
    requires Can(c, After(c, Init, ls[..|ls| - 1]), ls[|ls| - 1])
    ensures SpendsAt(c, ls, |ls| - 1, h) <==> SpentAt(h) in Noted(c, After(c, Init, ls[..|ls| - 1]), ls[|ls| - 1])
  {
  }

  /** The log has a spend exactly where the run makes one. */
  lemma {:induction false} LoggedByStep(c: Config, ls: seq<Label>, h: Handle)
    requires IsRun(c, Init, ls)
    ensures SpentAt(h) in LogOf(c, ls) <==> exists i :: 0 <= i < |ls| && SpendsAt(c, ls, i, h)
    decreases |ls|
  {
    if ls != [] {
      var n := |ls| - 1;
      LastStep(c, Init, ls, []);
      LoggedByStep(c, ls[..n], h);
      NotedSpend(c, ls, h);
      forall i | 0 <= i < n
        ensures SpendsAt(c, ls[..n], i, h) <==> SpendsAt(c, ls, i, h)
      {
        PrefixSpends(c, ls, i, h);
      }
    }
  }

  /** What the log says of sweeps, said of the steps of the run. */
  lemma {:induction false} PurgedByStep(c: Config, ls: seq<Label>, e: Ref)
    requires IsRun(c, Init, ls)
    ensures Purged(LogOf(c, ls), e) <==> PurgedBy(c, ls, e)
    decreases |ls|
  {
    if ls != [] {
      var n := |ls| - 1;
      LastStep(c, Init, ls, []);
      PurgedByStep(c, ls[..n], e);
      PurgedByLast(c, ls, e);
      var log, noted := LogOf(c, ls[..n]), Noted(c, After(c, Init, ls[..n]), ls[n]);
      if noted == [] {
        assert log + noted == log;
      } else {
        assert noted == [noted[0]];
        PurgedNext(log, noted[0], e);
        if ls[n].SweepTake? {
          SweptHandles(c, ls[..n], e, ls[n].now);
        }
      }
    }
  }

  /** The steps before a sweep spent e expired by then exactly when the log says so. */
  lemma SweptHandles(c: Config, ls: seq<Label>, e: Ref, now: int)
    requires IsRun(c, Init, ls)
    ensures var log := LogOf(c, ls);
            (exists i :: 0 <= i < |log| && SpendOf(log[i], e) && Sweeps(SweptAt(now), log[i].h.expires)) <==>
            (exists i, x :: 0 <= i < |ls| && SpendsAt(c, ls, i, Handle(e, x)) && x <= now)
  {
    var log := LogOf(c, ls);
    if i :| 0 <= i < |log| && SpendOf(log[i], e) && Sweeps(SweptAt(now), log[i].h.expires) {
      LoggedByStep(c, ls, log[i].h);
      assert log[i] == SpentAt(Handle(e, log[i].h.expires));
    }
    if i, x :| 0 <= i < |ls| && SpendsAt(c, ls, i, Handle(e, x)) && x <= now {
      LoggedByStep(c, ls, Handle(e, x));
      var k :| 0 <= k < |log| && log[k] == SpentAt(Handle(e, x));
      assert SpendOf(log[k], e) && Sweeps(SweptAt(now), log[k].h.expires);
    }
  }

  lemma PurgedByLast(c: Config, ls: seq<Label>, e: Ref)
    requires ls != []
    ensures var n := |ls| - 1;
            PurgedBy(c, ls, e) <==>
              || PurgedBy(c, ls[..n], e)
              || (ls[n].SweepTake? &&
                  exists i, x :: 0 <= i < n && SpendsAt(c, ls[..n], i, Handle(e, x)) && x <= ls[n].now)
  {
    var n := |ls| - 1;
    PurgedLater(c, ls, e);
    if i, x :| 0 <= i < n && SpendsAt(c, ls[..n], i, Handle(e, x)) && ls[n].SweepTake? && x <= ls[n].now {
      PrefixSpends(c, ls, i, Handle(e, x));
    }
    if PurgedBy(c, ls, e) {
      var i, k, x :| 0 <= i < k < |ls| && SpendsAt(c, ls, i, Handle(e, x)) && ls[k].SweepTake? && x <= ls[k].now;
      PrefixSpends(c, ls, i, Handle(e, x));
      assert k < n ==> ls[..n][k] == ls[k];
    }
  }

  lemma PurgedLater(c: Config, ls: seq<Label>, e: Ref)
    requires ls != []
    ensures PurgedBy(c, ls[..|ls| - 1], e) ==> PurgedBy(c, ls, e)
  {
    var was := ls[..|ls| - 1];
    if i, k, x :| 0 <= i < k < |was| && SpendsAt(c, was, i, Handle(e, x)) && was[k].SweepTake? && x <= was[k].now {
      PrefixSpends(c, ls, i, Handle(e, x));
      assert ls[k] == was[k];
    }
  }

  // ---------------------------------------------------------------- the answers of every run

  /** In every run with fresh handles the table forgets exactly the spent entries that a later
      sweep of the run found expired or that maxSpent unpurged later spends crowded out;
      after fewer than maxSpent later spends, exactly those a later sweep found expired. */
  lemma RunForgets(c: Config, ls: seq<Label>, e: Ref)
    requires IsRun(c, Init, ls) && FreshRun(c, Init, ls)
    ensures var t, log := After(c, Init, ls).t, LogOf(c, ls);
            e < |t.entries| ==>
              && |t.minted| == |t.entries|
              && (SpentIn(log, e) <==> t.entries[e].state == Spent)
              && (t.minted[e] !in t.byID <==> SpentIn(log, e) && (Purged(log, e) || Crowded(c.maxSpent, log, e)))
              && (SpentIn(log, e) && SpendsAfter(log, e) < c.maxSpent ==>
                    (t.minted[e] !in t.byID <==> PurgedBy(c, ls, e)))
  {
    HistoryHolds(c, ls);
    PurgedByStep(c, ls, e);
    var h := Hist(After(c, Init, ls).t, LogOf(c, ls));
    if e < |h.t.entries| {
      ForgottenExactly(c.maxSpent, h, e);
      if h.t.entries[e].state == Spent {
        ForgottenByOne(c.maxSpent, h, e);
      }
    }
  }

  /** In every run with fresh handles a take is answered as a table that forgot nothing would
      answer it if and only if the run's spends and sweeps do not say that the handle, of
      the caller's run and within its lifetime, was forgotten. */
  lemma RunAnswers(c: Config, ls: seq<Label>, id: string, run: string, now: int)
    requires IsRun(c, Init, ls) && FreshRun(c, Init, ls)
    ensures var t, log := After(c, Init, ls).t, LogOf(c, ls);
            && WellFormed(t)
            && (Agrees(t, id, run, now) <==> !Forgotten(c.maxSpent, t, log, id, run, now))
            && (!Agrees(t, id, run, now) ==>
                  TakeCode(t, id, run, now) == HandleUnknown && HistoryCode(t, id, run, now) == HandleSpent)
  {
    HistoryHolds(c, ls);
    AnswersAsHistory(c.maxSpent, Hist(After(c, Init, ls).t, LogOf(c, ls)), id, run, now);
  }
}
