/** Calls against StopAdmitting and Drain, in every interleaving: a drain that counts
    none leaves no admitted execution without its record, then or later. */
module CallRuns {
  import opened Options
  import opened Calls
  import opened Flights

  /** Where a call is. A call turned away reached the latch after it was shut. */
  datatype Phase =
    | Entered
    | Holding(d: Disposition)
    | Sending(d: Disposition, bytes: Bytes)
    | Closing(d: Disposition, bytes: Bytes)
    | Over(d: Disposition, session: bool, cancelled: bool)
    | Gone(d: Disposition, session: bool, cancelled: bool)
    | Turned

  datatype Call = Call(at: Phase, log: seq<Event>)

  datatype Sys = Sys(latch: Latch, calls: map<nat, Call>)

  datatype Label =
    | Enter(p: nat)
    | Admit(p: nat, d: Disposition)
    | Check(p: nat, session: bool, cancelled: bool)
    | Send(p: nat)
    | Close(p: nat)
    | Leave(p: nat)
    | Shut

  const Idle := Sys(NewLatch, map[])

  predicate Can(s: Sys, l: Label) {
    match l
    case Enter(p) => p !in s.calls
    case Admit(p, _) => p in s.calls && s.calls[p].at == Entered
    case Check(p, _, _) => p in s.calls && s.calls[p].at.Holding?
    case Send(p) => p in s.calls && s.calls[p].at.Sending?
    case Close(p) => p in s.calls && s.calls[p].at.Closing?
    case Leave(p) => p in s.calls && s.calls[p].at.Over?
    case Shut => true
  }

  /** What the step makes of the call taking it. */
  function Moved(o: Oracle, shut: bool, c: Call, l: Label): Call
    requires l.Shut? || l.Enter? || Can(Sys(NewLatch, map[l.p := c]), l)
  {
    match l
    case Enter(_) => Call(if shut then Turned else Entered, [])
    case Admit(_, d) => Call(if Executes(d) then Holding(d) else Over(d, true, false), c.log + [Admitted(d)])
    case Check(_, session, cancelled) =>
      var d := c.at.d;
      var refusal := Refusal(o, d, session, cancelled);
      if refusal.Some? then Call(Over(d, session, cancelled), c.log + [Aborted(refusal.value)])
      else Call(Sending(d, o.translate(d.args).value), c.log)
    case Send(_) => Call(Closing(c.at.d, c.at.bytes), c.log + [Sent(c.at.bytes)])
    case Close(_) => Call(Over(c.at.d, true, false), c.log + [Closed(c.at.bytes)])
    case Leave(_) => Call(Gone(c.at.d, c.at.session, c.at.cancelled), c.log)
    case Shut => c
  }

  function Apply(o: Oracle, s: Sys, l: Label): Sys
    requires Can(s, l)
  {
    if l == Shut then s.(latch := Stopping(s.latch))
    else
      var was := if l.p in s.calls then s.calls[l.p] else Call(Entered, []);
      Sys(if l.Enter? then Flights.Entered(s.latch) else if l.Leave? then Left(s.latch) else s.latch,
          s.calls[l.p := Moved(o, s.latch.made, was, l)])
  }

  predicate IsRun(o: Oracle, s: Sys, ls: seq<Label>)
    decreases |ls|
  {
    ls == [] || (Can(s, ls[0]) && IsRun(o, Apply(o, s, ls[0]), ls[1..]))
  }

  function After(o: Oracle, s: Sys, ls: seq<Label>): Sys
    requires IsRun(o, s, ls)
    decreases |ls|
  {
    if ls == [] then s else After(o, Apply(o, s, ls[0]), ls[1..])
  }

  // ---------------------------------------------------------------- what every step keeps

  predicate IsInside(c: Call) {
    !c.at.Gone? && !c.at.Turned?
  }

  function Inside(calls: map<nat, Call>): set<nat> {
    set p | p in calls && IsInside(calls[p])
  }

  /** The log holds exactly what the call has done so far. */
  ghost predicate Logged(o: Oracle, c: Call) {
    match c.at
    case Entered => c.log == []
    case Holding(d) => Executes(d) && c.log == [Admitted(d)]
    case Sending(d, b) => Executes(d) && c.log == [Admitted(d)] && Cleared(o, d, true, false, b)
    case Closing(d, b) => Executes(d) && c.log == [Admitted(d), Sent(b)] && Cleared(o, d, true, false, b)
    case Over(d, session, cancelled) => c.log == Trace(o, d, session, cancelled)
    case Gone(d, session, cancelled) => c.log == Trace(o, d, session, cancelled)
    case Turned => c.log == []
  }

  ghost predicate Inv(o: Oracle, s: Sys) {
    && LatchInv(s.latch)
    && s.latch.n == |Inside(s.calls)|
    && forall p :: p in s.calls ==> Logged(o, s.calls[p])
  }

  lemma MovedLogged(o: Oracle, shut: bool, c: Call, l: Label)
    requires !l.Shut? && (l.Enter? || (Can(Sys(NewLatch, map[l.p := c]), l) && Logged(o, c)))
    ensures Logged(o, Moved(o, shut, c, l))
    ensures IsInside(Moved(o, shut, c, l)) == if l.Enter? then !shut else !l.Leave?
  {
  }

  lemma CountInside(calls: map<nat, Call>, p: nat, c: Call)
    ensures |Inside(calls[p := c])|
            == |Inside(calls)| - (if p in Inside(calls) then 1 else 0) + (if IsInside(c) then 1 else 0)
  {
    var others := Inside(calls) - {p};
    assert Inside(calls) == if p in Inside(calls) then others + {p} else others;
    assert Inside(calls[p := c]) == if IsInside(c) then others + {p} else others;
  }

  lemma StepInv(o: Oracle, s: Sys, l: Label)
    requires Inv(o, s) && Can(s, l)
    ensures Inv(o, Apply(o, s, l))
  {
    if !l.Shut? {
      var was := if l.p in s.calls then s.calls[l.p] else Call(Entered, []);
      var now := Moved(o, s.latch.made, was, l);
      MovedLogged(o, s.latch.made, was, l);
      CountInside(s.calls, l.p, now);
      var calls := s.calls[l.p := now];
      assert forall p :: p in calls ==> Logged(o, calls[p]);
    }
  }

  lemma {:induction false} RunInv(o: Oracle, s: Sys, ls: seq<Label>)
    requires Inv(o, s) && IsRun(o, s, ls)
    ensures Inv(o, After(o, s, ls))
    decreases |ls|
  {
    if ls != [] {
      StepInv(o, s, ls[0]);
      RunInv(o, Apply(o, s, ls[0]), ls[1..]);
    }
  }

  lemma Reachable(o: Oracle, ls: seq<Label>)
    requires IsRun(o, Idle, ls)
    ensures Inv(o, After(o, Idle, ls))
  {
    assert Inside(Idle.calls) == {};
    RunInv(o, Idle, ls);
  }

  // ---------------------------------------------------------------- the results

  /** In every run, a call over has done what its disposition says and nothing else; one not
      over has handed over no record and sent at most once, only when every check held. */
  lemma OneRecordEach(o: Oracle, ls: seq<Label>, p: nat)
    requires IsRun(o, Idle, ls)
    requires p in After(o, Idle, ls).calls
    ensures var c := After(o, Idle, ls).calls[p];
            if c.at.Over? || c.at.Gone?
            then
              && c.log == Trace(o, c.at.d, c.at.session, c.at.cancelled)
              && Count(c.log, IsRecord) == if Executes(c.at.d) then 1 else 0
            else
              && Count(c.log, IsRecord) == 0
              && Count(c.log, IsSent) == (if c.at.Closing? then 1 else 0)
              && (c.at.Closing? ==> Cleared(o, c.at.d, true, false, c.at.bytes))
  {
    Reachable(o, ls);
    var c := After(o, Idle, ls).calls[p];
    assert Logged(o, c);
    CountOf(c.log, IsRecord);
    CountOf(c.log, IsSent);
    if c.at.Over? || c.at.Gone? {
      TraceMeans(o, c.at.d, c.at.session, c.at.cancelled);
    }
  }

  /** The call was turned away before admission, or its trace is whole. */
  ghost predicate Settled(o: Oracle, c: Call) {
    c == Call(Turned, []) || (c.at.Gone? && c.log == Trace(o, c.at.d, c.at.session, c.at.cancelled))
  }

  /** Once the latch is shut and counts none, every call there is or will be is settled:
      nothing is admitted afterwards, and no execution waits for a record. The idle
      channel is closed in exactly the states the count would be none. */
  lemma DrainedNone(o: Oracle, before: seq<Label>, after: seq<Label>)
    requires IsRun(o, Idle, before)
    requires IsRun(o, After(o, Idle, before), after)
    ensures var s := After(o, Idle, before);
            s.latch.closed <==> s.latch.made && s.latch.n == 0
    ensures var s := After(o, Idle, before);
            var t := After(o, s, after);
            s.latch.made && s.latch.n == 0 ==>
              && t.latch == s.latch
              && forall p :: p in t.calls ==> Settled(o, t.calls[p])
  {
    Reachable(o, before);
    var s := After(o, Idle, before);
    if s.latch.made && s.latch.n == 0 {
      NoneInside(o, s);
      StaySettled(o, s, after);
    }
  }

  lemma NoneInside(o: Oracle, s: Sys)
    requires Inv(o, s) && s.latch.n == 0
    ensures forall p :: p in s.calls ==> Settled(o, s.calls[p])
  {
    forall p | p in s.calls
      ensures Settled(o, s.calls[p])
    {
      assert p !in Inside(s.calls);
      assert Logged(o, s.calls[p]);
    }
  }

  lemma {:induction false} StaySettled(o: Oracle, s: Sys, ls: seq<Label>)
    requires IsRun(o, s, ls) && s.latch.made
    requires forall p :: p in s.calls ==> Settled(o, s.calls[p])
    ensures After(o, s, ls).latch == s.latch
    ensures forall p :: p in After(o, s, ls).calls ==> Settled(o, After(o, s, ls).calls[p])
    decreases |ls|
  {
    if ls != [] {
      StaySettled(o, Apply(o, s, ls[0]), ls[1..]);
    }
  }

  // ---------------------------------------------------------------- where a call comes from

  /** A Shut stands before the call's entering. */
  ghost predicate ShutFirst(ls: seq<Label>, p: nat) {
    exists i, j :: 0 <= i < j < |ls| && ls[i] == Shut && ls[j] == Enter(p)
  }

  /** What the call holds is what its own steps brought: the pipeline's disposition, and of an
      execution what its check found. It was turned away exactly when a stop came first. */
  ghost predicate CallFrom(ls: seq<Label>, p: nat, c: Call) {
    && Enter(p) in ls
    && (c.at.Turned? <==> ShutFirst(ls, p))
    && match c.at
       case Entered => true
       case Holding(d) => Admit(p, d) in ls
       case Sending(d, _) => Admit(p, d) in ls && Check(p, true, false) in ls
       case Closing(d, _) => Admit(p, d) in ls && Check(p, true, false) in ls
       case Over(d, session, cancelled) => Admit(p, d) in ls && (Executes(d) ==> Check(p, session, cancelled) in ls)
       case Gone(d, session, cancelled) => Admit(p, d) in ls && (Executes(d) ==> Check(p, session, cancelled) in ls)
       case Turned => true
  }

  ghost predicate AllFrom(ls: seq<Label>, s: Sys) {
    && (s.latch.made <==> Shut in ls)
    && (forall p :: p in s.calls <==> Enter(p) in ls)
    && (forall p :: p in s.calls ==> CallFrom(ls, p, s.calls[p]))
  }

  lemma ShutFirstLater(ls: seq<Label>, l: Label, p: nat)
    ensures ShutFirst(ls + [l], p) <==> ShutFirst(ls, p) || (l == Enter(p) && Shut in ls)
  {
    var after := ls + [l];
    assert after[|ls|] == l;
    if ShutFirst(ls, p) {
      var i, j :| 0 <= i < j < |ls| && ls[i] == Shut && ls[j] == Enter(p);
      assert after[i] == Shut && after[j] == Enter(p);
    }
    if l == Enter(p) && Shut in ls {
      var i :| 0 <= i < |ls| && ls[i] == Shut;
      assert after[i] == Shut && after[|ls|] == Enter(p);
    }
  }

  lemma EnteredBefore(ls: seq<Label>, p: nat)
    requires Enter(p) !in ls
    ensures !ShutFirst(ls, p)
  {
  }

  lemma CallStep(o: Oracle, ls: seq<Label>, s: Sys, l: Label, p: nat)
    requires Inv(o, s) && Can(s, l) && AllFrom(ls, s) && p in Apply(o, s, l).calls
    ensures CallFrom(ls + [l], p, Apply(o, s, l).calls[p])
  {
    assert (ls + [l])[|ls|] == l;
    ShutFirstLater(ls, l, p);
    if p in s.calls {
      assert CallFrom(ls, p, s.calls[p]) && Logged(o, s.calls[p]);
    } else {
      EnteredBefore(ls, p);
    }
  }

  lemma {:induction false} FromRun(o: Oracle, ls: seq<Label>)
    requires IsRun(o, Idle, ls)
    ensures AllFrom(ls, After(o, Idle, ls))
    decreases |ls|
  {
    if ls != [] {
      var n := |ls| - 1;
      LastStep(o, Idle, ls);
      var was, l := ls[..n], ls[n];
      var s := After(o, Idle, was);
      FromRun(o, was);
      Reachable(o, was);
      assert ls == was + [l];
      forall p | p in Apply(o, s, l).calls
        ensures CallFrom(ls, p, Apply(o, s, l).calls[p])
      {
        CallStep(o, was, s, l, p);
      }
    }
  }

  lemma {:induction false} LastStep(o: Oracle, s: Sys, ls: seq<Label>)
    requires ls != [] && IsRun(o, s, ls)
    ensures var was, l := ls[..|ls| - 1], ls[|ls| - 1];
            && IsRun(o, s, was) && Can(After(o, s, was), l)
            && After(o, s, ls) == Apply(o, After(o, s, was), l)
    decreases |ls|
  {
    var was := ls[..|ls| - 1];
    if |ls| > 1 {
      LastStep(o, Apply(o, s, ls[0]), ls[1..]);
      assert was[0] == ls[0] && was[1..] == ls[1..][..|ls| - 2];
    } else {
      assert ls[1..] == [];
    }
  }

  /** In every run a call is turned away, with nothing done for it, if and only if a stop began before
      it entered; and a call that is over did what the pipeline's answer to it and the
      check of it say. */
  lemma TurnedExactly(o: Oracle, ls: seq<Label>, p: nat)
    requires IsRun(o, Idle, ls) && p in After(o, Idle, ls).calls
    ensures var c := After(o, Idle, ls).calls[p];
            && (c == Call(Turned, []) <==> ShutFirst(ls, p))
            && (c.at.Over? || c.at.Gone? ==>
                  && c.log == Trace(o, c.at.d, c.at.session, c.at.cancelled)
                  && Admit(p, c.at.d) in ls && (Executes(c.at.d) ==> Check(p, c.at.session, c.at.cancelled) in ls))
  {
    Reachable(o, ls);
    FromRun(o, ls);
    assert Logged(o, After(o, Idle, ls).calls[p]) && CallFrom(ls, p, After(o, Idle, ls).calls[p]);
  }
}
