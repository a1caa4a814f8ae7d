/** Every process of the adapter comes to its end by its own steps, so a shutdown can
    always be brought to a drained adapter. */
module LifecycleProgress {
  import opened Options
  import opened Handles
  import opened Lifecycle
  import opened LifecycleSteps
  import opened LifecycleTheorems

  /** A shutdown that waits does not know yet how much it will take. */
  function Stage(p: Proc): nat {
    if p.ShutWait? then 1 else 0
  }

  /** The most steps a process has left to take, one that waits for a shutdown apart. */
  function StepsLeft(p: Proc): nat {
    match p
    case AdmitRead(_) => 8
    case AdmitAsk(_, _) => 7
    case AdmitMint(_, _, _) => 6
    case AdmitUnminted(_, _, _) => 3
    case AdmitRelease(_, _) => 2
    case AdmitWrite(_, _) => 5
    case ClientRead(_) => 4
    case ClientClose(_, _, _) => 3
    case ClientSpend(_, _, _) => 2
    case Abandon(_, todo, called) => 2 + 2 * |todo| - (if called && todo != [] then 1 else 0)
    case ShutWait => 0
    case Leave => 1
  }

  predicate Lower(q: Proc, p: Proc) {
    Stage(q) < Stage(p) || (Stage(q) == Stage(p) && StepsLeft(q) < StepsLeft(p))
  }

  predicate GoneOrLower(s: Sys, s': Sys, pid: Pid)
    requires pid in s.procs
  {
    pid !in s'.procs || Lower(s'.procs[pid], s.procs[pid])
  }

  lemma AdmitLowers(c: Config, s: Sys, l: Label)
    requires CarriersPlaced(s) && Can(c, s, l) && OfAdmit(l)
    ensures GoneOrLower(s, Apply(c, s, l), l.pid)
  {
    assert l.AbandonUnminted? ==> IsCarrier(s.procs[l.pid]);
  }

  lemma BatchLowers(c: Config, s: Sys, l: Label)
    requires Can(c, s, l) && OfBatch(l)
    ensures GoneOrLower(s, Apply(c, s, l), l.pid)
  {
  }

  lemma OtherLowers(c: Config, s: Sys, l: Label)
    requires Can(c, s, l) && Mover(l).Some? && !OfAdmit(l) && !OfBatch(l)
    ensures GoneOrLower(s, Apply(c, s, l), l.pid)
  {
  }

  /** Each step of a process ends it or lowers its measure, and leaves every other process
      where it is. */
  lemma OwnStepsLower(c: Config, s: Sys, l: Label)
    requires Inv(c, s) && Can(c, s, l) && Mover(l).Some?
    ensures var pid, s' := Mover(l).value, Apply(c, s, l);
            && pid in s.procs && GoneOrLower(s, s', pid)
            && s'.procs - {pid} == s.procs - {pid}
  {
    MoverStep(c, s, l);
    if OfAdmit(l) {
      AdmitLowers(c, s, l);
    } else if OfBatch(l) {
      BatchLowers(c, s, l);
    } else {
      OtherLowers(c, s, l);
    }
  }

  lemma Cons(c: Config, s: Sys, l: Label, ls: seq<Label>)
    requires Can(c, s, l) && IsRun(c, Apply(c, s, l), ls)
    ensures IsRun(c, s, [l] + ls) && After(c, s, [l] + ls) == After(c, Apply(c, s, l), ls)
  {
    assert ([l] + ls)[1..] == ls;
  }

  lemma {:induction false} Append(c: Config, s: Sys, a: seq<Label>, b: seq<Label>)
    requires IsRun(c, s, a) && IsRun(c, After(c, s, a), b)
    ensures IsRun(c, s, a + b) && After(c, s, a + b) == After(c, After(c, s, a), b)
    decreases |a|
  {
    if a == [] {
      assert a + b == b;
    } else {
      Append(c, Apply(c, s, a[0]), a[1..], b);
      Cons(c, s, a[0], a[1..] + b);
      assert a + b == [a[0]] + (a[1..] + b);
    }
  }

  /** A process left to itself ends, and the others stand where they stood. */
  lemma {:induction false} Finishes(c: Config, s: Sys, pid: Pid) returns (ls: seq<Label>)
    requires Inv(c, s) && pid in s.procs
    ensures IsRun(c, s, ls) && Inv(c, After(c, s, ls))
    ensures After(c, s, ls).procs == s.procs - {pid} && (s.t.shut ==> After(c, s, ls).t.shut)
    decreases Stage(s.procs[pid]), StepsLeft(s.procs[pid])
  {
    var l := OneStep(c, s, pid);
    var s1 := Apply(c, s, l);
    var rest := [];
    if pid in s1.procs {
      rest := Finishes(c, s1, pid);
    }
    Cons(c, s, l, rest);
    ls := [l] + rest;
    OnlyGone(s.procs, s1.procs, After(c, s1, rest).procs, pid);
  }

  lemma OneStep(c: Config, s: Sys, pid: Pid) returns (l: Label)
    requires Inv(c, s) && pid in s.procs
    ensures Can(c, s, l) && Inv(c, Apply(c, s, l)) && GoneOrLower(s, Apply(c, s, l), pid)
    ensures Apply(c, s, l).procs - {pid} == s.procs - {pid} && (s.t.shut ==> Apply(c, s, l).t.shut)
  {
    MovesOn(c, s, pid);
    l :| Mover(l) == Some(pid) && Can(c, s, l);
    OwnStepsLower(c, s, l);
    StepInv(c, s, l);
    ShutOnlyByShutdown(c, s, l);
  }

  lemma OnlyGone(before: map<Pid, Proc>, between: map<Pid, Proc>, after: map<Pid, Proc>, pid: Pid)
    requires between - {pid} == before - {pid} && (after == between - {pid} || (after == between && pid !in between))
    ensures after == before - {pid}
  {
    assert pid !in between ==> between - {pid} == between;
  }

  /** So do all of them, one after another. */
  lemma {:induction false} AllFinish(c: Config, s: Sys) returns (ls: seq<Label>)
    requires Inv(c, s)
    ensures IsRun(c, s, ls) && After(c, s, ls).procs == map[] && (s.t.shut ==> After(c, s, ls).t.shut)
    decreases |s.procs|
  {
    ls := [];
    if s.procs != map[] {
      var pid :| pid in s.procs;
      var first := Finishes(c, s, pid);
      var s1 := After(c, s, first);
      assert s1.procs.Keys == s.procs.Keys - {pid};
      var rest := AllFinish(c, s1);
      Append(c, s, first, rest);
      ls := first + rest;
    }
  }

  /** A shutdown takes what is open at once, whoever is inside. */
  lemma ShutsNow(c: Config, s: Sys) returns (ls: seq<Label>)
    requires Inv(c, s)
    ensures IsRun(c, s, ls) && Inv(c, After(c, s, ls)) && After(c, s, ls).t.shut
  {
    var s1 := Apply(c, s, ShutBegin);
    StepInv(c, s, ShutBegin);
    var out := OpenList(s1.t);
    var take := ShutTake(s.next, false, out);
    StepInv(c, s1, take);
    Cons(c, s1, take, []);
    Cons(c, s, ShutBegin, [take] + []);
    ls := [ShutBegin] + ([take] + []);
  }

  /** From every state any run leads to, some run leads to a drained adapter: no execution can
      come to a place from which it is never closed. */
  lemma AlwaysDrains(c: Config, before: seq<Label>) returns (after: seq<Label>)
    requires IsRun(c, Init, before)
    ensures IsRun(c, After(c, Init, before), after) && Drained(After(c, After(c, Init, before), after))
  {
    Reachable(c, before);
    var s := After(c, Init, before);
    var shut := ShutsNow(c, s);
    var s1 := After(c, s, shut);
    var rest := AllFinish(c, s1);
    Append(c, s, shut, rest);
    RunInv(c, s1, rest);
    NothingHeld(c, After(c, s1, rest));
    after := shut + rest;
  }
}
