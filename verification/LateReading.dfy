/** A run of the adapter in which purging changes an answer. The clock is read before
    the mutex is taken, so a take may run under an earlier reading than a sweep that
    ran before it. */
module LateReading {
  import opened Options
  import opened Handles
  import opened HandleHistory
  import opened SpentLog
  import opened Flights
  import opened Lifecycle
  import opened LifecycleHistory

  // One execution of the run "run" under the handle "h", which expires at 10: it is minted,
  // taken at 0 while its admit still writes, completed and spent, and then a sweep runs at 10.

  const Minted0 := Entry("run", Some(0), 10, "", Minting, NoEnding)
  const Spent0 := Entry("run", None, 10, "", Spent, Recorded)

  const Reserved0 := Table([], [], map[], {}, map["run" := 1], [], false)
  const Held0 := Table([Minted0], ["h"], map["h" := 0], {}, map["run" := 1], [], false)
  const Taken0 := Held0.(entries := [Minted0.(state := Closing)])
  const Ended0 := Table([Spent0], ["h"], map["h" := 0], {}, map[], ["h"], false)
  const Swept0 := Table([Spent0], ["h"], map[], {}, map[], [], false)

  const Inside := Sys(EmptyTable, Latch(1, false, false), true, map[0 := AdmitRead("run")], 1, [], [], [], map[])
  const Handed := Inside.(t := Reserved0, procs := map[0 := AdmitMint("run", "", 0)], home := [AtProc(0)])
  const Asked := Sys(Held0, Latch(2, false, false), true, map[0 := AdmitWrite("h", 0), 1 := ClientRead("run")], 2, [],
                     [AtEntry(0)], [0], map[])
  const Closing0 := Asked.(t := Taken0, procs := map[0 := AdmitWrite("h", 0), 1 := ClientClose(Completed, "h", 0)],
                           closer := map[0 := 1])
  const Called := Asked.(t := Taken0, procs := map[0 := AdmitWrite("h", 0), 1 := ClientSpend("h", 0, Recorded)],
                         closings := [Closed(0, Completed)], home := [Gone], closer := map[0 := 1])
  const Ended := Called.(t := Ended0, procs := map[0 := AdmitWrite("h", 0), 1 := Leave], closer := map[])

  /** l can be taken in s and leads to s'. */
  ghost predicate Leads(c: Config, s: Sys, l: Label, s': Sys) {
    Can(c, s, l) && Apply(c, s, l) == s'
  }

  lemma Enters(c: Config)
    ensures Leads(c, Init, Start, Init.(started := true))
    ensures Leads(c, Init.(started := true), EnterAdmit("run"), Inside)
  {
  }

  lemma Reserves(c: Config)
    requires c.maxPerRun > 0
    ensures Leads(c, Inside, DoReserve(0, ""), Inside.(t := Reserved0, procs := map[0 := AdmitAsk("run", "")]))
    ensures Leads(c, Inside.(t := Reserved0, procs := map[0 := AdmitAsk("run", "")]), PipelineHands(0), Handed)
  {
  }

  lemma Mints(c: Config)
    ensures var s := Minted(Handed, 0, 10, "h");
            Leads(c, Handed, DoMint(0, 10, "h"), s) && Leads(c, s, EnterClient("run"), Asked)
  {
  }

  lemma Takes0(c: Config)
    ensures Leads(c, Asked, DoTake(1, Completed, "h", 0), Closing0)
  {
  }

  lemma Closes0(c: Config)
    ensures Leads(c, Closing0, DoClose(1, Recorded), Called)
  {
  }

  lemma Spends0(c: Config)
    requires c.maxSpent > 0
    ensures Leads(c, Called, DoSpend(1), Ended)
  {
    var r := Record(Taken0, "h", 0, Recorded);
    assert r.entries == [Spent0];
    assert r == Ended0;
    EvictOne(r, c.maxSpent);
  }

  lemma Sweeps0(c: Config)
    ensures Can(c, Ended, SweepTake(10, 1, [])) && Apply(c, Ended, SweepTake(10, 1, [])).t == Swept0
  {
    assert Kept(Ended0, 10, ["h"]) == [];
    assert Close(Purge(Ended0, 10), Refs([])).entries == [Spent0];
  }

  lemma {:induction false} Extend(c: Config, s: Sys, ls: seq<Label>, l: Label, s': Sys) returns (r: seq<Label>)
    requires IsRun(c, s, ls) && FreshRun(c, s, ls)
    requires Leads(c, After(c, s, ls), l, s') && FreshStep(After(c, s, ls), l)
    ensures r == ls + [l] && IsRun(c, s, r) && FreshRun(c, s, r) && After(c, s, r) == s'
    decreases |ls|
  {
    r := ls + [l];
    if ls == [] {
      assert r[1..] == [];
    } else {
      var rest := Extend(c, Apply(c, s, ls[0]), ls[1..], l, s');
      assert r[1..] == rest;
    }
  }

  /** The run up to the spend. */
  lemma LateSpend(c: Config) returns (ls: seq<Label>)
    requires c.maxSpent > 0 && c.maxPerRun > 0
    ensures IsRun(c, Init, ls) && FreshRun(c, Init, ls) && After(c, Init, ls) == Ended
  {
    ls := [];
    Enters(c);
    ls := Extend(c, Init, ls, Start, Init.(started := true));
    ls := Extend(c, Init, ls, EnterAdmit("run"), Inside);
    Reserves(c);
    ls := Extend(c, Init, ls, DoReserve(0, ""), Inside.(t := Reserved0, procs := map[0 := AdmitAsk("run", "")]));
    ls := Extend(c, Init, ls, PipelineHands(0), Handed);
    Mints(c);
    ls := Extend(c, Init, ls, DoMint(0, 10, "h"), Minted(Handed, 0, 10, "h"));
    ls := Extend(c, Init, ls, EnterClient("run"), Asked);
    Takes0(c);
    ls := Extend(c, Init, ls, DoTake(1, Completed, "h", 0), Closing0);
    Closes0(c);
    ls := Extend(c, Init, ls, DoClose(1, Recorded), Called);
    Spends0(c);
    ls := Extend(c, Init, ls, DoSpend(1), Ended);
  }

  /** A take that read the clock at 5 after the sweep at 10 is told that a handle within its
      lifetime, spent last of all, is unknown; the full history has it spent. */
  lemma LateReading(c: Config) returns (ls: seq<Label>)
    requires c.maxSpent > 0 && c.maxPerRun > 0
    ensures IsRun(c, Init, ls) && FreshRun(c, Init, ls) && WellFormed(After(c, Init, ls).t)
    ensures TakeCode(After(c, Init, ls).t, "h", "run", 5) == HandleUnknown
    ensures HistoryCode(After(c, Init, ls).t, "h", "run", 5) == HandleSpent
  {
    ls := LateSpend(c);
    Sweeps0(c);
    ls := Extend(c, Init, ls, SweepTake(10, 1, []), Apply(c, Ended, SweepTake(10, 1, [])));
    FindOnly(["h"], 0);
  }
}
