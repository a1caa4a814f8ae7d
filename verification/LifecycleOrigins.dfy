/** Every entry and every request of every run traced to the run's own steps: who entered, with
    which key it reserved, what the pipeline handed it and under which handle it minted;
    and from that exactly which takes, sweeps and shutdowns are handed an entry. */
module LifecycleOrigins {
  import opened Options
  import opened Handles
  import opened HandleLemmas
  import opened Lifecycle
  import opened LifecycleSteps
  import opened LifecycleTheorems
  import opened LifecycleHandings
  import opened LifecycleEndings

  // ------------------------------------------------ what the labels say

  /** The steps that start a process. */
  predicate Starts(l: Label) {
    l.EnterAdmit? || l.EnterClient? || l.SweepTake? || l.ShutBegin?
  }

  function Started(ls: seq<Label>): nat {
    if ls == [] then 0 else Started(ls[..|ls| - 1]) + if Starts(ls[|ls| - 1]) then 1 else 0
  }

  function HandedOut(ls: seq<Label>): nat {
    if ls == [] then 0 else HandedOut(ls[..|ls| - 1]) + if ls[|ls| - 1].PipelineHands? then 1 else 0
  }

  /** Process pid is the one that step i, l, started. */
  predicate EnteredAt(ls: seq<Label>, i: int, pid: Pid, l: Label) {
    0 <= i < |ls| && ls[i] == l && Started(ls[..i]) == pid
  }

  ghost predicate Entered(ls: seq<Label>, pid: Pid, l: Label) {
    exists i :: EnteredAt(ls, i, pid, l)
  }

  predicate HandedAt(ls: seq<Label>, i: int, pid: Pid, x: Exec) {
    0 <= i < |ls| && ls[i] == PipelineHands(pid) && HandedOut(ls[..i]) == x
  }

  /** The pipeline handed process pid the execution x, counting from 0. */
  ghost predicate Handed(ls: seq<Label>, pid: Pid, x: Exec) {
    exists i :: HandedAt(ls, i, pid, x)
  }

  /** The process stands where its own steps brought it. */
  ghost predicate ProcFrom(ls: seq<Label>, pid: Pid, p: Proc) {
    match p
    case AdmitRead(run) => Entered(ls, pid, EnterAdmit(run))
    case AdmitAsk(run, key) => Entered(ls, pid, EnterAdmit(run)) && DoReserve(pid, key) in ls
    case AdmitMint(run, key, x) =>
      Entered(ls, pid, EnterAdmit(run)) && DoReserve(pid, key) in ls && Handed(ls, pid, x)
    case AdmitUnminted(run, key, x) =>
      Entered(ls, pid, EnterAdmit(run)) && DoReserve(pid, key) in ls && Handed(ls, pid, x)
    case AdmitRelease(run, key) => Entered(ls, pid, EnterAdmit(run)) && DoReserve(pid, key) in ls
    case ClientRead(run) => Entered(ls, pid, EnterClient(run))
    case _ => true
  }

  /** The entry is what the admit pid entered for, reserved, was handed and minted. */
  ghost predicate EntryFrom(ls: seq<Label>, pid: Pid, id: string, entry: Entry) {
    && Entered(ls, pid, EnterAdmit(entry.run)) && DoReserve(pid, entry.key) in ls
    && DoMint(pid, entry.expires, id) in ls
    && (entry.d.Some? ==> Handed(ls, pid, entry.d.value))
  }

  ghost predicate AllFrom(ls: seq<Label>, s: Sys) {
    && s.next == Started(ls) && |s.home| == HandedOut(ls)
    && |s.writer| == |s.t.entries| == |s.t.minted|
    && (forall pid :: pid in s.procs ==> ProcFrom(ls, pid, s.procs[pid]))
    && (forall e :: 0 <= e < |s.t.entries| ==> EntryFrom(ls, s.writer[e], s.t.minted[e], s.t.entries[e]))
  }

  // ------------------------------------------------ what a longer run still says

  lemma EnteredLater(ls: seq<Label>, last: Label, pid: Pid, l: Label)
    requires Entered(ls, pid, l)
    ensures Entered(ls + [last], pid, l)
  {
    var i :| EnteredAt(ls, i, pid, l);
    assert (ls + [last])[..i] == ls[..i];
    assert EnteredAt(ls + [last], i, pid, l);
  }

  lemma HandedLater(ls: seq<Label>, last: Label, pid: Pid, x: Exec)
    requires Handed(ls, pid, x)
    ensures Handed(ls + [last], pid, x)
  {
    var i :| HandedAt(ls, i, pid, x);
    assert (ls + [last])[..i] == ls[..i];
    assert HandedAt(ls + [last], i, pid, x);
  }

  lemma ProcLater(ls: seq<Label>, last: Label, pid: Pid, p: Proc)
    requires ProcFrom(ls, pid, p)
    ensures ProcFrom(ls + [last], pid, p)
  {
    match p
    case AdmitRead(run) => EnteredLater(ls, last, pid, EnterAdmit(run));
    case AdmitAsk(run, _) => EnteredLater(ls, last, pid, EnterAdmit(run));
    case AdmitMint(run, _, x) =>
      EnteredLater(ls, last, pid, EnterAdmit(run));
      HandedLater(ls, last, pid, x);
    case AdmitUnminted(run, _, x) =>
      EnteredLater(ls, last, pid, EnterAdmit(run));
      HandedLater(ls, last, pid, x);
    case AdmitRelease(run, _) => EnteredLater(ls, last, pid, EnterAdmit(run));
    case ClientRead(run) => EnteredLater(ls, last, pid, EnterClient(run));
    case _ =>
  }

  lemma EntryLater(ls: seq<Label>, last: Label, pid: Pid, id: string, entry: Entry, entry': Entry)
    requires EntryFrom(ls, pid, id, entry) && entry'.run == entry.run && entry'.key == entry.key
    requires entry'.expires == entry.expires && (entry'.d == entry.d || entry'.d == None)
    ensures EntryFrom(ls + [last], pid, id, entry')
  {
    EnteredLater(ls, last, pid, EnterAdmit(entry.run));
    if entry'.d.Some? {
      HandedLater(ls, last, pid, entry.d.value);
    }
  }

  // ------------------------------------------------ a step

  lemma StartedNow(ls: seq<Label>, l: Label)
    requires Starts(l)
    ensures Entered(ls + [l], Started(ls), l)
  {
    assert (ls + [l])[..|ls|] == ls;
    assert EnteredAt(ls + [l], |ls|, Started(ls), l);
  }

  lemma HandedNow(ls: seq<Label>, pid: Pid)
    ensures Handed(ls + [PipelineHands(pid)], pid, HandedOut(ls))
  {
    assert (ls + [PipelineHands(pid)])[..|ls|] == ls;
    assert HandedAt(ls + [PipelineHands(pid)], |ls|, pid, HandedOut(ls));
  }

  lemma CountsStep(c: Config, s: Sys, l: Label)
    requires Can(c, s, l)
    ensures var s' := Apply(c, s, l);
            && s'.next == s.next + (if Starts(l) then 1 else 0)
            && |s'.home| == |s.home| + (if l.PipelineHands? then 1 else 0)
  {
    if Mover(l).Some? {
      MoverStep(c, s, l);
    } else if !l.Start? {
      SpawnStep(c, s, l);
    }
  }

  lemma AdmitMoved(c: Config, ls: seq<Label>, s: Sys, l: Label)
    requires Can(c, s, l) && OfAdmit(l) && ProcFrom(ls, l.pid, s.procs[l.pid]) && |s.home| == HandedOut(ls)
    ensures l.pid in Apply(c, s, l).procs && ProcFrom(ls + [l], l.pid, Apply(c, s, l).procs[l.pid])
  {
    ProcLater(ls, l, l.pid, s.procs[l.pid]);
    HandedNow(ls, l.pid);
  }

  lemma OtherMoved(c: Config, ls: seq<Label>, s: Sys, l: Label)
    requires Can(c, s, l) && Mover(l).Some? && !OfAdmit(l)
    ensures l.pid in Apply(c, s, l).procs ==> ProcFrom(ls + [l], l.pid, Apply(c, s, l).procs[l.pid])
  {
  }

  lemma ProcsStep(c: Config, ls: seq<Label>, s: Sys, l: Label, pid: Pid)
    requires Can(c, s, l) && AllFrom(ls, s) && pid in Apply(c, s, l).procs
    ensures ProcFrom(ls + [l], pid, Apply(c, s, l).procs[pid])
  {
    if Mover(l) == Some(pid) {
      if OfAdmit(l) {
        AdmitMoved(c, ls, s, l);
      } else {
        OtherMoved(c, ls, s, l);
      }
    } else if Mover(l).None? && !l.Start? && pid == s.next {
      StartedNow(ls, l);
      NewProc(c, s, l);
    } else {
      StaysIn(c, s, l, pid);
      ProcLater(ls, l, pid, s.procs[pid]);
    }
  }

  /** What a starting step starts. */
  lemma NewProc(c: Config, s: Sys, l: Label)
    requires Can(c, s, l) && Starts(l)
    ensures var s' := Apply(c, s, l);
            && s.next in s'.procs
            && (l.EnterAdmit? ==> s'.procs[s.next] == AdmitRead(l.run))
            && (l.EnterClient? ==> s'.procs[s.next] == ClientRead(l.run))
            && (l.SweepTake? ==> s'.procs[s.next].Abandon?)
            && (l.ShutBegin? ==> s'.procs[s.next] == ShutWait)
  {
  }

  lemma StaysIn(c: Config, s: Sys, l: Label, pid: Pid)
    requires Can(c, s, l) && pid in Apply(c, s, l).procs && Mover(l) != Some(pid) && (Starts(l) ==> pid != s.next)
    ensures pid in s.procs && s.procs[pid] == Apply(c, s, l).procs[pid]
  {
    if Mover(l).Some? {
      MoverStep(c, s, l);
    } else if !l.Start? {
      SpawnStep(c, s, l);
    }
  }

  /** What a step keeps of an entry: all of its origin. */
  predicate SameOrigin(s: Sys, s': Sys, e: Ref)
    requires e < |s.t.entries| && e < |s.t.minted| && e < |s.writer|
  {
    && e < |s'.t.entries| && e < |s'.t.minted| && e < |s'.writer|
    && s'.t.minted[e] == s.t.minted[e] && s'.writer[e] == s.writer[e]
    && var was, now := s.t.entries[e], s'.t.entries[e];
    && now.run == was.run && now.key == was.key && now.expires == was.expires && (now.d == was.d || now.d == None)
  }

  lemma SpendOrigin(c: Config, s: Sys, l: Label, e: Ref)
    requires Can(c, s, l) && (l.DoSpend? || l.AbandonSpend?)
    requires e < |s.t.entries| && e < |s.t.minted| && e < |s.writer|
    ensures SameOrigin(s, Apply(c, s, l), e)
  {
    var p := s.procs[l.pid];
    if l.DoSpend? {
      SpendKeeps(s.t, c.maxSpent, p.id, p.e, p.ending);
    } else {
      SpendKeeps(s.t, c.maxSpent, p.todo[0].id, p.todo[0].e, Ending.Abandoned);
    }
  }

  lemma BatchOrigin(c: Config, s: Sys, l: Label, e: Ref)
    requires Can(c, s, l) && (l.SweepTake? || l.ShutTake?)
    requires e < |s.t.entries| && e < |s.t.minted| && e < |s.writer|
    ensures SameOrigin(s, Apply(c, s, l), e)
  {
  }

  lemma MintOrigin(c: Config, s: Sys, l: Label, e: Ref)
    requires Can(c, s, l) && l.DoMint?
    requires e < |s.t.entries| && e < |s.t.minted| && e < |s.writer|
    ensures SameOrigin(s, Apply(c, s, l), e)
  {
  }

  lemma SettleOrigin(c: Config, s: Sys, l: Label, e: Ref)
    requires Can(c, s, l) && l.DoSettle?
    requires e < |s.t.entries| && e < |s.t.minted| && e < |s.writer|
    ensures SameOrigin(s, Apply(c, s, l), e)
  {
  }

  lemma TakeOrigin(c: Config, s: Sys, l: Label, e: Ref)
    requires Can(c, s, l) && l.DoTake?
    requires e < |s.t.entries| && e < |s.t.minted| && e < |s.writer|
    ensures SameOrigin(s, Apply(c, s, l), e)
  {
  }

  lemma OriginStays(c: Config, s: Sys, l: Label, e: Ref)
    requires Can(c, s, l) && e < |s.t.entries| && e < |s.t.minted| && e < |s.writer|
    ensures SameOrigin(s, Apply(c, s, l), e)
  {
    if l.DoSpend? || l.AbandonSpend? {
      SpendOrigin(c, s, l, e);
    } else if l.SweepTake? || l.ShutTake? {
      BatchOrigin(c, s, l, e);
    } else if l.DoMint? {
      MintOrigin(c, s, l, e);
    } else if l.DoSettle? {
      SettleOrigin(c, s, l, e);
    } else if l.DoTake? {
      TakeOrigin(c, s, l, e);
    } else {
      QuietStep(c, s, l);
    }
  }

  predicate NoNewEntry(s: Sys, s': Sys) {
    |s'.t.entries| == |s.t.entries| && |s'.t.minted| == |s.t.minted| && |s'.writer| == |s.writer|
  }

  lemma SpendAddsNone(c: Config, s: Sys, l: Label)
    requires Can(c, s, l) && (l.DoSpend? || l.AbandonSpend?)
    ensures NoNewEntry(s, Apply(c, s, l))
  {
    var p := s.procs[l.pid];
    if l.DoSpend? {
      SpendKeeps(s.t, c.maxSpent, p.id, p.e, p.ending);
    } else {
      SpendKeeps(s.t, c.maxSpent, p.todo[0].id, p.todo[0].e, Ending.Abandoned);
    }
  }

  lemma HandingAddsNone(c: Config, s: Sys, l: Label)
    requires Can(c, s, l) && (l.DoSettle? || l.DoTake? || l.SweepTake? || l.ShutTake?)
    ensures NoNewEntry(s, Apply(c, s, l))
  {
  }

  /** A mint adds what its admit holds. */
  lemma MintAdds(c: Config, s: Sys, l: Label)
    requires Can(c, s, l) && l.DoMint? && |s.writer| == |s.t.entries| == |s.t.minted|
    ensures var s', n := Apply(c, s, l), |s.t.entries|;
            if s.t.shut then NoNewEntry(s, s')
            else
              var p := s.procs[l.pid];
              && |s'.writer| == |s'.t.entries| == |s'.t.minted| == n + 1
              && s'.writer[n] == l.pid && s'.t.minted[n] == l.id
              && s'.t.entries[n] == Entry(p.run, Some(p.x), l.expires, p.key, Minting, NoEnding)
  {
  }

  /** No other step adds an entry. */
  lemma OthersAddNone(c: Config, s: Sys, l: Label)
    requires Can(c, s, l) && !l.DoMint?
    ensures NoNewEntry(s, Apply(c, s, l))
  {
    if l.DoSpend? || l.AbandonSpend? {
      SpendAddsNone(c, s, l);
    } else if Quiet(l) {
      QuietStep(c, s, l);
    } else {
      HandingAddsNone(c, s, l);
    }
  }

  lemma EntriesGrow(c: Config, s: Sys, l: Label)
    requires Can(c, s, l) && |s.writer| == |s.t.entries| == |s.t.minted|
    ensures var s' := Apply(c, s, l); |s'.writer| == |s'.t.entries| == |s'.t.minted|
  {
    if l.DoMint? {
      MintAdds(c, s, l);
    } else {
      OthersAddNone(c, s, l);
    }
  }

  lemma EntriesStep(c: Config, ls: seq<Label>, s: Sys, l: Label, e: Ref)
    requires Can(c, s, l) && AllFrom(ls, s)
    requires e < |Apply(c, s, l).t.entries| && e < |Apply(c, s, l).t.minted| && e < |Apply(c, s, l).writer|
    ensures var s' := Apply(c, s, l); EntryFrom(ls + [l], s'.writer[e], s'.t.minted[e], s'.t.entries[e])
  {
    var s' := Apply(c, s, l);
    if e < |s.t.entries| {
      OriginStays(c, s, l, e);
      EntryLater(ls, l, s.writer[e], s.t.minted[e], s.t.entries[e], s'.t.entries[e]);
    } else if l.DoMint? {
      MintAdds(c, s, l);
      ProcLater(ls, l, l.pid, s.procs[l.pid]);
      assert (ls + [l])[|ls|] == l;
    } else {
      OthersAddNone(c, s, l);
    }
  }

  lemma FromStep(c: Config, ls: seq<Label>, s: Sys, l: Label)
    requires Can(c, s, l) && AllFrom(ls, s)
    ensures AllFrom(ls + [l], Apply(c, s, l))
  {
    var s' := Apply(c, s, l);
    assert (ls + [l])[..|ls|] == ls;
    CountsStep(c, s, l);
    EntriesGrow(c, s, l);
    forall pid | pid in s'.procs
      ensures ProcFrom(ls + [l], pid, s'.procs[pid])
    {
      ProcsStep(c, ls, s, l, pid);
    }
    forall e | 0 <= e < |s'.t.entries|
      ensures EntryFrom(ls + [l], s'.writer[e], s'.t.minted[e], s'.t.entries[e])
    {
      EntriesStep(c, ls, s, l, e);
    }
  }

  lemma {:induction false} FromRun(c: Config, ls: seq<Label>)
    requires IsRun(c, Init, ls)
    ensures AllFrom(ls, After(c, Init, ls))
    decreases |ls|
  {
    if ls != [] {
      var n := |ls| - 1;
      RunAt(c, Init, ls, n);
      FromRun(c, ls[..n]);
      FromStep(c, ls[..n], After(c, Init, ls[..n]), ls[n]);
      assert ls == ls[..n] + [ls[n]] && ls[n + 1..] == [];
    }
  }

  // ------------------------------------------------ the results

  /** In every run every entry is what one admit of the run asked for: the run it entered for, the key
      it reserved, the execution the pipeline handed it, and the handle and the expiry it
      minted. */
  lemma EntryOrigins(c: Config, ls: seq<Label>, e: Ref)
    requires IsRun(c, Init, ls) && e < |After(c, Init, ls).t.entries|
    ensures var t := After(c, Init, ls).t;
            e < |t.minted| && exists pid: Pid :: EntryFrom(ls, pid, t.minted[e], t.entries[e])
  {
    FromRun(c, ls);
    var s := After(c, Init, ls);
    assert EntryFrom(ls, s.writer[e], s.t.minted[e], s.t.entries[e]);
  }

  /** A process number is started by one step only. */
  lemma {:induction false} StartedBelow(ls: seq<Label>, i: nat)
    requires i < |ls| && Starts(ls[i])
    ensures Started(ls[..i]) < Started(ls)
    decreases |ls|
  {
    var n := |ls| - 1;
    if i < n {
      assert ls[..n][..i] == ls[..i];
      StartedBelow(ls[..n], i);
    } else {
      assert ls[..i] == ls[..n];
    }
  }

  lemma EnteredOnce(ls: seq<Label>, pid: Pid, a: Label, b: Label)
    requires Entered(ls, pid, a) && Entered(ls, pid, b) && Starts(a) && Starts(b)
    ensures a == b
  {
    var i :| EnteredAt(ls, i, pid, a);
    var j :| EnteredAt(ls, j, pid, b);
    if i < j {
      assert ls[..j][..i] == ls[..i];
      StartedBelow(ls[..j], i);
    } else if j < i {
      assert ls[..i][..j] == ls[..j];
      StartedBelow(ls[..i], j);
    }
  }

  /** What a take names, in the table alone. */
  lemma GrantedExactly(t: Table, id: string, run: string, now: int, e: Ref)
    requires WellFormed(t) && LiveAreListed(t) && e < |t.entries|
    ensures TakeCode(t, id, run, now) == Granted && t.byID[id] == e <==>
              && t.entries[e].run == run && t.minted[e] == id && now < t.entries[e].expires
              && (t.entries[e].state == Minting || t.entries[e].state == Open)
  {
  }

  lemma ClientRun(c: Config, ls: seq<Label>, pid: Pid, run: string)
    requires IsRun(c, Init, ls) && pid in After(c, Init, ls).procs && After(c, Init, ls).procs[pid].ClientRead?
    ensures Entered(ls, pid, EnterClient(run)) <==> After(c, Init, ls).procs[pid].run == run
  {
    FromRun(c, ls);
    var own := After(c, Init, ls).procs[pid].run;
    assert ProcFrom(ls, pid, ClientRead(own));
    if Entered(ls, pid, EnterClient(run)) {
      EnteredOnce(ls, pid, EnterClient(own), EnterClient(run));
    }
  }

  /** A take is handed an entry if and only if the client entered for the entry's run and names the
      handle it was minted under, before it expires, and nobody was handed it yet. */
  lemma TakeExactly(c: Config, ls: seq<Label>, l: Label, e: Ref)
    requires IsRun(c, Init, ls) && l.DoTake? && Can(c, After(c, Init, ls), l)
    requires e < |After(c, Init, ls).t.entries| && e < |After(c, Init, ls).t.minted|
    ensures var s := After(c, Init, ls);
            var entry := s.t.entries[e];
            Hands(c, s, l, e) <==>
              && Entered(ls, l.pid, EnterClient(entry.run)) && s.t.minted[e] == l.id && l.now < entry.expires
              && (entry.state == Minting || entry.state == Open)
  {
    var s := After(c, Init, ls);
    Reachable(c, ls);
    ClientRun(c, ls, l.pid, s.t.entries[e].run);
    GrantedExactly(s.t, l.id, s.procs[l.pid].run, l.now, e);
  }

  /** A sweep is handed only open entries expired at its reading, the earliest first, and leaves one
      behind only when it took its limit. */
  lemma SweepExactly(c: Config, ls: seq<Label>, now: int, limit: nat, out: seq<Taken>)
    requires IsRun(c, Init, ls) && Can(c, After(c, Init, ls), SweepTake(now, limit, out))
    ensures var s, refs := After(c, Init, ls), Refs(out);
            && (forall e :: e in refs ==>
                  e < |s.t.entries| && s.t.entries[e].state == Open && s.t.entries[e].expires <= now)
            && |refs| <= limit
            && (forall e :: 0 <= e < |s.t.entries| && s.t.entries[e].state == Open && s.t.entries[e].expires <= now
                            && e !in refs ==>
                  |refs| == limit && forall f :: f in refs ==> s.t.entries[f].expires <= s.t.entries[e].expires)
  {
    var s := After(c, Init, ls);
    Reachable(c, ls);
    BatchKnown(s, out);
    RefsCount(out);
    forall e | 0 <= e < |s.t.entries| && s.t.entries[e].state == Open && s.t.entries[e].expires <= now
               && e !in Refs(out)
      ensures |out| == limit && forall f :: f in Refs(out) ==> s.t.entries[f].expires <= s.t.entries[e].expires
    {
      LeftBehind(s.t, now, limit, out, e);
    }
  }

  lemma LeftBehind(t: Table, now: int, limit: nat, out: seq<Taken>, e: Ref)
    requires WellFormed(t) && LiveAreListed(t) && SweepPick(t, now, limit, out) && e < |t.entries|
    requires t.entries[e].state == Open && t.entries[e].expires <= now && e !in Refs(out)
    ensures |out| == limit
    ensures forall f :: f in Refs(out) ==> f < |t.entries| && t.entries[f].expires <= t.entries[e].expires
  {
    var id := t.minted[e];
    assert t.byID[id] == e && ExpiredOpen(t, now, id);
    forall i | 0 <= i < |out|
      ensures out[i].id != id
    {
      assert out[i] in out && out[i].e in Refs(out);
    }
    forall f | f in Refs(out)
      ensures f < |t.entries| && t.entries[f].expires <= t.entries[e].expires
    {
      var x :| x in out && x.e == f;
      var i :| 0 <= i < |out| && out[i] == x;
      assert Expiry(t, out[i]) <= t.entries[t.byID[id]].expires;
    }
  }

  lemma {:induction false} RefsCount(out: seq<Taken>)
    requires forall i, j :: 0 <= i < j < |out| ==> out[i].e != out[j].e
    ensures |Refs(out)| == |out|
  {
    if out != [] {
      var n := |out| - 1;
      RefsCount(out[..n]);
      assert out == out[..n] + [out[n]];
      assert Refs(out) == Refs(out[..n]) + {out[n].e};
    }
  }

  /** What a take at a reading would grant a sweep at the same reading leaves, and what it would not a
      sweep with room takes. */
  lemma SweepMeetsTake(c: Config, ls: seq<Label>, now: int, limit: nat, out: seq<Taken>, e: Ref)
    requires IsRun(c, Init, ls) && Can(c, After(c, Init, ls), SweepTake(now, limit, out)) && |out| < limit
    requires e < |After(c, Init, ls).t.entries| && e < |After(c, Init, ls).t.minted|
    requires After(c, Init, ls).t.entries[e].state == Open
    ensures var t := After(c, Init, ls).t;
            e in Refs(out) <==> TakeCode(t, t.minted[e], t.entries[e].run, now) != Granted
  {
    Reachable(c, ls);
    SweepExactly(c, ls, now, limit, out);
    BatchKnown(After(c, Init, ls), out);
    RefsCount(out);
  }

  /** A shutdown is handed exactly the open entries and shuts the table; one whose wait drained finds
      no request inside. */
  lemma ShutExactly(c: Config, ls: seq<Label>, pid: Pid, drained: bool, out: seq<Taken>, e: Ref)
    requires IsRun(c, Init, ls) && Can(c, After(c, Init, ls), ShutTake(pid, drained, out))
    ensures var s := After(c, Init, ls);
            && (e in Refs(out) <==> e < |s.t.entries| && s.t.entries[e].state == Open)
            && Apply(c, s, ShutTake(pid, drained, out)).t.shut
            && (drained ==> ShutBegin in ls && forall q :: q in s.procs ==> !IsRequest(s.procs[q]))
  {
    Reachable(c, ls);
    LatchRun(c, ls);
    assert forall q :: q in After(c, Init, ls).procs && IsRequest(After(c, Init, ls).procs[q]) ==>
                         q in Requests(After(c, Init, ls).procs);
    BatchKnown(After(c, Init, ls), out);
    OpenListed(After(c, Init, ls).t, out, e);
  }

  lemma OpenListed(t: Table, out: seq<Taken>, e: Ref)
    requires WellFormed(t) && LiveAreListed(t) && ShutdownPick(t, out)
    ensures e < |t.entries| && t.entries[e].state == Open ==> e in Refs(out)
  {
    if e < |t.entries| && t.entries[e].state == Open {
      var i :| 0 <= i < |out| && out[i].id == t.minted[e];
      assert out[i] in out && out[i].e == e;
    }
  }

  /** A request is let in exactly while the adapter is started and no stop began. */
  lemma {:induction false} LetInExactly(c: Config, ls: seq<Label>, run: string)
    requires IsRun(c, Init, ls)
    ensures var s := After(c, Init, ls);
            && (Can(c, s, EnterAdmit(run)) <==> Start in ls && ShutBegin !in ls)
            && (Can(c, s, EnterClient(run)) <==> Start in ls && ShutBegin !in ls)
  {
    Reachable(c, ls);
    LatchRun(c, ls);
  }

  lemma {:induction false} LatchRun(c: Config, ls: seq<Label>)
    requires IsRun(c, Init, ls)
    ensures var s := After(c, Init, ls); (s.started <==> Start in ls) && (s.latch.made <==> ShutBegin in ls)
    decreases |ls|
  {
    if ls != [] {
      var n := |ls| - 1;
      RunAt(c, Init, ls, n);
      LatchRun(c, ls[..n]);
      LatchStep(c, After(c, Init, ls[..n]), ls[n]);
      assert ls == ls[..n] + [ls[n]] && ls[n + 1..] == [];
    }
  }

  lemma LatchStep(c: Config, s: Sys, l: Label)
    requires Can(c, s, l)
    ensures var s' := Apply(c, s, l);
            (s'.started <==> s.started || l == Start) && (s'.latch.made <==> s.latch.made || l == ShutBegin)
  {
    if Mover(l).Some? {
      MoverStep(c, s, l);
    } else if !l.Start? {
      SpawnStep(c, s, l);
    }
  }
}
