/** The enforcement adapter as a transition system (adapters/enforce/ops.go,
    adapter.go and http.go over handles.go and stats.go). Every method of the
    handle table and of the latch is one critical section, and every call of the
    pipeline is one step, so a run is any interleaving of the steps below. The
    pipeline, the clock, the random handles and the clients are choices in the
    labels. */
module Lifecycle {
  import opened Options
  import opened Handles
  import opened Flights

  type Pid = nat

  datatype Config = Config(maxSpent: nat, maxPerRun: nat)

  /** The pipeline calls that close an execution. */
  datatype How = Completed | Aborted | GivenUp

  datatype Closed = Closed(x: Exec, how: How)

  /** Where a request, a sweep or a shutdown stands. */
  datatype Proc =
    | AdmitRead(run: string)                          // inside the handler, the body not read
    | AdmitAsk(run: string, key: string)              // slot and key reserved, the pipeline asked
    | AdmitMint(run: string, key: string, x: Exec)    // handed x, about to mint
    | AdmitUnminted(run: string, key: string, x: Exec)// the mint refused, x still to abandon
    | AdmitRelease(run: string, key: string)          // nothing handed out, the slot to give back
    | AdmitWrite(id: string, e: Ref)                  // minted, the answer being written
    | ClientRead(run: string)                         // a complete or an abort before its take
    | ClientClose(how: How, id: string, e: Ref)       // took the handle, the pipeline to call
    | ClientSpend(id: string, e: Ref, ending: Ending) // the pipeline answered, the handle to spend
    | Abandon(request: bool, todo: seq<Taken>, called: bool)
    | ShutWait                                        // a Shutdown waiting for requests in flight
    | Leave                                           // a request about to leave

  /** Where an execution is, kept as history: nothing the system does reads it. */
  datatype Home = AtProc(pid: Pid) | AtEntry(e: Ref) | Gone

  /** `closings` is every closing call the pipeline got, in order. `home`,
      `writer` and `closer` are history: where each execution is, which admit
      minted each entry, and which process was handed each entry being closed. */
  datatype Sys = Sys(t: Table, latch: Latch, started: bool, procs: map<Pid, Proc>, next: Pid, closings: seq<Closed>,
                     home: seq<Home>, writer: seq<Pid>, closer: map<Ref, Pid>)

  const Init := Sys(EmptyTable, NewLatch, false, map[], 0, [], [], [], map[])

  datatype Label =
    | Start
    | EnterAdmit(run: string)
    | EnterClient(run: string)
    | Malformed(pid: Pid)
    | DoReserve(pid: Pid, key: string)
    | PipelineHands(pid: Pid)
    | PipelineRefuses(pid: Pid)
    | DoMint(pid: Pid, expires: int, id: string)
    | AbandonUnminted(pid: Pid)
    | DoRelease(pid: Pid)
    | DoSettle(pid: Pid)
    | DoTake(pid: Pid, how: How, id: string, now: int)
    | DoClose(pid: Pid, ending: Ending)
    | DoSpend(pid: Pid)
    | AbandonCall(pid: Pid)
    | AbandonSpend(pid: Pid)
    | AbandonDone(pid: Pid)
    | DoLeave(pid: Pid)
    | SweepTake(now: int, limit: nat, out: seq<Taken>)
    | ShutBegin
    | ShutTake(pid: Pid, drained: bool, out: seq<Taken>)

  predicate IsRequest(p: Proc) {
    match p
    case ShutWait => false
    case Abandon(request, _, _) => request
    case _ => true
  }

  /** A step may be taken. It asks of a process only what the code it runs knows. */
  ghost predicate Can(c: Config, s: Sys, l: Label) {
    && WellFormed(s.t)
    && match l
       case Start => !s.started
       case EnterAdmit(_) => s.started && !s.latch.made
       case EnterClient(_) => s.started && !s.latch.made
       case Malformed(pid) => pid in s.procs && (s.procs[pid].AdmitRead? || s.procs[pid].ClientRead?)
       case DoReserve(pid, _) => pid in s.procs && s.procs[pid].AdmitRead?
       case PipelineHands(pid) => pid in s.procs && s.procs[pid].AdmitAsk?
       case PipelineRefuses(pid) => pid in s.procs && s.procs[pid].AdmitAsk?
       case DoMint(pid, _, id) => pid in s.procs && s.procs[pid].AdmitMint? && id !in s.t.byID
       case AbandonUnminted(pid) => pid in s.procs && s.procs[pid].AdmitUnminted?
       case DoRelease(pid) => pid in s.procs && s.procs[pid].AdmitRelease?
       case DoSettle(pid) => pid in s.procs && s.procs[pid].AdmitWrite? && s.procs[pid].e < |s.t.entries|
       case DoTake(pid, how, id, now) => pid in s.procs && s.procs[pid].ClientRead? && how != GivenUp
       case DoClose(pid, ending) =>
         && pid in s.procs && s.procs[pid].ClientClose? && HasExec(s, s.procs[pid].e)
         && ending != NoEnding && ending != Ending.Abandoned
       case DoSpend(pid) => pid in s.procs && s.procs[pid].ClientSpend? && s.procs[pid].e < |s.t.entries|
       case AbandonCall(pid) =>
         && pid in s.procs && s.procs[pid].Abandon? && !s.procs[pid].called && s.procs[pid].todo != []
         && HasExec(s, s.procs[pid].todo[0].e)
       case AbandonSpend(pid) =>
         && pid in s.procs && s.procs[pid].Abandon? && s.procs[pid].called && s.procs[pid].todo != []
         && s.procs[pid].todo[0].e < |s.t.entries|
       case AbandonDone(pid) => pid in s.procs && s.procs[pid].Abandon? && s.procs[pid].todo == []
       case DoLeave(pid) => pid in s.procs && s.procs[pid].Leave?
       case SweepTake(now, limit, out) => s.started && SweepPick(s.t, now, limit, out)
       case ShutBegin => true
       case ShutTake(pid, drained, out) =>
         pid in s.procs && s.procs[pid].ShutWait? && (drained ==> s.latch.closed) && ShutdownPick(s.t, out)
  }

  /** The disposition the entry still holds is an execution the pipeline knows. */
  predicate HasExec(s: Sys, e: Ref) {
    e < |s.t.entries| && s.t.entries[e].d.Some? && s.t.entries[e].d.value < |s.home|
  }

  function Go(s: Sys, pid: Pid, p: Proc): Sys {
    s.(procs := s.procs[pid := p])
  }

  function Spawn(s: Sys, p: Proc): Sys {
    s.(procs := s.procs[s.next := p], next := s.next + 1)
  }

  function Stop(s: Sys, pid: Pid): Sys {
    s.(procs := s.procs - {pid})
  }

  function CloseExec(s: Sys, x: Exec, how: How): Sys
    requires x < |s.home|
  {
    s.(closings := s.closings + [Closed(x, how)], home := s.home[x := Gone])
  }

  function Assign(closer: map<Ref, Pid>, refs: set<Ref>, pid: Pid): map<Ref, Pid> {
    closer + map e | e in refs :: pid
  }

  ghost function Apply(c: Config, s: Sys, l: Label): Sys
    requires Can(c, s, l)
  {
    match l
    case Start => s.(started := true)
    case EnterAdmit(run) => Spawn(s, AdmitRead(run)).(latch := Entered(s.latch))
    case EnterClient(run) => Spawn(s, ClientRead(run)).(latch := Entered(s.latch))
    case Malformed(pid) => Go(s, pid, Leave)
    case DoReserve(pid, key) =>
      var run := s.procs[pid].run;
      if ReserveCode(s.t, c.maxPerRun, run, key) == Granted
      then Go(s, pid, AdmitAsk(run, key)).(t := Reserve(s.t, run, key))
      else Go(s, pid, Leave)
    case PipelineHands(pid) =>
      Go(s, pid, AdmitMint(s.procs[pid].run, s.procs[pid].key, |s.home|)).(home := s.home + [AtProc(pid)])
    case PipelineRefuses(pid) => Go(s, pid, AdmitRelease(s.procs[pid].run, s.procs[pid].key))
    case DoMint(pid, expires, id) =>
      var p := s.procs[pid];
      if s.t.shut then Go(s, pid, AdmitUnminted(p.run, p.key, p.x))
      else Minted(s, pid, expires, id)
    case AbandonUnminted(pid) =>
      var p := s.procs[pid];
      if p.x < |s.home| then Go(CloseExec(s, p.x, GivenUp), pid, AdmitRelease(p.run, p.key)) else s
    case DoRelease(pid) => Go(s, pid, Leave).(t := Free(s.t, s.procs[pid].run, s.procs[pid].key))
    case DoSettle(pid) =>
      var p := s.procs[pid];
      if SettleTakes(s.t, p.e)
      then Go(s, pid, Abandon(true, [Taken(p.id, p.e)], false)).(t := Settle(s.t, p.e), closer := s.closer[p.e := pid])
      else Go(s, pid, Leave).(t := Settle(s.t, p.e))
    case DoTake(pid, how, id, now) =>
      if TakeCode(s.t, id, s.procs[pid].run, now) == Granted
      then Go(s, pid, ClientClose(how, id, s.t.byID[id]))
           .(t := Take(s.t, id, s.procs[pid].run, now), closer := s.closer[s.t.byID[id] := pid])
      else Go(s, pid, Leave)
    case DoClose(pid, ending) =>
      var p := s.procs[pid];
      Go(CloseExec(s, s.t.entries[p.e].d.value, p.how), pid, ClientSpend(p.id, p.e, ending))
    case DoSpend(pid) =>
      var p := s.procs[pid];
      Go(Spends(c, s, p.id, p.e, p.ending), pid, Leave)
    case AbandonCall(pid) =>
      var p := s.procs[pid];
      Go(CloseExec(s, s.t.entries[p.todo[0].e].d.value, GivenUp), pid, p.(called := true))
    case AbandonSpend(pid) =>
      var p := s.procs[pid];
      Go(Spends(c, s, p.todo[0].id, p.todo[0].e, Ending.Abandoned), pid, Abandon(p.request, p.todo[1..], false))
    case AbandonDone(pid) => if s.procs[pid].request then Go(s, pid, Leave) else Stop(s, pid)
    case DoLeave(pid) => Stop(s, pid).(latch := Left(s.latch))
    case SweepTake(now, limit, out) =>
      Spawn(s, Abandon(false, out, false)).(t := Sweep(s.t, now, out), closer := Assign(s.closer, Refs(out), s.next))
    case ShutBegin => Spawn(s, ShutWait).(latch := Stopping(s.latch))
    case ShutTake(pid, drained, out) =>
      var s' := s.(t := Shutdown(s.t, out));
      if s.started then Go(s', pid, Abandon(false, out, false)).(closer := Assign(s.closer, Refs(out), pid))
      else Stop(s', pid)
  }

  /** The mint of an admit the pipeline handed an execution. */
  function Minted(s: Sys, pid: Pid, expires: int, id: string): Sys
    requires pid in s.procs && s.procs[pid].AdmitMint?
  {
    var p := s.procs[pid];
    var e := |s.t.entries|;
    Go(s, pid, AdmitWrite(id, e))
      .(t := Mint(s.t, Entry(p.run, Some(p.x), expires, p.key, Minting, NoEnding), id),
        home := if p.x < |s.home| then s.home[p.x := AtEntry(e)] else s.home,
        writer := s.writer + [pid])
  }

  function Spends(c: Config, s: Sys, id: string, e: Ref, ending: Ending): Sys
    requires e < |s.t.entries|
  {
    s.(t := Spend(s.t, c.maxSpent, id, e, ending), closer := s.closer - {e})
  }

  // ---------------------------------------------------------------- runs

  /** The labels are steps that can be taken one after the other from s. */
  ghost predicate IsRun(c: Config, s: Sys, ls: seq<Label>)
    decreases |ls|
  {
    ls == [] || (Can(c, s, ls[0]) && IsRun(c, Apply(c, s, ls[0]), ls[1..]))
  }

  ghost function After(c: Config, s: Sys, ls: seq<Label>): Sys
    requires IsRun(c, s, ls)
    decreases |ls|
  {
    if ls == [] then s else After(c, Apply(c, s, ls[0]), ls[1..])
  }

  // ---------------------------------------------------------------- invariant

  /** Processes are numbered, and the latch counts the requests among them. */
  ghost predicate Counted(s: Sys) {
    && (forall pid :: pid in s.procs ==> pid < s.next)
    && LatchInv(s.latch)
    && s.latch.n == |Requests(s.procs)|
    && (!s.started ==> s.t.entries == [] && Requests(s.procs) == {})
  }

  function Requests(procs: map<Pid, Proc>): set<Pid> {
    set pid | pid in procs && IsRequest(procs[pid])
  }

  /** The process was handed entry e to close. */
  ghost predicate Closes(p: Proc, e: Ref) {
    match p
    case ClientClose(_, _, f) => f == e
    case ClientSpend(_, f, _) => f == e
    case Abandon(_, todo, _) => exists i :: 0 <= i < |todo| && todo[i].e == e
    case _ => false
  }

  /** The process made the pipeline's closing call for e and has not spent it. */
  predicate Called(p: Proc, e: Ref) {
    match p
    case ClientSpend(_, f, _) => f == e
    case Abandon(_, todo, called) => called && todo != [] && todo[0].e == e
    case _ => false
  }

  /** A process names the entries it holds by the handles they were minted under. */
  predicate Knows(t: Table, p: Proc) {
    match p
    case AdmitWrite(id, e) => e < |t.minted| && t.minted[e] == id
    case ClientClose(_, id, e) => e < |t.minted| && t.minted[e] == id
    case ClientSpend(id, e, _) => e < |t.minted| && t.minted[e] == id
    case Abandon(_, todo, called) =>
      && (forall i :: 0 <= i < |todo| ==> todo[i].e < |t.minted| && t.minted[todo[i].e] == todo[i].id)
      && (forall i, j :: 0 <= i < j < |todo| ==> todo[i].e != todo[j].e)
      && (called ==> todo != [])
    case _ => true
  }

  ghost predicate AllKnow(s: Sys) {
    forall pid :: pid in s.procs ==> Knows(s.t, s.procs[pid])
  }

  /** Exactly one process was handed each entry being closed, and none any other. */
  ghost predicate OneCloser(s: Sys) {
    && (forall e :: e in s.closer <==> 0 <= e < |s.t.entries| && s.t.entries[e].state == Closing)
    && HandedCloses(s)
    && ClosesHanded(s)
  }

  ghost predicate HandedCloses(s: Sys) {
    forall e :: e in s.closer ==> s.closer[e] in s.procs && Closes(s.procs[s.closer[e]], e)
  }

  ghost predicate ClosesHanded(s: Sys) {
    forall pid, e :: pid in s.procs && Closes(s.procs[pid], e) ==> e in s.closer && s.closer[e] == pid
  }

  /** An entry being minted has its admit still writing. */
  ghost predicate MintersWrite(s: Sys) {
    && |s.writer| == |s.t.entries| == |s.t.minted|
    && (forall e :: 0 <= e < |s.t.entries| && s.t.entries[e].state == Minting ==>
                    s.writer[e] in s.procs && s.procs[s.writer[e]] == AdmitWrite(s.t.minted[e], e))
  }

  ghost predicate Owned(s: Sys) {
    OneCloser(s) && MintersWrite(s) && AllKnow(s)
  }

  /** The entry holds an execution no closing call was made for. */
  ghost predicate Unclosed(s: Sys, e: Ref)
    requires e < |s.t.entries|
  {
    && s.t.entries[e].state != Spent
    && (e in s.closer && s.closer[e] in s.procs ==> !Called(s.procs[s.closer[e]], e))
  }

  predicate IsCarrier(p: Proc) {
    p.AdmitMint? || p.AdmitUnminted?
  }

  predicate Carries(p: Proc, x: Exec) {
    IsCarrier(p) && p.x == x
  }

  function Closings(cs: seq<Closed>, x: Exec): nat {
    if cs == [] then 0 else Closings(cs[..|cs| - 1], x) + (if cs[|cs| - 1].x == x then 1 else 0)
  }

  /** An admit was handed an execution it neither minted nor gave back. */
  ghost predicate CarriersPlaced(s: Sys) {
    && (forall pid :: pid in s.procs && IsCarrier(s.procs[pid]) ==>
                      s.procs[pid].x < |s.home| && s.home[s.procs[pid].x] == AtProc(pid))
    && (forall x :: 0 <= x < |s.home| && s.home[x].AtProc? ==>
        s.home[x].pid in s.procs && Carries(s.procs[s.home[x].pid], x))
  }

  ghost predicate EntriesPlaced(s: Sys) {
    && (forall e :: 0 <= e < |s.t.entries| && s.t.entries[e].state != Spent ==> HasExec(s, e))
    && (forall e :: 0 <= e < |s.t.entries| && Unclosed(s, e) ==> s.home[s.t.entries[e].d.value] == AtEntry(e))
    && (forall x :: 0 <= x < |s.home| && s.home[x].AtEntry? ==>
                    s.home[x].e < |s.t.entries| && Unclosed(s, s.home[x].e) && s.t.entries[s.home[x].e].d == Some(x))
  }

  /** An execution is gone exactly when its one closing call was made. */
  ghost predicate ClosedOnce(s: Sys) {
    && (forall x :: 0 <= x < |s.home| ==> Closings(s.closings, x) == if s.home[x].Gone? then 1 else 0)
    && (forall i :: 0 <= i < |s.closings| ==> s.closings[i].x < |s.home|)
  }

  /** Every execution is in one place until its one closing call. */
  ghost predicate Placed(s: Sys) {
    CarriersPlaced(s) && EntriesPlaced(s) && ClosedOnce(s)
  }

  /** Who holds a slot of a run: an admit in flight or an entry not yet spent. */
  datatype Holder = ByProc(pid: Pid) | ByEntry(e: Ref)

  predicate Reserved(p: Proc) {
    p.AdmitAsk? || p.AdmitMint? || p.AdmitUnminted? || p.AdmitRelease?
  }

  function Holders(s: Sys): set<Holder> {
    (set pid | pid in s.procs && Reserved(s.procs[pid]) :: ByProc(pid))
    + (set e | 0 <= e < |s.t.entries| && s.t.entries[e].state != Spent :: ByEntry(e))
  }

  function Holding(s: Sys, h: Holder): KeyRef
    requires h in Holders(s)
  {
    match h
    case ByProc(pid) => KeyRef(s.procs[pid].run, s.procs[pid].key)
    case ByEntry(e) => KeyRef(s.t.entries[e].run, s.t.entries[e].key)
  }

  /** The run and the request key of every live holder. */
  function Holdings(s: Sys): map<Holder, KeyRef> {
    map h | h in Holders(s) :: Holding(s, h)
  }

  function HoldersOf(held: map<Holder, KeyRef>, run: string): set<Holder> {
    set h | h in held && held[h].run == run
  }

  /** A run's count is how many hold a slot of it, and within the bound. */
  ghost predicate SlotsHeld(c: Config, t: Table, held: map<Holder, KeyRef>) {
    && (forall run :: Count(t.perRun, run) == |HoldersOf(held, run)|)
    && (forall run :: run in t.perRun ==> 0 < t.perRun[run] <= c.maxPerRun)
  }

  /** The request keys held are those of the live holders, no two of them alike. */
  ghost predicate KeysHeld(t: Table, held: map<Holder, KeyRef>) {
    && (forall h :: h in held && held[h].key != "" ==> held[h] in t.keys)
    && (forall k :: k in t.keys ==> k.key != "" && exists h :: h in held && held[h] == k)
    && (forall h, g :: h in held && g in held && h != g && held[h].key != "" ==> held[h] != held[g])
  }

  ghost predicate Conserved(c: Config, t: Table, held: map<Holder, KeyRef>) {
    SlotsHeld(c, t, held) && KeysHeld(t, held)
  }

  /** The latch is shut before anything is taken for a shutdown. */
  ghost predicate Ordered(s: Sys) {
    && (s.t.shut ==> s.latch.made)
    && (forall pid :: pid in s.procs && s.procs[pid].ShutWait? ==> s.latch.made)
  }

  ghost predicate Inv(c: Config, s: Sys) {
    && TableInv(s.t, c.maxSpent)
    && Counted(s)
    && Ordered(s)
    && Owned(s)
    && Placed(s)
    && Conserved(c, s.t, Holdings(s))
  }
}
