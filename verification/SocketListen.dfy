/** Who may hold the enforcement socket (adapters/enforce/listen_unix.go and
    socketlock_flock.go): a receiver locks the file beside the socket, clears a
    stale socket, binds, checks what it bound, and releases the lock once its
    listener is closed. A receiver may crash between any two steps; the kernel
    then drops its lock and the socket stays behind. A dial may report a refusal
    whether or not a receiver lives. */
module SocketListen {
  import opened Options

  type Pid = nat

  /** What stands at the socket's path. */
  datatype AtPath = Absent | Foreign | Socket(binder: Pid)

  datatype Receiver =
    | Locked                 // holds the lock, about to look at the path
    | Dialling               // found a socket there
    | Removing               // the dial was refused
    | Binding                // nothing at the path, as far as it saw
    | Checking               // bound, the mode and the owner still to check
    | Listening(served: bool)
    | Unlinked               // closing: the path removed, the descriptor open
    | Releasing              // closed or refused, the lock to release

  datatype Answer = Refused | Answered | Failed

  /** served lists the listeners Serve took. locking is false only in the
      counterexample below, where receivers run the protocol without the lock. */
  datatype World = World(locking: bool, lock: Option<Pid>, path: AtPath, live: map<Pid, Receiver>, next: Pid,
      served: seq<Pid>)

  datatype Step =
    | Lock
    | Look(pid: Pid, readable: bool)
    | Dial(pid: Pid, answer: Answer)
    | Remove(pid: Pid, ok: bool)
    | Bind(pid: Pid)
    | Check(pid: Pid, ok: bool)
    | Claim(pid: Pid)
    | Close(pid: Pid)
    | CloseDescriptor(pid: Pid)
    | Release(pid: Pid)
    | Crash(pid: Pid)
    | PutForeign
    | DropForeign

  predicate HasSocket(r: Receiver) {
    r.Checking? || r.Listening?
  }

  predicate Can(w: World, s: Step) {
    match s
    case Lock => w.locking ==> w.lock.None?
    case Look(pid, _) => pid in w.live && w.live[pid].Locked?
    case Dial(pid, _) => pid in w.live && w.live[pid].Dialling?
    case Remove(pid, _) => pid in w.live && w.live[pid].Removing?
    case Bind(pid) => pid in w.live && w.live[pid].Binding?
    case Check(pid, _) => pid in w.live && w.live[pid].Checking?
    case Claim(pid) => pid in w.live && w.live[pid].Listening?
    case Close(pid) => pid in w.live && w.live[pid].Listening?
    case CloseDescriptor(pid) => pid in w.live && w.live[pid].Unlinked?
    case Release(pid) => pid in w.live && w.live[pid].Releasing?
    case Crash(pid) => pid in w.live
    case PutForeign => w.path.Absent?
    case DropForeign => w.path.Foreign?
  }

  function Go(w: World, pid: Pid, r: Receiver): World {
    w.(live := w.live[pid := r])
  }

  function Gone(w: World, pid: Pid): World {
    w.(live := w.live - {pid}, lock := if w.lock == Some(pid) then None else w.lock)
  }

  function Apply(w: World, s: Step): World
    requires Can(w, s)
  {
    match s
    case Lock =>
      w.(lock := if w.locking then Some(w.next) else w.lock, live := w.live[w.next := Locked], next := w.next + 1)
    case Look(pid, readable) =>
      if w.path.Absent? then Go(w, pid, Binding)
      else if readable && w.path.Socket? then Go(w, pid, Dialling)
      else Go(w, pid, Releasing)
    case Dial(pid, answer) => Go(w, pid, if answer == Refused then Removing else Releasing)
    case Remove(pid, ok) => if ok then Go(w.(path := Absent), pid, Binding) else Go(w, pid, Releasing)
    case Bind(pid) => if w.path.Absent? then Go(w.(path := Socket(pid)), pid, Checking) else Go(w, pid, Releasing)
    case Check(pid, ok) => if ok then Go(w, pid, Listening(false)) else Go(w.(path := Absent), pid, Unlinked)
    case Claim(pid) =>
      if w.live[pid].served then w else Go(w, pid, Listening(true)).(served := w.served + [pid])
    case Close(pid) => Go(w.(path := Absent), pid, Unlinked)
    case CloseDescriptor(pid) => Go(w, pid, Releasing)
    case Release(pid) => Gone(w, pid)
    case Crash(pid) => Gone(w, pid)
    case PutForeign => w.(path := Foreign)
    case DropForeign => w.(path := Absent)
  }

  predicate IsRun(w: World, ss: seq<Step>)
    decreases |ss|
  {
    ss == [] || (Can(w, ss[0]) && IsRun(Apply(w, ss[0]), ss[1..]))
  }

  function After(w: World, ss: seq<Step>): World
    requires IsRun(w, ss)
    decreases |ss|
  {
    if ss == [] then w else After(Apply(w, ss[0]), ss[1..])
  }

  /** The start: nobody lives, whatever a receiver before left at the path. */
  predicate IsStart(w: World) {
    w.locking && w.lock == None && w.live == map[] && w.served == [] && (w.path.Socket? ==> w.path.binder < w.next)
  }

  ghost predicate Inv(w: World) {
    Exclusive(w) && ServedOnce(w)
  }

  /** Who lives holds the lock, and the path is the binder's. */
  ghost predicate Exclusive(w: World) {
    && w.locking
    && (forall pid :: pid in w.live ==> w.lock == Some(pid) && pid < w.next)
    && (forall pid :: pid in w.live && HasSocket(w.live[pid]) ==> w.path == Socket(pid))
    && (forall pid :: pid in w.live && w.live[pid].Binding? ==> !(w.path.Socket? && w.path.binder in w.live))
    && (w.path.Socket? ==> w.path.binder < w.next)
    && (forall pid :: pid in w.live && (w.live[pid].Dialling? || w.live[pid].Removing?) ==> w.path.Socket?)
  }

  ghost predicate ServedOnce(w: World) {
    && (forall i :: 0 <= i < |w.served| ==> w.served[i] < w.next)
    && (forall pid :: pid in w.live && w.live[pid].Listening? ==> (w.live[pid].served <==> pid in w.served))
    && (forall pid :: pid in w.live && pid in w.served ==>
        w.live[pid].Listening? || w.live[pid].Unlinked? || w.live[pid].Releasing?)
    && (forall i, j :: 0 <= i < j < |w.served| ==> w.served[i] != w.served[j])
  }

  lemma StepInv(w: World, s: Step)
    requires Inv(w) && Can(w, s)
    ensures Inv(Apply(w, s))
  {
    ExclusiveStep(w, s);
    ServedStep(w, s);
  }

  lemma ExclusiveStep(w: World, s: Step)
    requires Exclusive(w) && Can(w, s)
    ensures Exclusive(Apply(w, s))
  {
  }

  lemma ServedStep(w: World, s: Step)
    requires Exclusive(w) && ServedOnce(w) && Can(w, s)
    ensures ServedOnce(Apply(w, s))
  {
    if s.Claim? {
      ServedClaim(w, s);
    } else {
      ServedOther(w, s);
    }
  }

  lemma ServedClaim(w: World, s: Step)
    requires Exclusive(w) && ServedOnce(w) && Can(w, s) && s.Claim?
    ensures ServedOnce(Apply(w, s))
  {
  }

  lemma ServedOther(w: World, s: Step)
    requires Exclusive(w) && ServedOnce(w) && Can(w, s) && !s.Claim?
    ensures ServedOnce(Apply(w, s))
  {
  }

  lemma {:induction false} RunInv(w: World, ss: seq<Step>)
    requires Inv(w) && IsRun(w, ss)
    ensures Inv(After(w, ss))
    decreases |ss|
  {
    if ss != [] {
      StepInv(w, ss[0]);
      RunInv(Apply(w, ss[0]), ss[1..]);
    }
  }

  /** In every run at most one receiver lives past the lock, a listener's own
      socket stands at the path for as long as it listens, and no listener is
      served twice. */
  lemma AtMostOneListener(w: World, ss: seq<Step>)
    requires IsStart(w) && IsRun(w, ss)
    ensures var e := After(w, ss);
            && (forall p, q :: p in e.live && q in e.live ==> p == q)
            && (forall p :: p in e.live && HasSocket(e.live[p]) ==> e.path == Socket(p))
            && (forall i, j :: 0 <= i < j < |e.served| ==> e.served[i] != e.served[j])
  {
    RunInv(w, ss);
  }

  /** The step takes away a socket that a receiver other than the one removing it
      is bound to. */
  predicate RemovesLive(w: World, s: Step)
    requires Can(w, s)
  {
    && w.path.Socket? && Apply(w, s).path != w.path
    && w.path.binder in w.live && HasSocket(w.live[w.path.binder])
    && !((s.Close? || s.Check?) && s.pid == w.path.binder)
  }

  /** Whatever the dial answered, no step of any run removes a living receiver's
      socket, its own closing aside. */
  lemma NeverRemovesLive(w: World, ss: seq<Step>, s: Step)
    requires IsStart(w) && IsRun(w, ss) && Can(After(w, ss), s)
    ensures !RemovesLive(After(w, ss), s)
  {
    RunInv(w, ss);
  }

  /** No step of a receiver touches what is not a socket: in every run a foreign file stays
      where it is until whoever put it there takes it away. */
  lemma ForeignLeftAlone(w: World, ss: seq<Step>, s: Step)
    requires IsStart(w) && IsRun(w, ss) && Can(After(w, ss), s)
    requires After(w, ss).path.Foreign? && !s.DropForeign?
    ensures Apply(After(w, ss), s).path.Foreign?
  {
    RunInv(w, ss);
  }

  /** In every run a receiver removes a socket only once its own dial of it was refused. */
  lemma {:induction false} RemovesOnlyRefused(w: World, ss: seq<Step>, pid: Pid)
    requires IsStart(w) && IsRun(w, ss) && pid in After(w, ss).live && After(w, ss).live[pid].Removing?
    ensures Dial(pid, Refused) in ss && After(w, ss).path.Socket?
  {
    RunInv(w, ss);
    RefusedSince(w, ss, pid);
  }

  lemma {:induction false} RefusedSince(w: World, ss: seq<Step>, pid: Pid)
    requires IsRun(w, ss) && pid in After(w, ss).live && After(w, ss).live[pid].Removing?
    ensures Dial(pid, Refused) in ss || (pid in w.live && w.live[pid].Removing?)
    decreases |ss|
  {
    if ss != [] {
      RefusedSince(Apply(w, ss[0]), ss[1..], pid);
      if Dial(pid, Refused) !in ss[1..] {
        BecomesRemoving(w, ss[0], pid);
      }
    }
  }

  lemma BecomesRemoving(w: World, s: Step, pid: Pid)
    requires Can(w, s) && pid in Apply(w, s).live && Apply(w, s).live[pid].Removing?
    ensures s == Dial(pid, Refused) || (pid in w.live && w.live[pid].Removing?)
  {
  }

  predicate IsStepOf(s: Step, pid: Pid) {
    !s.Lock? && !s.PutForeign? && !s.DropForeign? && s.pid == pid
  }

  /** A receiver that only has its lock to give back, or is gone. */
  predicate Leaving(w: World, pid: Pid) {
    pid < w.next && (pid in w.live ==> w.live[pid].Releasing?)
  }

  lemma LeavingStep(w: World, s: Step, pid: Pid)
    requires Can(w, s) && Leaving(w, pid)
    ensures Leaving(Apply(w, s), pid) && (IsStepOf(s, pid) ==> Apply(w, s).path == w.path)
  {
  }

  lemma {:induction false} LeavesPath(w: World, ss: seq<Step>, pid: Pid, s: Step)
    requires IsRun(w, ss) && Leaving(w, pid) && Can(After(w, ss), s) && IsStepOf(s, pid)
    ensures Apply(After(w, ss), s).path == After(w, ss).path
    decreases |ss|
  {
    if ss == [] {
      LeavingStep(w, s, pid);
    } else {
      LeavingStep(w, ss[0], pid);
      LeavesPath(Apply(w, ss[0]), ss[1..], pid, s);
    }
  }

  /** A socket that answers, or whose dial fails in any way but a refusal, is left alone: from then
      on no step of that receiver changes the path. */
  lemma AnsweredLeftAlone(w: World, before: seq<Step>, pid: Pid, answer: Answer, after: seq<Step>, s: Step)
    requires IsStart(w) && IsRun(w, before) && Can(After(w, before), Dial(pid, answer)) && answer != Refused
    requires var d := Apply(After(w, before), Dial(pid, answer));
             IsRun(d, after) && Can(After(d, after), s) && IsStepOf(s, pid)
    ensures var d := Apply(After(w, before), Dial(pid, answer));
            d.path == After(w, before).path && Apply(After(d, after), s).path == After(d, after).path
  {
    RunInv(w, before);
    LeavesPath(Apply(After(w, before), Dial(pid, answer)), after, pid, s);
  }

  /** The path's socket is a living receiver's, or one left by a crash or from before n; the lock is
      held by a receiver that lives; and served are those and the claims. */
  ghost predicate Left(w: World, n: Pid, crashed: set<Pid>, claims: set<Pid>) {
    && (w.path.Socket? ==>
          || w.path.binder < n || w.path.binder in crashed
          || (w.path.binder in w.live && HasSocket(w.live[w.path.binder])))
    && (w.lock.Some? ==> w.lock.value in w.live)
    && (forall pid :: pid in w.served <==> pid in claims)
  }

  function CrashedIn(ss: seq<Step>): set<Pid> {
    set s | s in ss && s.Crash? :: s.pid
  }

  function ClaimedIn(ss: seq<Step>): set<Pid> {
    set s | s in ss && s.Claim? :: s.pid
  }

  lemma LeftStep(w: World, s: Step, n: Pid, crashed: set<Pid>, claims: set<Pid>)
    requires Inv(w) && Can(w, s) && Left(w, n, crashed, claims)
    ensures Left(Apply(w, s), n, if s.Crash? then crashed + {s.pid} else crashed,
                 if s.Claim? then claims + {s.pid} else claims)
  {
  }

  lemma {:induction false} LeftRun(w: World, ss: seq<Step>, n: Pid, crashed: set<Pid>, claims: set<Pid>)
    requires Inv(w) && IsRun(w, ss) && Left(w, n, crashed, claims)
    ensures Left(After(w, ss), n, crashed + CrashedIn(ss), claims + ClaimedIn(ss))
    decreases |ss|
  {
    if ss == [] {
      assert crashed + CrashedIn(ss) == crashed && claims + ClaimedIn(ss) == claims;
    } else {
      var s, rest := ss[0], ss[1..];
      LeftStep(w, s, n, crashed, claims);
      StepInv(w, s);
      var crashed', claims' := if s.Crash? then crashed + {s.pid} else crashed,
                               if s.Claim? then claims + {s.pid} else claims;
      LeftRun(Apply(w, s), rest, n, crashed', claims');
      assert ss == [s] + rest;
      assert crashed + CrashedIn(ss) == crashed' + CrashedIn(rest);
      assert claims + ClaimedIn(ss) == claims' + ClaimedIn(rest);
    }
  }

  /** In every run a socket is left behind only by a crash, or from before: a receiver that closed or
      was refused left none of its own. The lock can be taken exactly when nobody lives, and
      the listeners served are exactly those claimed. */
  lemma LeftOnlyByCrash(w: World, ss: seq<Step>)
    requires IsStart(w) && IsRun(w, ss)
    ensures var e := After(w, ss);
            && (e.path.Socket? && !(e.path.binder in e.live && HasSocket(e.live[e.path.binder])) ==>
                  e.path.binder < w.next || Crash(e.path.binder) in ss)
            && (Can(e, Lock) <==> e.live == map[])
            && (forall pid :: pid in e.served <==> Claim(pid) in ss)
  {
    RunInv(w, ss);
    LeftRun(w, ss, w.next, {}, {});
    var e := After(w, ss);
    assert forall pid :: pid in ClaimedIn(ss) <==> Claim(pid) in ss;
    if e.live == map[] {
      assert e.lock == None;
    } else {
      var pid :| pid in e.live;
    }
  }

  /** What a receiver alone does, when every file operation succeeds and a dial is answered so. */
  function Alone(w: World, answer: Answer): seq<Step> {
    var n := w.next;
    if w.path.Absent? then [Lock, Look(n, true), Bind(n), Check(n, true)]
    else if w.path.Foreign? then [Lock, Look(n, true)]
    else if answer != Refused then [Lock, Look(n, true), Dial(n, answer)]
    else [Lock, Look(n, true), Dial(n, Refused), Remove(n, true), Bind(n), Check(n, true)]
  }

  /** A receiver alone comes to listen if and only if nothing stands at the path or a socket that
      refuses; otherwise it leaves the path as it found it. */
  lemma ListensExactly(w: World, answer: Answer)
    requires Inv(w) && w.lock == None
    ensures IsRun(w, Alone(w, answer))
    ensures var e := After(w, Alone(w, answer));
            w.next in e.live &&
            if w.path.Absent? || (w.path.Socket? && answer == Refused)
            then e.live[w.next] == Listening(false) && e.path == Socket(w.next)
            else e.live[w.next] == Releasing && e.path == w.path
  {
    var n := w.next;
    var ss := Extend(w, [], Lock);
    ss := Extend(w, ss, Look(n, true));
    if w.path.Socket? {
      ss := Extend(w, ss, Dial(n, answer));
      if answer == Refused {
        ss := Extend(w, ss, Remove(n, true));
        ss := Binds(w, ss, n);
      }
    } else if w.path.Absent? {
      ss := Binds(w, ss, n);
    }
    assert ss == Alone(w, answer);
  }

  lemma Binds(w: World, ss: seq<Step>, n: Pid) returns (r: seq<Step>)
    requires IsRun(w, ss) && n in After(w, ss).live && After(w, ss).live[n].Binding? && After(w, ss).path.Absent?
    ensures r == ss + [Bind(n)] + [Check(n, true)] && IsRun(w, r)
    ensures var e := After(w, r); n in e.live && e.live[n] == Listening(false) && e.path == Socket(n)
  {
    r := Extend(w, ss, Bind(n));
    r := Extend(w, r, Check(n, true));
  }

  /** The same protocol without the lock: a receiver listens, a second one is
      told its connection was refused, removes the first one's socket and listens
      beside it. */
  lemma UnsafeWithoutLock() returns (ss: seq<Step>)
    ensures var w := World(false, None, Absent, map[], 0, []);
            && IsRun(w, ss)
            && 0 in After(w, ss).live && 1 in After(w, ss).live
            && After(w, ss).live[0].Listening? && After(w, ss).live[1].Listening?
  {
    var w := World(false, None, Absent, map[], 0, []);
    ss := [];
    ss := Extend(w, ss, Lock);
    ss := Extend(w, ss, Look(0, true));
    ss := Extend(w, ss, Bind(0));
    ss := Extend(w, ss, Check(0, true));
    assert After(w, ss) == World(false, None, Socket(0), map[0 := Listening(false)], 1, []);
    ss := Extend(w, ss, Lock);
    ss := Extend(w, ss, Look(1, true));
    ss := Extend(w, ss, Dial(1, Refused));
    assert RemovesLive(After(w, ss), Remove(1, true));
    ss := Extend(w, ss, Remove(1, true));
    ss := Extend(w, ss, Bind(1));
    ss := Extend(w, ss, Check(1, true));
  }

  lemma {:induction false} Extend(w: World, ss: seq<Step>, s: Step) returns (r: seq<Step>)
    requires IsRun(w, ss) && Can(After(w, ss), s)
    ensures IsRun(w, r) && After(w, r) == Apply(After(w, ss), s)
    ensures r == ss + [s]
    decreases |ss|
  {
    r := ss + [s];
    if ss == [] {
      assert r[1..] == [];
    } else {
      var rest := Extend(Apply(w, ss[0]), ss[1..], s);
      assert r[1..] == rest;
    }
  }
}
