/** Signers of a roster racing on one output file (cmd/guardana-control/operators.go):
    what a signer replaces is what it first read, and serials of one root and
    roster id only rise. */
module Rosters {
  import opened Options

  type Bytes = seq<nat>

  datatype Signature = Signature(keyId: string, signature: Bytes)

  datatype Envelope = Envelope(payloadType: string, payload: Bytes, signatures: seq<Signature>)

  datatype Document = Document(id: string, serial: int)

  type Root = nat

  /** What an envelope says when it verifies under a root. */
  type Verifier = (Envelope, Root) -> Option<Document>

  /** What one signer is to write. */
  datatype Job = Job(root: Root, next: Document, env: Envelope)

  /** Signing verifies what it signed before anything is written. */
  predicate Signed(v: Verifier, job: Job) {
    v(job.env, job.root) == Some(job.next)
  }

  function SameSignatures(a: seq<Signature>, b: seq<Signature>): bool {
    if |a| != |b| then false
    else if a == [] then true
    else a[0].keyId == b[0].keyId && a[0].signature == b[0].signature && SameSignatures(a[1..], b[1..])
  }

  predicate SameEnvelope(a: Option<Envelope>, b: Option<Envelope>) {
    if a == None || b == None then a == None && b == None
    else
      && a.value.payloadType == b.value.payloadType
      && a.value.payload == b.value.payload
      && SameSignatures(a.value.signatures, b.value.signatures)
  }

  /** The refusal of a serial not above the one held, by the same root and id. */
  predicate Higher(v: Verifier, prev: Option<Envelope>, job: Job) {
    prev == None ||
    match v(prev.value, job.root)
    case None => true
    case Some(held) => held.id != job.next.id || held.serial < job.next.serial
  }

  // ---------------------------------------------------------------- the steps

  /** What stands at the output path. */
  datatype File = Absent | Roster(env: Envelope) | Other

  function Prev(f: File): Option<Envelope> {
    if f.Roster? then Some(f.env) else None
  }

  datatype Phase =
    | Seen(job: Job, read: Option<Envelope>)
    | Locked(job: Job, read: Option<Envelope>)
    | Ready(job: Job, read: Option<Envelope>)
    | Unlocking
    | Over

  datatype Change = Change(signer: nat, job: Job, read: Option<Envelope>, before: File)

  /** changes is every replacement made, oldest first. */
  datatype Sys = Sys(file: File, lock: Option<nat>, signers: map<nat, Phase>, changes: seq<Change>)

  /** A replacement can fail before the rename or after it. */
  datatype Fate = Written | FailedBefore | FailedAfter

  datatype Label =
    | Begin(p: nat, job: Job)
    | TakeLock(p: nat)
    | GiveUp(p: nat)
    | Recheck(p: nat)
    | Replace(p: nat, fate: Fate)
    | Unlock(p: nat)
    | Crash(p: nat)

  predicate Can(v: Verifier, s: Sys, l: Label) {
    match l
    case Begin(p, job) => p !in s.signers && Signed(v, job)
    case TakeLock(p) => p in s.signers && s.signers[p].Seen? && s.lock == None
    case GiveUp(p) => p in s.signers && s.signers[p].Seen?
    case Recheck(p) => p in s.signers && s.signers[p].Locked?
    case Replace(p, _) => p in s.signers && s.signers[p].Ready?
    case Unlock(p) => p in s.signers && s.signers[p].Unlocking?
    case Crash(p) => p in s.signers && !s.signers[p].Over?
  }

  /** The checks made with the lock held. */
  predicate Rechecks(v: Verifier, file: File, job: Job, read: Option<Envelope>) {
    !file.Other? && Higher(v, Prev(file), job) && SameEnvelope(read, Prev(file))
  }

  function Apply(v: Verifier, s: Sys, l: Label): Sys
    requires Can(v, s, l)
  {
    match l
    case Begin(p, job) =>
      s.(signers := s.signers[p := if !s.file.Other?
          && Higher(v, Prev(s.file), job) then Seen(job, Prev(s.file)) else Over])
    case TakeLock(p) => s.(lock := Some(p), signers := s.signers[p := Locked(s.signers[p].job, s.signers[p].read)])
    case GiveUp(p) => s.(signers := s.signers[p := Over])
    case Recheck(p) =>
      var job, read := s.signers[p].job, s.signers[p].read;
      s.(signers := s.signers[p := if Rechecks(v, s.file, job, read) then Ready(job, read) else Unlocking])
    case Replace(p, fate) =>
      var job, read := s.signers[p].job, s.signers[p].read;
      if fate == FailedBefore then s.(signers := s.signers[p := Unlocking])
      else s.(file := Roster(job.env), signers := s.signers[p := Unlocking],
              changes := s.changes + [Change(p, job, read, s.file)])
    case Unlock(p) => s.(lock := None, signers := s.signers[p := Over])
    case Crash(p) => s.(lock := if s.lock == Some(p) then None else s.lock, signers := s.signers[p := Over])
  }

  predicate IsRun(v: Verifier, s: Sys, ls: seq<Label>)
    decreases |ls|
  {
    ls == [] || (Can(v, s, ls[0]) && IsRun(v, Apply(v, s, ls[0]), ls[1..]))
  }

  function After(v: Verifier, s: Sys, ls: seq<Label>): Sys
    requires IsRun(v, s, ls)
    decreases |ls|
  {
    if ls == [] then s else After(v, Apply(v, s, ls[0]), ls[1..])
  }

  function Start(file: File): Sys {
    Sys(file, None, map[], [])
  }

  // ---------------------------------------------------------------- what every step keeps

  /** What the file held once changes was made to it. */
  function FileAfter(first: File, changes: seq<Change>): File {
    if changes == [] then first else Roster(changes[|changes| - 1].job.env)
  }

  ghost predicate PhaseOk(v: Verifier, s: Sys, p: nat)
    requires p in s.signers
  {
    var at := s.signers[p];
    && (at.Seen? || at.Locked? || at.Ready? ==> Signed(v, at.job))
    && (at.Locked? || at.Ready? || at.Unlocking? ==> s.lock == Some(p))
    && (at.Ready? ==> !s.file.Other? && at.read == Prev(s.file) && Higher(v, at.read, at.job))
  }

  /** The change replaced the very envelope its signer first read, and one no serial forbids. */
  ghost predicate ChangeOk(v: Verifier, c: Change) {
    Signed(v, c.job) && !c.before.Other? && c.read == Prev(c.before) && Higher(v, c.read, c.job)
  }

  /** What the file held when the change numbered i was made. */
  function Before(first: File, changes: seq<Change>, i: nat): File
    requires i < |changes|
  {
    if i == 0 then first else Roster(changes[i - 1].job.env)
  }

  ghost predicate Chained(first: File, changes: seq<Change>) {
    forall i {:trigger Before(first, changes, i)} :: 0 <= i < |changes| ==>
      changes[i].before == Before(first, changes, i)
  }

  ghost predicate Inv(v: Verifier, first: File, s: Sys) {
    && s.file == FileAfter(first, s.changes)
    && Chained(first, s.changes)
    && (forall p :: p in s.signers ==> PhaseOk(v, s, p))
    && (forall c :: c in s.changes ==> ChangeOk(v, c))
  }

  lemma {:induction false} SameSignaturesEqual(a: seq<Signature>, b: seq<Signature>)
    ensures SameSignatures(a, b) <==> a == b
  {
    if |a| == |b| && a != [] {
      SameSignaturesEqual(a[1..], b[1..]);
      assert a == [a[0]] + a[1..] && b == [b[0]] + b[1..];
    }
  }

  /** Compared field by field and signature by signature, only equal envelopes are the same. */
  lemma SameIsEqual(a: Option<Envelope>, b: Option<Envelope>)
    ensures SameEnvelope(a, b) <==> a == b
  {
    if a != None && b != None {
      SameSignaturesEqual(a.value.signatures, b.value.signatures);
    }
  }

  lemma ChainedWith(first: File, changes: seq<Change>, c: Change)
    requires Chained(first, changes) && c.before == FileAfter(first, changes)
    ensures Chained(first, changes + [c])
  {
    var after := changes + [c];
    forall i | 0 <= i < |after|
      ensures after[i].before == Before(first, after, i)
    {
      if i < |changes| {
        assert changes[i].before == Before(first, changes, i);
      }
    }
  }

  lemma ReplaceStep(v: Verifier, first: File, s: Sys, p: nat, fate: Fate)
    requires Inv(v, first, s) && Can(v, s, Replace(p, fate)) && fate != FailedBefore
    ensures Inv(v, first, Apply(v, s, Replace(p, fate)))
  {
    var t := Apply(v, s, Replace(p, fate));
    assert PhaseOk(v, s, p);
    var c := Change(p, s.signers[p].job, s.signers[p].read, s.file);
    ChainedWith(first, s.changes, c);
    assert ChangeOk(v, c);
    forall q | q in t.signers
      ensures PhaseOk(v, t, q)
    {
      assert PhaseOk(v, s, q);
    }
  }

  lemma StepInv(v: Verifier, first: File, s: Sys, l: Label)
    requires Inv(v, first, s) && Can(v, s, l)
    ensures Inv(v, first, Apply(v, s, l))
  {
    if l.Replace? && l.fate != FailedBefore {
      ReplaceStep(v, first, s, l.p, l.fate);
    } else {
      var t := Apply(v, s, l);
      if l.Recheck? {
        SameIsEqual(s.signers[l.p].read, Prev(s.file));
      }
      forall q | q in t.signers
        ensures PhaseOk(v, t, q)
      {
        assert q in s.signers ==> PhaseOk(v, s, q);
        assert l.p in s.signers ==> PhaseOk(v, s, l.p);
      }
    }
  }

  lemma {:induction false} RunInv(v: Verifier, first: File, s: Sys, ls: seq<Label>)
    requires Inv(v, first, s) && IsRun(v, s, ls)
    ensures Inv(v, first, After(v, s, ls))
    decreases |ls|
  {
    if ls != [] {
      StepInv(v, first, s, ls[0]);
      RunInv(v, first, Apply(v, s, ls[0]), ls[1..]);
    }
  }

  // ---------------------------------------------------------------- the results

  /** In every run each change replaced exactly what its signer read before it took the lock,
      the changes follow one another with nothing lost between, and a file that is
      no roster is never replaced. */
  lemma ReplacesWhatItRead(v: Verifier, first: File, ls: seq<Label>, i: nat)
    requires IsRun(v, Start(first), ls)
    requires i < |After(v, Start(first), ls).changes|
    ensures var cs := After(v, Start(first), ls).changes;
            && !first.Other?
            && cs[i].read == Prev(cs[i].before)
            && cs[i].before == if i == 0 then first else Roster(cs[i - 1].job.env)
  {
    RunInv(v, first, Start(first), ls);
    var cs := After(v, Start(first), ls).changes;
    assert ChangeOk(v, cs[i]) && ChangeOk(v, cs[0]);
    assert cs[i].before == Before(first, cs, i) && cs[0].before == Before(first, cs, 0);
  }

  predicate OfOne(c: Change, root: Root, id: string) {
    c.job.root == root && c.job.next.id == id
  }

  lemma NextRises(v: Verifier, first: File, s: Sys, j: nat, root: Root, id: string)
    requires Inv(v, first, s) && 0 < j < |s.changes|
    requires OfOne(s.changes[j - 1], root, id) && OfOne(s.changes[j], root, id)
    ensures s.changes[j - 1].job.next.serial < s.changes[j].job.next.serial
  {
    assert ChangeOk(v, s.changes[j]) && ChangeOk(v, s.changes[j - 1]);
    assert s.changes[j].before == Before(first, s.changes, j);
  }

  lemma {:induction false} AllRise(v: Verifier, first: File, s: Sys, i: nat, j: nat, root: Root, id: string)
    requires Inv(v, first, s) && i < j < |s.changes|
    requires forall k :: i <= k <= j ==> OfOne(s.changes[k], root, id)
    ensures s.changes[i].job.next.serial < s.changes[j].job.next.serial
    decreases j
  {
    NextRises(v, first, s, j, root, id);
    if i < j - 1 {
      AllRise(v, first, s, i, j - 1, root, id);
    }
  }

  /** Serials strictly rise over any stretch of changes of one root and id: of two signers of
      one root, id and serial at most one writes unless a third wrote for another root
      or id between them. */
  lemma SerialsRise(v: Verifier, first: File, ls: seq<Label>, i: nat, j: nat, root: Root, id: string)
    requires IsRun(v, Start(first), ls)
    requires i < j < |After(v, Start(first), ls).changes|
    requires forall k :: i <= k <= j ==> OfOne(After(v, Start(first), ls).changes[k], root, id)
    ensures var cs := After(v, Start(first), ls).changes;
            cs[i].job.next.serial < cs[j].job.next.serial
  {
    RunInv(v, first, Start(first), ls);
    AllRise(v, first, After(v, Start(first), ls), i, j, root, id);
  }

  /** A signer nobody interrupts, from before its first read. */
  function Alone(p: nat, job: Job): seq<Label> {
    [Begin(p, job)] + WhenSeen(p)
  }

  function WhenSeen(p: nat): seq<Label> {
    [TakeLock(p)] + ([Recheck(p)] + ([Replace(p, Written)] + ([Unlock(p)] + [])))
  }

  function AfterAlone(s: Sys, p: nat, job: Job): Sys {
    Sys(Roster(job.env), None, s.signers[p := Over], s.changes + [Change(p, job, Prev(s.file), s.file)])
  }

  /** A signer alone writes exactly when the file is absent or a roster that does not hold, under
      its root and of its id, its serial or a higher one. */
  lemma WritesExactly(v: Verifier, s: Sys, p: nat, job: Job)
    requires p !in s.signers && s.lock == None && Signed(v, job)
    ensures IsRun(v, s, Alone(p, job)) <==>
              || s.file.Absent?
              || (s.file.Roster? &&
                  (|| v(s.file.env, job.root) == None
                   || v(s.file.env, job.root).value.id != job.next.id
                   || v(s.file.env, job.root).value.serial < job.next.serial))
    ensures IsRun(v, s, Alone(p, job)) ==> After(v, s, Alone(p, job)) == AfterAlone(s, p, job)
  {
    if !s.file.Other? && Higher(v, Prev(s.file), job) {
      FromSeen(v, Apply(v, s, Begin(p, job)), p, job);
      Cons(v, s, Begin(p, job), WhenSeen(p));
    } else {
      assert Alone(p, job)[1..] == WhenSeen(p);
      assert !Can(v, Apply(v, s, Begin(p, job)), WhenSeen(p)[0]);
    }
  }

  lemma FromSeen(v: Verifier, a: Sys, p: nat, job: Job)
    requires p in a.signers && a.signers[p] == Seen(job, Prev(a.file)) && a.lock == None
    requires !a.file.Other? && Higher(v, Prev(a.file), job)
    ensures IsRun(v, a, WhenSeen(p)) && After(v, a, WhenSeen(p)) == AfterAlone(a, p, job)
  {
    SameIsEqual(Prev(a.file), Prev(a.file));
    var b := Apply(v, a, TakeLock(p));
    var c := Apply(v, b, Recheck(p));
    var d := Apply(v, c, Replace(p, Written));
    Cons(v, d, Unlock(p), []);
    Cons(v, c, Replace(p, Written), [Unlock(p)] + []);
    Cons(v, b, Recheck(p), [Replace(p, Written)] + ([Unlock(p)] + []));
    Cons(v, a, TakeLock(p), [Recheck(p)] + ([Replace(p, Written)] + ([Unlock(p)] + [])));
    assert Apply(v, d, Unlock(p)) == AfterAlone(a, p, job);
  }

  lemma Cons(v: Verifier, s: Sys, l: Label, ls: seq<Label>)
    requires Can(v, s, l) && IsRun(v, Apply(v, s, l), ls)
    ensures IsRun(v, s, [l] + ls) && After(v, s, [l] + ls) == After(v, Apply(v, s, l), ls)
  {
    assert ([l] + ls)[1..] == ls;
  }

  /** Without that proviso serials need not rise: root 0 signs serial 1, root 1 replaces it, and
      root 0 signs serial 1 again, by three signers none of whom overlap. */
  lemma SerialRepeats(a: Envelope, b: Envelope)
    returns (v: Verifier, ls: seq<Label>)
    requires a != b
    ensures IsRun(v, Start(Absent), ls)
    ensures var cs := After(v, Start(Absent), ls).changes;
            && |cs| == 3
            && cs[0].job == cs[2].job
            && cs[1].job.root != cs[0].job.root
  {
    var one, two := Job(0, Document("r", 1), a), Job(1, Document("r", 1), b);
    v := (e: Envelope, root: Root) =>
      if (e == a && root == 0) || (e == b && root == 1) then Some(Document("r", 1)) else None;
    var s := Start(Absent);
    var x := AfterAlone(s, 0, one);
    WritesExactly(v, s, 0, one);
    var y := AfterAlone(x, 1, two);
    WritesExactly(v, x, 1, two);
    WritesExactly(v, y, 2, one);
    ls := Alone(0, one) + (Alone(1, two) + Alone(2, one));
    Append(v, x, Alone(1, two), Alone(2, one));
    Append(v, s, Alone(0, one), Alone(1, two) + Alone(2, one));
  }

  lemma {:induction false} Append(v: Verifier, s: Sys, a: seq<Label>, b: seq<Label>)
    requires IsRun(v, s, a) && IsRun(v, After(v, s, a), b)
    ensures IsRun(v, s, a + b) && After(v, s, a + b) == After(v, After(v, s, a), b)
    decreases |a|
  {
    if a == [] {
      assert a + b == b;
    } else {
      Append(v, Apply(v, s, a[0]), a[1..], b);
      assert (a + b)[1..] == a[1..] + b;
    }
  }
}
