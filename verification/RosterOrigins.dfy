/** Every write to a roster file traced to the signer that made it: what it was to sign, what it
    found when it began, and that with the lock held it writes exactly when it finds
    that again (cmd/guardana-control/operators.go). */
module RosterOrigins {
  import opened Options
  import opened Rosters

  lemma {:induction false} LastStep(v: Verifier, s: Sys, ls: seq<Label>)
    requires ls != [] && IsRun(v, s, ls)
    ensures var was, l := ls[..|ls| - 1], ls[|ls| - 1];
            && IsRun(v, s, was) && Can(v, After(v, s, was), l)
            && After(v, s, ls) == Apply(v, After(v, s, was), l)
    decreases |ls|
  {
    var was := ls[..|ls| - 1];
    if |ls| > 1 {
      LastStep(v, Apply(v, s, ls[0]), ls[1..]);
      assert was[0] == ls[0] && was[1..] == ls[1..][..|ls| - 2];
    } else {
      assert ls[1..] == [];
    }
  }

  /** The signer began at step b, with job, and found read. */
  ghost predicate BeganAt(v: Verifier, first: File, ls: seq<Label>, b: int, p: nat, job: Job, read: Option<Envelope>) {
    && 0 <= b < |ls| && ls[b] == Begin(p, job) && IsRun(v, Start(first), ls[..b])
    && var file := After(v, Start(first), ls[..b]).file;
    && !file.Other? && Higher(v, read, job) && read == if file.Roster? then Some(file.env) else None
  }

  ghost predicate Began(v: Verifier, first: File, ls: seq<Label>, p: nat, job: Job, read: Option<Envelope>) {
    exists b :: BeganAt(v, first, ls, b, p, job, read)
  }

  ghost predicate SignerFrom(v: Verifier, first: File, ls: seq<Label>, p: nat, at: Phase) {
    at.Seen? || at.Locked? || at.Ready? ==> Began(v, first, ls, p, at.job, at.read)
  }

  /** The change is the write of a signer that began with that job and found what it replaced. */
  ghost predicate ChangeFrom(v: Verifier, first: File, ls: seq<Label>, c: Change) {
    && Began(v, first, ls, c.signer, c.job, c.read)
    && (Replace(c.signer, Written) in ls || Replace(c.signer, FailedAfter) in ls)
  }

  /** Who wrote, write by write: the signers whose replacement did not fail before the rename. */
  function Writers(ls: seq<Label>): seq<nat> {
    if ls == [] then []
    else
      var l := ls[|ls| - 1];
      Writers(ls[..|ls| - 1]) + if l.Replace? && l.fate != FailedBefore then [l.p] else []
  }

  function Signers(changes: seq<Change>): seq<nat> {
    seq(|changes|, i requires 0 <= i < |changes| => changes[i].signer)
  }

  ghost predicate AllFrom(v: Verifier, first: File, ls: seq<Label>, s: Sys) {
    && (forall p :: p in s.signers ==> SignerFrom(v, first, ls, p, s.signers[p]))
    && (forall i :: 0 <= i < |s.changes| ==> ChangeFrom(v, first, ls, s.changes[i]))
    && Signers(s.changes) == Writers(ls)
  }

  lemma BeganLater(v: Verifier, first: File, ls: seq<Label>, l: Label, p: nat, job: Job, read: Option<Envelope>)
    requires Began(v, first, ls, p, job, read)
    ensures Began(v, first, ls + [l], p, job, read)
  {
    var b :| BeganAt(v, first, ls, b, p, job, read);
    assert (ls + [l])[..b] == ls[..b];
    assert BeganAt(v, first, ls + [l], b, p, job, read);
  }

  lemma BeganNow(v: Verifier, first: File, ls: seq<Label>, p: nat, job: Job)
    requires IsRun(v, Start(first), ls)
    ensures var file := After(v, Start(first), ls).file;
            !file.Other? && Higher(v, Prev(file), job) ==>
              Began(v, first, ls + [Begin(p, job)], p, job, Prev(file))
  {
    var file := After(v, Start(first), ls).file;
    if !file.Other? && Higher(v, Prev(file), job) {
      assert (ls + [Begin(p, job)])[..|ls|] == ls;
      assert BeganAt(v, first, ls + [Begin(p, job)], |ls|, p, job, Prev(file));
    }
  }

  lemma SignerStep(v: Verifier, first: File, ls: seq<Label>, l: Label, p: nat)
    requires IsRun(v, Start(first), ls) && Can(v, After(v, Start(first), ls), l)
    requires AllFrom(v, first, ls, After(v, Start(first), ls))
    requires p in Apply(v, After(v, Start(first), ls), l).signers
    ensures SignerFrom(v, first, ls + [l], p, Apply(v, After(v, Start(first), ls), l).signers[p])
  {
    var s := After(v, Start(first), ls);
    if l.Begin? && l.p == p {
      BeganNow(v, first, ls, p, l.job);
    } else {
      var at := s.signers[p];
      assert SignerFrom(v, first, ls, p, at);
      if at.Seen? || at.Locked? || at.Ready? {
        BeganLater(v, first, ls, l, p, at.job, at.read);
      }
    }
  }

  lemma ChangeStep(v: Verifier, first: File, ls: seq<Label>, s: Sys, l: Label, i: nat)
    requires Can(v, s, l) && AllFrom(v, first, ls, s) && i < |Apply(v, s, l).changes|
    ensures ChangeFrom(v, first, ls + [l], Apply(v, s, l).changes[i])
  {
    var c := Apply(v, s, l).changes[i];
    assert (ls + [l])[|ls|] == l;
    if i < |s.changes| {
      assert ChangeFrom(v, first, ls, s.changes[i]);
    } else {
      assert SignerFrom(v, first, ls, l.p, s.signers[l.p]);
    }
    BeganLater(v, first, ls, l, c.signer, c.job, c.read);
  }

  lemma {:induction false} FromRun(v: Verifier, first: File, ls: seq<Label>)
    requires IsRun(v, Start(first), ls)
    ensures AllFrom(v, first, ls, After(v, Start(first), ls))
    decreases |ls|
  {
    if ls != [] {
      LastStep(v, Start(first), ls);
      var was, l := ls[..|ls| - 1], ls[|ls| - 1];
      var s, s' := After(v, Start(first), was), After(v, Start(first), ls);
      FromRun(v, first, was);
      assert ls == was + [l];
      forall p | p in s'.signers
        ensures SignerFrom(v, first, ls, p, s'.signers[p])
      {
        SignerStep(v, first, was, l, p);
      }
      forall i | 0 <= i < |s'.changes|
        ensures ChangeFrom(v, first, ls, s'.changes[i])
      {
        ChangeStep(v, first, was, s, l, i);
      }
      assert Signers(s'.changes) == Writers(ls);
    }
  }

  /** In every run the writes are made by exactly the signers whose replacement reached the rename, in
      that order. */
  lemma WritersExactly(v: Verifier, first: File, ls: seq<Label>)
    requires IsRun(v, Start(first), ls)
    ensures Signers(After(v, Start(first), ls).changes) == Writers(ls)
  {
    FromRun(v, first, ls);
  }

  /** In every run each write is of a signer that began with the very job written and found there the
      very envelope it replaced, and the path holds what the last write wrote. */
  lemma WrittenAsBegun(v: Verifier, first: File, ls: seq<Label>, i: nat)
    requires IsRun(v, Start(first), ls) && i < |After(v, Start(first), ls).changes|
    ensures var s := After(v, Start(first), ls);
            var c := s.changes[i];
            && Began(v, first, ls, c.signer, c.job, if c.before.Roster? then Some(c.before.env) else None)
            && (Replace(c.signer, Written) in ls || Replace(c.signer, FailedAfter) in ls)
            && s.file == Roster(s.changes[|s.changes| - 1].job.env)
  {
    FromRun(v, first, ls);
    RunInv(v, first, Start(first), ls);
    ReplacesWhatItRead(v, first, ls, i);
    assert ChangeFrom(v, first, ls, After(v, Start(first), ls).changes[i]);
  }

  /** In every run a signer that holds the lock goes on to write if and only if it finds at the path
      what it found when it began: nothing, or the same envelope. */
  lemma RechecksExactly(v: Verifier, first: File, ls: seq<Label>, p: nat)
    requires IsRun(v, Start(first), ls) && Can(v, After(v, Start(first), ls), Recheck(p))
    ensures var s := After(v, Start(first), ls);
            var at := s.signers[p];
            && Began(v, first, ls, p, at.job, at.read)
            && (Apply(v, s, Recheck(p)).signers[p].Ready? <==>
                  if at.read == None then s.file == Absent else s.file == Roster(at.read.value))
  {
    var s := After(v, Start(first), ls);
    FromRun(v, first, ls);
    var at := s.signers[p];
    assert SignerFrom(v, first, ls, p, at);
    SameIsEqual(at.read, Prev(s.file));
    var b :| BeganAt(v, first, ls, b, p, at.job, at.read);
  }
}
