/** The cap on live sessions (adapters/mcp/sessions.go): opens that race one another,
    and sessions the library lists and drops without asking, never come to more
    than the limit. */
module SessionCaps {
  import opened Options

  predicate Admits(limit: nat, live: nat, opening: int) {
    live + opening < limit
  }

  /** The count once an open was decided. */
  function Decided(limit: nat, live: nat, opening: int): int {
    if Admits(limit, live, opening) then opening + 1 else opening
  }

  /** The count once an open's answer began. */
  function Answered(opening: int): int {
    opening - 1
  }

  class SessionCap {
    const limit: nat
    var opening: int

    constructor (limit: nat)
      ensures this.limit == limit && opening == 0
    {
      this.limit, opening := limit, 0;
    }

    /** live is what the server counts while the mutex is held. */
    method Admit(live: nat) returns (ok: bool)
      modifies this
      ensures ok == Admits(limit, live, old(opening))
      ensures opening == Decided(limit, live, old(opening))
    {
      if live + opening >= limit {
        return false;
      }
      opening := opening + 1;
      return true;
    }

    method Done()
      modifies this
      ensures opening == Answered(old(opening))
    {
      opening := opening - 1;
    }
  }

  /** Takes its open off the count once, whichever of the header, the first byte, the first
      flush and the return comes first. */
  class AnswerWriter {
    const cap: SessionCap
    var begun: bool

    constructor (cap: SessionCap)
      ensures this.cap == cap && !begun
    {
      this.cap, begun := cap, false;
    }

    method Begin()
      modifies this, cap
      ensures begun
      ensures cap.opening == if old(begun) then old(cap.opening) else Answered(old(cap.opening))
    {
      if !begun {
        begun := true;
        cap.Done();
      }
    }
  }

  // ---------------------------------------------------------------- the steps

  /** One open: counting under the mutex with the live sessions it read; admitted, its
      session listed or not; its answer begun; refused. */
  datatype Phase = Counting(live: nat) | Opening(listed: bool) | Begun | Refused

  /** live holds a session under the open that made it. The library lists a session
      before its answer begins and lists at most one for an open. */
  datatype Sys = Sys(opening: int, lock: Option<nat>, live: set<nat>, opens: map<nat, Phase>)

  datatype Label = Count(p: nat) | Decide(p: nat) | List(p: nat) | Drop(p: nat) | Begin(p: nat)

  const NoSessions := Sys(0, None, {}, map[])

  predicate Can(s: Sys, l: Label) {
    match l
    case Count(p) => p !in s.opens && s.lock == None
    case Decide(p) => p in s.opens && s.opens[p].Counting? && s.lock == Some(p)
    case List(p) => p in s.opens && s.opens[p] == Opening(false)
    case Drop(p) => p in s.live
    case Begin(p) => p in s.opens && s.opens[p].Opening? && s.lock == None
  }

  function Apply(limit: nat, s: Sys, l: Label): Sys
    requires Can(s, l)
  {
    match l
    case Count(p) => s.(lock := Some(p), opens := s.opens[p := Counting(|s.live|)])
    case Decide(p) =>
      s.(lock := None, opening := Decided(limit, s.opens[p].live, s.opening),
         opens := s.opens[p := if Admits(limit, s.opens[p].live, s.opening) then Opening(false) else Refused])
    case List(p) => s.(live := s.live + {p}, opens := s.opens[p := Opening(true)])
    case Drop(p) => s.(live := s.live - {p})
    case Begin(p) => s.(opening := Answered(s.opening), opens := s.opens[p := Begun])
  }

  predicate IsRun(limit: nat, s: Sys, ls: seq<Label>)
    decreases |ls|
  {
    ls == [] || (Can(s, ls[0]) && IsRun(limit, Apply(limit, s, ls[0]), ls[1..]))
  }

  function After(limit: nat, s: Sys, ls: seq<Label>): Sys
    requires IsRun(limit, s, ls)
    decreases |ls|
  {
    if ls == [] then s else After(limit, Apply(limit, s, ls[0]), ls[1..])
  }

  // ---------------------------------------------------------------- what every step keeps

  /** Admitted opens whose answer has not begun. */
  function OpeningOf(opens: map<nat, Phase>): set<nat> {
    set p | p in opens && opens[p].Opening?
  }

  /** Those of them whose session is not listed yet. */
  function Unlisted(opens: map<nat, Phase>): set<nat> {
    set p | p in opens && opens[p] == Opening(false)
  }

  ghost predicate Places(s: Sys) {
    && s.opening == |OpeningOf(s.opens)|
    && (forall p :: p in s.opens && s.opens[p].Counting? ==> s.lock == Some(p))
    && (forall p :: p in s.live ==> p in s.opens && (s.opens[p] == Opening(true) || s.opens[p] == Begun))
  }

  /** While an open counts, sessions listed since it read the server's were already
      in the opens it adds to what it read. */
  ghost predicate Inv(limit: nat, s: Sys) {
    && Places(s)
    && |s.live| + |Unlisted(s.opens)| <= limit
    && forall p :: p in s.opens && s.opens[p].Counting? ==>
         |s.live| + |Unlisted(s.opens)| <= s.opens[p].live + s.opening
  }

  lemma {:induction false} SubsetSize(a: set<nat>, b: set<nat>)
    requires a <= b
    ensures |a| <= |b|
  {
    assert a + (b - a) == b;
  }

  lemma CountStep(limit: nat, s: Sys, p: nat)
    requires Inv(limit, s) && Can(s, Count(p))
    ensures Inv(limit, Apply(limit, s, Count(p)))
  {
    var t := Apply(limit, s, Count(p));
    assert OpeningOf(t.opens) == OpeningOf(s.opens);
    assert Unlisted(t.opens) == Unlisted(s.opens);
    SubsetSize(Unlisted(s.opens), OpeningOf(s.opens));
  }

  lemma DecideStep(limit: nat, s: Sys, p: nat)
    requires Inv(limit, s) && Can(s, Decide(p))
    ensures Inv(limit, Apply(limit, s, Decide(p)))
  {
    var t := Apply(limit, s, Decide(p));
    if Admits(limit, s.opens[p].live, s.opening) {
      assert OpeningOf(t.opens) == OpeningOf(s.opens) + {p};
      assert Unlisted(t.opens) == Unlisted(s.opens) + {p};
    } else {
      assert OpeningOf(t.opens) == OpeningOf(s.opens);
      assert Unlisted(t.opens) == Unlisted(s.opens);
    }
  }

  lemma ListStep(limit: nat, s: Sys, p: nat)
    requires Inv(limit, s) && Can(s, List(p))
    ensures Inv(limit, Apply(limit, s, List(p)))
  {
    var t := Apply(limit, s, List(p));
    assert OpeningOf(t.opens) == OpeningOf(s.opens);
    assert Unlisted(s.opens) == Unlisted(t.opens) + {p};
  }

  lemma BeginStep(limit: nat, s: Sys, p: nat)
    requires Inv(limit, s) && Can(s, Begin(p))
    ensures Inv(limit, Apply(limit, s, Begin(p)))
  {
    var t := Apply(limit, s, Begin(p));
    assert OpeningOf(s.opens) == OpeningOf(t.opens) + {p};
    assert Unlisted(t.opens) == Unlisted(s.opens) - {p};
    SubsetSize(Unlisted(t.opens), Unlisted(s.opens));
  }

  lemma StepInv(limit: nat, s: Sys, l: Label)
    requires Inv(limit, s) && Can(s, l)
    ensures Inv(limit, Apply(limit, s, l))
  {
    match l
    case Count(p) => CountStep(limit, s, p);
    case Decide(p) => DecideStep(limit, s, p);
    case List(p) => ListStep(limit, s, p);
    case Drop(p) => assert s.live == Apply(limit, s, l).live + {p};
    case Begin(p) => BeginStep(limit, s, p);
  }

  lemma {:induction false} RunInv(limit: nat, s: Sys, ls: seq<Label>)
    requires Inv(limit, s) && IsRun(limit, s, ls)
    ensures Inv(limit, After(limit, s, ls))
    decreases |ls|
  {
    if ls != [] {
      StepInv(limit, s, ls[0]);
      RunInv(limit, Apply(limit, s, ls[0]), ls[1..]);
    }
  }

  // ---------------------------------------------------------------- the results

  /** In every run the sessions live, and those admitted opens may yet list, are at
      most limit. */
  lemma NeverAbove(limit: nat, ls: seq<Label>)
    requires IsRun(limit, NoSessions, ls)
    ensures var s := After(limit, NoSessions, ls);
            |s.live| <= limit && |s.live + Unlisted(s.opens)| <= limit
  {
    assert OpeningOf(NoSessions.opens) == {} == Unlisted(NoSessions.opens);
    RunInv(limit, NoSessions, ls);
    var s := After(limit, NoSessions, ls);
    SubsetSize(s.live, s.live + Unlisted(s.opens));
  }

  /** The counter is the opens admitted and not begun, never negative, and none of them is
      counted twice or left behind: when every open has begun or was refused it is 0. */
  lemma OpeningCounts(limit: nat, ls: seq<Label>)
    requires IsRun(limit, NoSessions, ls)
    ensures var s := After(limit, NoSessions, ls);
            && s.opening == |OpeningOf(s.opens)|
            && ((forall p :: p in s.opens ==> s.opens[p] == Begun || s.opens[p] == Refused) ==> s.opening == 0)
  {
    assert OpeningOf(NoSessions.opens) == {} == Unlisted(NoSessions.opens);
    RunInv(limit, NoSessions, ls);
    var s := After(limit, NoSessions, ls);
    if forall p :: p in s.opens ==> s.opens[p] == Begun || s.opens[p] == Refused {
      assert OpeningOf(s.opens) == {};
    }
  }

  /** An open that counts undisturbed is admitted exactly when the live sessions and the opens
      whose answers have not begun are together below the limit. */
  lemma AdmitsExactly(limit: nat, ls: seq<Label>, p: nat)
    requires IsRun(limit, NoSessions, ls)
    requires Can(After(limit, NoSessions, ls), Count(p))
    ensures var s := After(limit, NoSessions, ls);
            var t := Apply(limit, Apply(limit, s, Count(p)), Decide(p));
            if |s.live| + |OpeningOf(s.opens)| < limit then t.opens[p] == Opening(false) else t.opens[p] == Refused
  {
    OpeningCounts(limit, ls);
  }
}
