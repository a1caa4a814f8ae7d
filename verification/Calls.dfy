/** One gateway call from admission to its record, and many of them against a drain
    (adapters/mcp/middleware.go run and sendOnce, adapters/mcp/adapter.go). */
module Calls {
  import opened Options
  import opened Flights

  type Bytes = seq<nat>

  datatype Action = Execute | ExecuteWithObligations | AwaitApproval | Block

  /** What the pipeline's Admit returned. */
  datatype Disposition = Disposition(action: Action, args: Bytes, digest: string, obligations: seq<string>)

  /** How arguments hash, whether obligations can be applied, and what bytes the protocol
      carries arguments as, if it can. */
  datatype Oracle = Oracle(hash: Bytes -> Option<string>, holds: seq<string> -> bool, translate: Bytes -> Option<Bytes>)

  datatype Cause = Unroutable | ArgsMismatch | Obligation | Untranslatable | Cancelled

  datatype Event = Admitted(d: Disposition) | Sent(bytes: Bytes) | Closed(bytes: Bytes) | Aborted(cause: Cause)

  predicate Executes(d: Disposition) {
    d.action == Execute || d.action == ExecuteWithObligations
  }

  /** Every check between the admission and the send holds: b are the bytes to send. */
  predicate Cleared(o: Oracle, d: Disposition, session: bool, cancelled: bool, b: Bytes) {
    && session && !cancelled
    && o.hash(d.args) == Some(d.digest)
    && o.holds(d.obligations)
    && o.translate(d.args) == Some(b)
  }

  /** The first check that fails, if any. */
  function Refusal(o: Oracle, d: Disposition, session: bool, cancelled: bool): Option<Cause> {
    if !session then Some(Unroutable)
    else if o.hash(d.args) != Some(d.digest) then Some(ArgsMismatch)
    else if !o.holds(d.obligations) then Some(Obligation)
    else if o.translate(d.args) == None then Some(Untranslatable)
    else if cancelled then Some(Cancelled)
    else None
  }

  /** Everything one call does that anybody can see. */
  function Trace(o: Oracle, d: Disposition, session: bool, cancelled: bool): seq<Event> {
    if !Executes(d) then [Admitted(d)]
    else if Refusal(o, d, session, cancelled).Some?
    then [Admitted(d), Aborted(Refusal(o, d, session, cancelled).value)]
    else [Admitted(d), Sent(o.translate(d.args).value), Closed(o.translate(d.args).value)]
  }

  function Count(t: seq<Event>, of: Event -> bool): nat {
    if t == [] then 0 else (if of(t[0]) then 1 else 0) + Count(t[1..], of)
  }

  const IsAdmitted := (e: Event) => e.Admitted?
  const IsSent := (e: Event) => e.Sent?
  const IsRecord := (e: Event) => e.Closed? || e.Aborted?

  lemma {:induction false} CountOf(t: seq<Event>, of: Event -> bool)
    ensures Count(t, of) == (if |t| > 0 && of(t[0]) then 1 else 0)
                            + (if |t| > 1 && of(t[1]) then 1 else 0)
                            + (if |t| > 2 then Count(t[2..], of) else 0)
  {
    if |t| > 1 {
      assert t[1..][1..] == t[2..];
    }
  }

  /** The call is admitted first. An execution is closed or aborted exactly once, last of all, and
      a call the pipeline does not execute, with obligations or without, never; at most one
      send, made exactly when every check holds, of the authorized arguments' translation,
      and closed with the bytes it carried. Each cause of an abort names the first check
      that failed. */
  lemma TraceMeans(o: Oracle, d: Disposition, session: bool, cancelled: bool)
    ensures var t := Trace(o, d, session, cancelled);
            var executes := d.action == Execute || d.action == ExecuteWithObligations;
            && t[0] == Admitted(d) && Count(t, IsAdmitted) == 1
            && Count(t, IsRecord) == (if executes then 1 else 0)
            && (executes ==> IsRecord(t[|t| - 1]))
            && Count(t, IsSent) <= 1
            && (Count(t, IsSent) == 1 <==> executes && exists b :: Cleared(o, d, session, cancelled, b))
            && (forall b :: Sent(b) in t <==> executes && Cleared(o, d, session, cancelled, b))
            && (forall b :: Closed(b) in t <==> Sent(b) in t)
    ensures var t := Trace(o, d, session, cancelled);
            var executes := d.action == Execute || d.action == ExecuteWithObligations;
            var fits := session && o.hash(d.args) == Some(d.digest);
            && (Aborted(Unroutable) in t <==> executes && !session)
            && (Aborted(ArgsMismatch) in t <==> executes && session && o.hash(d.args) != Some(d.digest))
            && (Aborted(Obligation) in t <==> executes && fits && !o.holds(d.obligations))
            && (Aborted(Untranslatable) in t <==>
                  executes && fits && o.holds(d.obligations) && o.translate(d.args) == None)
            && (Aborted(Cancelled) in t <==> executes && cancelled && exists b :: Cleared(o, d, session, false, b))
  {
    var t := Trace(o, d, session, cancelled);
    CountOf(t, IsAdmitted);
    CountOf(t, IsRecord);
    CountOf(t, IsSent);
    if Executes(d) && session && o.hash(d.args) == Some(d.digest) && o.holds(d.obligations)
        && o.translate(d.args).Some? {
      assert Cleared(o, d, session, false, o.translate(d.args).value);
    }
    if |t| > 2 {
      CountOf(t[2..], IsAdmitted);
      CountOf(t[2..], IsRecord);
      CountOf(t[2..], IsSent);
      assert Cleared(o, d, session, cancelled, o.translate(d.args).value);
    }
  }

  /** What run leaves the caller with: it is draining, or the pipeline's answer stands. */
  datatype Outcome = Draining | Pending | Blocked | Delivered

  class Adapter {
    const flights: FlightCount
    var log: seq<Event>

    constructor ()
      ensures fresh(flights) && flights.Valid() && log == []
    {
      flights := new FlightCount();
      log := [];
    }

    /** The call is inside from before Admit until its record is handed over. */
    method Run(o: Oracle, d: Disposition, session: bool, cancelled: bool) returns (out: Outcome)
      requires flights.Valid()
      modifies this, flights
      ensures flights.Valid() && flights.View() == old(flights.View())
      ensures out == Draining <==> old(flights.made)
      ensures log == if out == Draining then old(log) else old(log) + Trace(o, d, session, cancelled)
      ensures out == Delivered <==> !old(flights.made) && Count(Trace(o, d, session, cancelled), IsSent) == 1
      ensures out == Pending <==> !old(flights.made) && d.action == AwaitApproval
    {
      TraceMeans(o, d, session, cancelled);
      var ok := flights.Enter();
      if !ok {
        return Draining;
      }
      out := Inside(o, d, session, cancelled);
      flights.Leave();
    }

    method Inside(o: Oracle, d: Disposition, session: bool, cancelled: bool) returns (out: Outcome)
      modifies this`log
      ensures out != Draining
      ensures log == old(log) + Trace(o, d, session, cancelled)
      ensures out == Delivered <==> Executes(d) && exists b :: Cleared(o, d, session, cancelled, b)
      ensures out == Pending <==> d.action == AwaitApproval
    {
      log := log + [Admitted(d)];
      if d.action == AwaitApproval {
        return Pending;
      } else if d.action == Block {
        return Blocked;
      }
      if !session {
        out := Abort(Unroutable);
      } else if o.hash(d.args) != Some(d.digest) {
        out := Abort(ArgsMismatch);
      } else if !o.holds(d.obligations) {
        out := Abort(Obligation);
      } else {
        var sent := o.translate(d.args);
        if sent == None {
          out := Abort(Untranslatable);
        } else {
          out := SendOnce(sent.value, cancelled);
          assert !cancelled ==> Cleared(o, d, session, cancelled, sent.value);
        }
      }
    }

    method SendOnce(bytes: Bytes, cancelled: bool) returns (out: Outcome)
      modifies this`log
      ensures log == old(log) + if cancelled then [Aborted(Cancelled)] else [Sent(bytes), Closed(bytes)]
      ensures out == if cancelled then Blocked else Delivered
    {
      if cancelled {
        out := Abort(Cancelled);
        return;
      }
      log := log + [Sent(bytes)];
      log := log + [Closed(bytes)];
      return Delivered;
    }

    method Abort(cause: Cause) returns (out: Outcome)
      modifies this`log
      ensures log == old(log) + [Aborted(cause)] && out == Blocked
    {
      log := log + [Aborted(cause)];
      return Blocked;
    }
  }
}
