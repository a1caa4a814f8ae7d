/** Delivering one batch of evidence records (adapters/otel/send.go): retry,
    bisection of a refused request, and quarantine.

    The collector's answers are a list, consumed one per request; the list
    running out is the context ending. `Deliver` is the algorithm as a function,
    with everything it did in a log. */
module Delivery {

  /** A record by its position in the spool. */
  type Record = nat

  /** An accepted request may name records it dropped. Every other answer is a
      refusal of the records or asks for the same request again. */
  datatype Answer = Accepted(rejected: nat) | Refused | Again

  datatype Why = Unencodable | Dropped | RefusedThrice

  datatype Event = Posted(records: seq<Record>, answer: Answer) | Quarantined(records: seq<Record>, why: Why)

  datatype Outcome = Delivered | ContextEnded | QuarantineFailed

  /** encodes: the encoder takes these records. keeps: the quarantine takes
      these records. Each slice is tried at most once in a delivery, so a function
      of the slice is every behaviour there is. */
  datatype Env = Env(encodes: seq<Record> -> bool, keeps: seq<Record> -> bool)

  datatype Out = Out(outcome: Outcome, log: seq<Event>, rest: seq<Answer>)

  const maxRefusals := 3

  function Then(first: seq<Event>, o: Out): Out {
    o.(log := first + o.log)
  }

  function Quarantine(env: Env, records: seq<Record>, why: Why, feed: seq<Answer>): Out {
    if env.keeps(records) then Out(Delivered, [Quarantined(records, why)], feed) else Out(QuarantineFailed, [], feed)
  }

  function Deliver(env: Env, records: seq<Record>, feed: seq<Answer>): (o: Out)
    ensures |o.rest| <= |feed|
    decreases |records|, |feed| + 1
  {
    if !env.encodes(records) then
      if |records| > 1 then Split(env, records, feed) else Quarantine(env, records, Unencodable, feed)
    else Attempt(env, records, feed, 0)
  }

  /** The retry loop, with how many times running the record was refused. */
  function Attempt(env: Env, records: seq<Record>, feed: seq<Answer>, refusals: nat): (o: Out)
    ensures |o.rest| <= |feed|
    decreases |records|, |feed|, 1
  {
    if feed == [] then Out(ContextEnded, [], [])
    else
      var a, rest := feed[0], feed[1..];
      var posted := [Posted(records, a)];
      match a
      case Accepted(n) => if n > 0 then Then(posted, Quarantine(env, records, Dropped, rest))
          else Out(Delivered, posted, rest)
      case Refused =>
        if |records| > 1 then Then(posted, Split(env, records, rest))
        else if refusals + 1 >= maxRefusals then Then(posted, Quarantine(env, records, RefusedThrice, rest))
        else Then(posted, Attempt(env, records, rest, refusals + 1))
      case Again => Then(posted, Attempt(env, records, rest, 0))
  }

  function Split(env: Env, records: seq<Record>, feed: seq<Answer>): (o: Out)
    requires |records| > 1
    ensures |o.rest| <= |feed|
    decreases |records|, 0
  {
    var half := |records| / 2;
    var first := Deliver(env, records[..half], feed);
    if first.outcome != Delivered then first else Then(first.log, Deliver(env, records[half..], first.rest))
  }

  // ---------------------------------------------------------------- what a log says

  function AcceptedIn(log: seq<Event>): seq<Record> {
    if log == [] then []
    else (if log[0].Posted? && log[0].answer == Accepted(0) then log[0].records else []) + AcceptedIn(log[1..])
  }

  function QuarantinedIn(log: seq<Event>): seq<Record> {
    if log == [] then [] else (if log[0].Quarantined? then log[0].records else []) + QuarantinedIn(log[1..])
  }

  function Posts(log: seq<Event>): nat {
    if log == [] then 0 else (if log[0].Posted? then 1 else 0) + Posts(log[1..])
  }

  /** The request is refused as records, a request the counter `Refused` counts. */
  function Refusals(log: seq<Event>): nat {
    if log == [] then 0 else (if log[0].Posted? && log[0].answer == Refused then 1 else 0) + Refusals(log[1..])
  }

  /** What two logs hold, their concatenation holds. */
  lemma Joined(a: seq<Event>, b: seq<Event>)
    ensures AcceptedIn(a + b) == AcceptedIn(a) + AcceptedIn(b)
    ensures QuarantinedIn(a + b) == QuarantinedIn(a) + QuarantinedIn(b)
    ensures Posts(a + b) == Posts(a) + Posts(b)
    ensures Refusals(a + b) == Refusals(a) + Refusals(b)
  {
    JoinedRecords(a, b);
    JoinedCounts(a, b);
  }

  lemma {:induction false} JoinedRecords(a: seq<Event>, b: seq<Event>)
    ensures AcceptedIn(a + b) == AcceptedIn(a) + AcceptedIn(b)
    ensures QuarantinedIn(a + b) == QuarantinedIn(a) + QuarantinedIn(b)
  {
    if a == [] {
      assert a + b == b;
    } else {
      assert (a + b)[0] == a[0] && (a + b)[1..] == a[1..] + b;
      JoinedRecords(a[1..], b);
    }
  }

  lemma {:induction false} JoinedCounts(a: seq<Event>, b: seq<Event>)
    ensures Posts(a + b) == Posts(a) + Posts(b)
    ensures Refusals(a + b) == Refusals(a) + Refusals(b)
  {
    if a == [] {
      assert a + b == b;
    } else {
      assert (a + b)[0] == a[0] && (a + b)[1..] == a[1..] + b;
      JoinedCounts(a[1..], b);
    }
  }
}
