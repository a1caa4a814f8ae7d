/** The delivery loop the code runs (adapters/otel/send.go), proved to do what
    `Delivery.Deliver` says. */
module Senders {
  import opened Delivery

  lemma Glue(log: seq<Event>, done: seq<Event>, e: Event, rest: seq<Event>)
    requires [e] <= rest
    ensures log + done + [e] + rest[1..] == log + (done + rest)
  {
    assert rest == [e] + rest[1..];
  }

  lemma ThenThen(a: seq<Event>, b: seq<Event>, o: Out)
    ensures Then(a, Then(b, o)) == Then(a + b, o)
  {
    assert a + (b + o.log) == a + b + o.log;
  }

  /** feed is what the collector has yet to answer, log what was done so far, and
      refused the counter of refused requests. */
  class Sender {
    const env: Env
    var feed: seq<Answer>
    var log: seq<Event>
    var refused: nat

    constructor (env: Env, feed: seq<Answer>)
      ensures this.env == env && this.feed == feed && log == [] && refused == 0
    {
      this.env, this.feed, log, refused := env, feed, [], 0;
    }

    /** A part of a delivery did o to the fields. */
    twostate predicate Did(o: Out)
      reads this
    {
      feed == o.rest && log == old(log) + o.log && refused == old(refused) + Refusals(o.log)
    }

    method DeliverRecords(records: seq<Record>) returns (outcome: Outcome)
      modifies this
      ensures outcome == Deliver(env, records, old(feed)).outcome
      ensures Did(Deliver(env, records, old(feed)))
      decreases |records|, 3
    {
      if !env.encodes(records) {
        if |records| > 1 {
          outcome := SplitRecords(records);
        } else {
          outcome := QuarantineRecords(records, Unencodable);
        }
        return;
      }
      outcome := Retry(records);
    }

    /** Posts the records until an answer settles them or the context ends. */
    method Retry(records: seq<Record>) returns (outcome: Outcome)
      modifies this
      ensures outcome == Attempt(env, records, old(feed), 0).outcome
      ensures Did(Attempt(env, records, old(feed), 0))
      decreases |records|, 2
    {
      var refusals := 0;
      ghost var o := Attempt(env, records, feed, 0);
      ghost var done: seq<Event> := [];
      while feed != []
        invariant log == old(log) + done && refused == old(refused) + Refusals(done)
        invariant o == Then(done, Attempt(env, records, feed, refusals))
        decreases |feed|
      {
        var a := feed[0];
        ghost var rest := Attempt(env, records, feed, refusals).log;
        assert [a] + feed[1..] == feed;
        feed, log := feed[1..], log + [Posted(records, a)];
        var settled;
        settled, refusals, outcome := Settle(records, a, refusals);
        if settled {
          Joined(done, rest);
          Glue(old(log), done, Posted(records, a), rest);
          return;
        }
        Joined(done, [Posted(records, a)]);
        ThenThen(done, [Posted(records, a)], Attempt(env, records, feed, refusals));
        done := done + [Posted(records, a)];
      }
      assert o.log == done;
      outcome := ContextEnded;
    }

    /** Acts on one answer. rest is what the delivery comes to from this request
        on; settled reports that it came to it. */
    method Settle(records: seq<Record>, a: Answer, refusals: nat) returns (settled: bool, next: nat, outcome: Outcome)
      modifies this
      ensures var rest := Attempt(env, records, [a] + old(feed), refusals);
              if settled then
                && outcome == rest.outcome && feed == rest.rest
                && [Posted(records, a)] <= rest.log && log == old(log) + rest.log[1..]
                && refused == old(refused) + Refusals(rest.log)
              else
                && feed == old(feed) && log == old(log)
                && refused == old(refused) + Refusals([Posted(records, a)])
                && rest == Then([Posted(records, a)], Attempt(env, records, feed, next))
      decreases |records|, 1
    {
      ghost var posted := [Posted(records, a)];
      ghost var rest := Attempt(env, records, [a] + feed, refusals);
      assert ([a] + feed)[1..] == feed;
      settled, next, outcome := false, 0, Delivered;
      match a {
        case Accepted(n) =>
          settled := true;
          if n > 0 {
            ghost var q := Quarantine(env, records, Dropped, feed);
            Joined(posted, q.log);
            assert rest.log[1..] == q.log;
            outcome := QuarantineRecords(records, Dropped);
          } else {
            assert rest.log[1..] == [];
          }
        case Refused =>
          refused := refused + 1;
          if |records| > 1 {
            ghost var o := Split(env, records, feed);
            Joined(posted, o.log);
            assert rest.log[1..] == o.log;
            settled := true;
            outcome := SplitRecords(records);
            return;
          }
          next := refusals + 1;
          if next >= maxRefusals {
            ghost var q := Quarantine(env, records, RefusedThrice, feed);
            Joined(posted, q.log);
            assert rest.log[1..] == q.log;
            settled := true;
            outcome := QuarantineRecords(records, RefusedThrice);
          }
        case Again =>
      }
    }

    method SplitRecords(records: seq<Record>) returns (outcome: Outcome)
      requires |records| > 1
      modifies this
      ensures outcome == Split(env, records, old(feed)).outcome
      ensures Did(Split(env, records, old(feed)))
      decreases |records|, 0
    {
      var half := |records| / 2;
      ghost var first := Deliver(env, records[..half], feed);
      outcome := DeliverRecords(records[..half]);
      if outcome != Delivered {
        return;
      }
      ghost var second := Deliver(env, records[half..], feed);
      outcome := DeliverRecords(records[half..]);
      Joined(first.log, second.log);
    }

    method QuarantineRecords(records: seq<Record>, why: Why) returns (outcome: Outcome)
      modifies this`log
      ensures outcome == Quarantine(env, records, why, old(feed)).outcome
      ensures Did(Quarantine(env, records, why, old(feed)))
    {
      if !env.keeps(records) {
        return QuarantineFailed;
      }
      log := log + [Quarantined(records, why)];
      outcome := Delivered;
    }
  }
}
