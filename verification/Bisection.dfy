/** What a delivery guarantees about its records, for every collector, and what
    its bisection finds against one that refuses exactly the bad records. */
module Bisection {
  import opened Delivery

  // ---------------------------------------------------------------- coverage

  /** The record was in a request accepted with nothing dropped, or is quarantined. */
  predicate Safe(log: seq<Event>, r: Record) {
    r in AcceptedIn(log) || r in QuarantinedIn(log)
  }

  ghost predicate AllSafe(log: seq<Event>, records: seq<Record>) {
    forall r :: r in records ==> Safe(log, r)
  }

  /** Nothing but the batch's own records was ever posted or quarantined. */
  ghost predicate OnlyOf(log: seq<Event>, records: seq<Record>) {
    forall i :: 0 <= i < |log| ==> forall r :: r in log[i].records ==> r in records
  }

  lemma SafeJoined(a: seq<Event>, b: seq<Event>, r: Record)
    requires Safe(a, r) || Safe(b, r)
    ensures Safe(a + b, r)
  {
    Joined(a, b);
  }

  lemma OnlyJoined(a: seq<Event>, b: seq<Event>, records: seq<Record>)
    requires OnlyOf(a, records) && OnlyOf(b, records)
    ensures OnlyOf(a + b, records)
  {
    forall i | 0 <= i < |a + b|
      ensures forall r :: r in (a + b)[i].records ==> r in records
    {
      if i < |a| {
        assert (a + b)[i] == a[i];
      } else {
        assert (a + b)[i] == b[i - |a|];
      }
    }
  }

  lemma OnlyPart(log: seq<Event>, part: seq<Record>, records: seq<Record>)
    requires OnlyOf(log, part) && forall r :: r in part ==> r in records
    ensures OnlyOf(log, records)
  {
  }

  /** A delivery that reports every record settled has settled every record, and
      whatever it did concerned its own records only. */
  lemma {:induction false} DeliverCovers(env: Env, records: seq<Record>, feed: seq<Answer>)
    ensures var o := Deliver(env, records, feed);
            (o.outcome == Delivered ==> AllSafe(o.log, records)) && OnlyOf(o.log, records)
    decreases |records|, |feed| + 1
  {
    if !env.encodes(records) {
      if |records| > 1 {
        SplitCovers(env, records, feed);
      } else {
        QuarantineCovers(env, records, Unencodable, feed);
      }
    } else {
      AttemptCovers(env, records, feed, 0);
    }
  }

  lemma QuarantineCovers(env: Env, records: seq<Record>, why: Why, feed: seq<Answer>)
    ensures var o := Quarantine(env, records, why, feed);
            (o.outcome == Delivered ==> AllSafe(o.log, records)) && OnlyOf(o.log, records)
  {
    var log := [Quarantined(records, why)];
    assert QuarantinedIn(log) == records + QuarantinedIn(log[1..]);
  }

  lemma PostedFirst(records: seq<Record>, a: Answer, o: Out)
    requires (o.outcome == Delivered ==> AllSafe(o.log, records)) && OnlyOf(o.log, records)
    ensures var t := Then([Posted(records, a)], o);
            (t.outcome == Delivered ==> AllSafe(t.log, records)) && OnlyOf(t.log, records)
  {
    var first := [Posted(records, a)];
    OnlyJoined(first, o.log, records);
    if o.outcome == Delivered {
      forall r | r in records
        ensures Safe(first + o.log, r)
      {
        SafeJoined(first, o.log, r);
      }
    }
  }

  lemma {:induction false} AttemptCovers(env: Env, records: seq<Record>, feed: seq<Answer>, refusals: nat)
    ensures var o := Attempt(env, records, feed, refusals);
            (o.outcome == Delivered ==> AllSafe(o.log, records)) && OnlyOf(o.log, records)
    decreases |records|, |feed|, 1
  {
    if feed != [] {
      var a, rest := feed[0], feed[1..];
      match a
      case Accepted(n) =>
        if n > 0 {
          QuarantineCovers(env, records, Dropped, rest);
          PostedFirst(records, a, Quarantine(env, records, Dropped, rest));
        } else {
          var log := [Posted(records, a)];
          assert AcceptedIn(log) == records + AcceptedIn(log[1..]);
        }
      case Refused =>
        if |records| > 1 {
          SplitCovers(env, records, rest);
          PostedFirst(records, a, Split(env, records, rest));
        } else if refusals + 1 >= maxRefusals {
          QuarantineCovers(env, records, RefusedThrice, rest);
          PostedFirst(records, a, Quarantine(env, records, RefusedThrice, rest));
        } else {
          AttemptCovers(env, records, rest, refusals + 1);
          PostedFirst(records, a, Attempt(env, records, rest, refusals + 1));
        }
      case Again =>
        AttemptCovers(env, records, rest, 0);
        PostedFirst(records, a, Attempt(env, records, rest, 0));
    }
  }

  lemma {:induction false} SplitCovers(env: Env, records: seq<Record>, feed: seq<Answer>)
    requires |records| > 1
    ensures var o := Split(env, records, feed);
            (o.outcome == Delivered ==> AllSafe(o.log, records)) && OnlyOf(o.log, records)
    decreases |records|, 0
  {
    var half := |records| / 2;
    var left, right := records[..half], records[half..];
    assert records == left + right;
    DeliverCovers(env, left, feed);
    var first := Deliver(env, left, feed);
    OnlyPart(first.log, left, records);
    if first.outcome == Delivered {
      DeliverCovers(env, right, first.rest);
      var second := Deliver(env, right, first.rest);
      OnlyPart(second.log, right, records);
      OnlyJoined(first.log, second.log, records);
      if second.outcome == Delivered {
        forall r | r in records
          ensures Safe(first.log + second.log, r)
        {
          SafeJoined(first.log, second.log, r);
        }
      }
    }
  }

  // ---------------------------------------------------------------- three refusals running

  /** Every quarantine of a refused record follows three refusals of that record
      with no other event between. */
  ghost predicate Thrice(log: seq<Event>) {
    forall i :: 0 <= i < |log| && log[i].Quarantined? && log[i].why == RefusedThrice ==>
      && i >= 3
      && log[i - 1] == log[i - 2] == log[i - 3] == Posted(log[i].records, Refused)
  }

  lemma ThriceJoined(a: seq<Event>, b: seq<Event>)
    requires Thrice(a) && Thrice(b)
    ensures Thrice(a + b)
  {
    var ab := a + b;
    forall i | 0 <= i < |ab| && ab[i].Quarantined? && ab[i].why == RefusedThrice
      ensures i >= 3 && ab[i - 1] == ab[i - 2] == ab[i - 3] == Posted(ab[i].records, Refused)
    {
      if i >= |a| {
        assert b[i - |a|] == ab[i];
        assert ab[i - 1] == b[i - |a| - 1] && ab[i - 2] == b[i - |a| - 2] && ab[i - 3] == b[i - |a| - 3];
      }
    }
  }

  function Refusing(records: seq<Record>, n: nat): seq<Event> {
    seq(n, _ => Posted(records, Refused))
  }

  lemma {:induction false} DeliverThrice(env: Env, records: seq<Record>, feed: seq<Answer>)
    ensures Thrice(Deliver(env, records, feed).log)
    decreases |records|, |feed| + 1
  {
    if !env.encodes(records) {
      if |records| > 1 {
        SplitThrice(env, records, feed);
      }
    } else {
      AttemptThrice(env, records, feed, 0);
      var log := Attempt(env, records, feed, 0).log;
      assert Refusing(records, 0) + log == log;
    }
  }

  lemma {:induction false} AttemptThrice(env: Env, records: seq<Record>, feed: seq<Answer>, refusals: nat)
    ensures Thrice(Refusing(records, refusals) + Attempt(env, records, feed, refusals).log)
    decreases |records|, |feed|, 1
  {
    var before := Refusing(records, refusals);
    var o := Attempt(env, records, feed, refusals);
    if feed == [] {
      assert before + o.log == before;
    } else {
      var a, rest := feed[0], feed[1..];
      var first := [Posted(records, a)];
      match a
      case Accepted(n) => NoneThrice(before + o.log);
      case Refused =>
        if |records| > 1 {
          SplitThrice(env, records, rest);
          ThriceAfter(before, first, Split(env, records, rest).log);
        } else if refusals + 1 >= maxRefusals {
          ThirdRefusal(records, refusals, o.log);
        } else {
          AttemptThrice(env, records, rest, refusals + 1);
          var after := Attempt(env, records, rest, refusals + 1).log;
          assert before + first == Refusing(records, refusals + 1);
          assert before + (first + after) == before + first + after;
        }
      case Again =>
        AttemptThrice(env, records, rest, 0);
        var after := Attempt(env, records, rest, 0).log;
        assert Refusing(records, 0) + after == after;
        ThriceAfter(before, first, after);
    }
  }

  lemma NoneThrice(log: seq<Event>)
    requires forall i :: 0 <= i < |log| && log[i].Quarantined? ==> log[i].why != RefusedThrice
    ensures Thrice(log)
  {
  }

  lemma ThriceAfter(before: seq<Event>, first: seq<Event>, after: seq<Event>)
    requires (forall i :: 0 <= i < |before| ==> before[i].Posted?) && (forall i :: 0 <= i < |first| ==>
        first[i].Posted?)
    requires Thrice(after)
    ensures Thrice(before + (first + after))
  {
    NoneThrice(before + first);
    ThriceJoined(before + first, after);
    assert before + (first + after) == before + first + after;
  }

  lemma ThirdRefusal(records: seq<Record>, n: nat, log: seq<Event>)
    requires n + 1 >= maxRefusals
    requires log == [Posted(records, Refused)] + [Quarantined(records, RefusedThrice)]
        || log == [Posted(records, Refused)] + []
    ensures Thrice(Refusing(records, n) + log)
  {
    var all := Refusing(records, n) + log;
    assert forall i :: 0 <= i <= n ==> all[i] == Posted(records, Refused);
  }

  lemma {:induction false} SplitThrice(env: Env, records: seq<Record>, feed: seq<Answer>)
    requires |records| > 1
    ensures Thrice(Split(env, records, feed).log)
    decreases |records|, 0
  {
    var half := |records| / 2;
    DeliverThrice(env, records[..half], feed);
    var first := Deliver(env, records[..half], feed);
    if first.outcome == Delivered {
      DeliverThrice(env, records[half..], first.rest);
      ThriceJoined(first.log, Deliver(env, records[half..], first.rest).log);
    }
  }

  // ---------------------------------------------------------------- bisection

  /** Which records the collector refuses, and which the encoder takes. */
  datatype Judge = Judge(bad: Record -> bool, codable: Record -> bool)

  predicate AnyBad(j: Judge, records: seq<Record>) {
    exists r :: r in records && j.bad(r)
  }

  /** The collector refuses a request exactly when it holds a bad record, and
      accepts it whole otherwise. */
  predicate Judged(j: Judge, log: seq<Event>) {
    forall i :: 0 <= i < |log| && log[i].Posted? ==>
        log[i].answer == if AnyBad(j, log[i].records) then Refused else Accepted(0)
  }

  /** The encoder refuses a request exactly when it holds a record it cannot
      encode, and the quarantine takes everything. */
  ghost predicate Fits(env: Env, j: Judge) {
    && (forall rs :: env.encodes(rs) <==> forall r :: r in rs ==> j.codable(r))
    && (forall rs :: env.keeps(rs))
  }

  predicate Good(j: Judge, r: Record) {
    !j.bad(r) && j.codable(r)
  }

  function Sift(j: Judge, records: seq<Record>, good: bool): seq<Record> {
    if records == [] then []
    else (if Good(j, records[0]) == good then [records[0]] else []) + Sift(j, records[1..], good)
  }

  lemma {:induction false} SiftJoined(j: Judge, a: seq<Record>, b: seq<Record>, good: bool)
    ensures Sift(j, a + b, good) == Sift(j, a, good) + Sift(j, b, good)
  {
    if a == [] {
      assert a + b == b;
    } else {
      assert (a + b)[0] == a[0] && (a + b)[1..] == a[1..] + b;
      SiftJoined(j, a[1..], b, good);
    }
  }

  lemma {:induction false} SiftAllGood(j: Judge, records: seq<Record>)
    requires forall r :: r in records ==> Good(j, r)
    ensures Sift(j, records, true) == records && Sift(j, records, false) == []
  {
    if records != [] {
      SiftAllGood(j, records[1..]);
    }
  }

  /** The delivery came to its end: the good records accepted, the others
      quarantined, both in the order of the batch, within the posts allowed. */
  ghost predicate Isolated(j: Judge, records: seq<Record>, feed: seq<Answer>, o: Out) {
    && o.outcome == Delivered
    && AcceptedIn(o.log) == Sift(j, records, true)
    && QuarantinedIn(o.log) == Sift(j, records, false)
    && |o.rest| == |feed| - Posts(o.log)
    && Posts(o.log) <= 4 * |records| - 1
    && ((forall r :: r in records ==> j.bad(r) && j.codable(r)) ==> Posts(o.log) == 4 * |records| - 1)
  }

  lemma JudgedParts(j: Judge, a: seq<Event>, b: seq<Event>)
    requires Judged(j, a + b)
    ensures Judged(j, a) && Judged(j, b)
  {
    forall i | 0 <= i < |a| && a[i].Posted?
      ensures a[i].answer == if AnyBad(j, a[i].records) then Refused else Accepted(0)
    {
      assert (a + b)[i] == a[i];
    }
    forall i | 0 <= i < |b| && b[i].Posted?
      ensures b[i].answer == if AnyBad(j, b[i].records) then Refused else Accepted(0)
    {
      assert (a + b)[|a| + i] == b[i];
    }
  }

  /** Bisection isolates exactly the bad records: with answers enough for 4n - 1
      requests, all given by the collector j describes, the delivery of n records
      ends with every good record accepted and exactly the others quarantined. A
      collector that refuses every record costs 4n - 1 requests. */
  lemma {:induction false} BisectionIsolates(env: Env, j: Judge, records: seq<Record>, feed: seq<Answer>)
    requires Fits(env, j) && |records| >= 1 && |feed| >= 4 * |records| - 1
    requires Judged(j, Deliver(env, records, feed).log)
    ensures Isolated(j, records, feed, Deliver(env, records, feed))
    decreases |records|, 1
  {
    if !env.encodes(records) {
      if |records| > 1 {
        SplitIsolates(env, j, records, feed);
      } else {
        SingleUncodable(j, records);
      }
    } else {
      var a, rest := feed[0], feed[1..];
      var first := [Posted(records, a)];
      var log := Attempt(env, records, feed, 0).log;
      assert log[0] == Posted(records, a);
      if !AnyBad(j, records) {
        assert a == Accepted(0);
        SiftAllGood(j, records);
        assert AcceptedIn(first) == records + AcceptedIn(first[1..]);
      } else if |records| > 1 {
        JudgedParts(j, first, Split(env, records, rest).log);
        SplitIsolates(env, j, records, rest);
        Joined(first, Split(env, records, rest).log);
      } else {
        SingleRefused(env, j, records, feed);
      }
    }
  }

  lemma SingleUncodable(j: Judge, records: seq<Record>)
    requires |records| == 1 && !j.codable(records[0])
    ensures var log := [Quarantined(records, Unencodable)];
            && AcceptedIn(log) == [] && QuarantinedIn(log) == records && Posts(log) == 0
            && Sift(j, records, true) == [] && Sift(j, records, false) == records
  {
    var log := [Quarantined(records, Unencodable)];
    assert log[1..] == [] && records[1..] == [] && records == [records[0]];
    assert QuarantinedIn(log) == records + QuarantinedIn(log[1..]);
  }

  lemma SingleRefused(env: Env, j: Judge, records: seq<Record>, feed: seq<Answer>)
    requires Fits(env, j) && |records| == 1 && j.bad(records[0]) && |feed| >= 3
    requires Judged(j, Attempt(env, records, feed, 0).log)
    ensures Isolated(j, records, feed, Attempt(env, records, feed, 0))
  {
    var p := Posted(records, Refused);
    assert AnyBad(j, records) by {
      assert records[0] in records;
    }
    var o2, o1, o0 := Attempt(env, records, feed[2..], 2), Attempt(env, records, feed[1..], 1), Attempt(env, records,
        feed, 0);
    assert o0.log[0] == Posted(records, feed[0]);
    assert o0 == Then([p], o1);
    JudgedParts(j, [p], o1.log);
    assert feed[1..][1..] == feed[2..] && feed[1..][0] == feed[1];
    assert o1.log[0] == Posted(records, feed[1]);
    assert o1 == Then([p], o2);
    JudgedParts(j, [p], o2.log);
    assert feed[2..][1..] == feed[3..] && feed[2..][0] == feed[2];
    assert o2.log[0] == Posted(records, feed[2]);
    assert o2 == Then([p], Out(Delivered, [Quarantined(records, RefusedThrice)], feed[3..]));
    SingleLog(j, records, o0.log);
  }

  lemma SingleLog(j: Judge, records: seq<Record>, log: seq<Event>)
    requires |records| == 1 && j.bad(records[0])
    requires log == [Posted(records, Refused)] + ([Posted(records, Refused)]
                    + ([Posted(records, Refused)] + [Quarantined(records, RefusedThrice)]))
    ensures AcceptedIn(log) == [] && QuarantinedIn(log) == records && Posts(log) == 3
    ensures Sift(j, records, true) == [] && Sift(j, records, false) == records
  {
    var p, q := [Posted(records, Refused)], [Quarantined(records, RefusedThrice)];
    Joined(p, p + (p + q));
    Joined(p, p + q);
    Joined(p, q);
    assert p[1..] == [] && q[1..] == [] && records[1..] == [] && records == [records[0]];
    assert AcceptedIn(p) == [] && QuarantinedIn(p) == [] && Posts(p) == 1;
    assert QuarantinedIn(q) == records + QuarantinedIn(q[1..]) && AcceptedIn(q) == [] && Posts(q) == 0;
  }

  lemma {:induction false} SplitIsolates(env: Env, j: Judge, records: seq<Record>, feed: seq<Answer>)
    requires Fits(env, j) && |records| > 1 && |feed| >= 4 * |records| - 2
    requires Judged(j, Split(env, records, feed).log)
    ensures var o := Split(env, records, feed);
            && o.outcome == Delivered
            && AcceptedIn(o.log) == Sift(j, records, true) && QuarantinedIn(o.log) == Sift(j, records, false)
            && |o.rest| == |feed| - Posts(o.log) && Posts(o.log) <= 4 * |records| - 2
            && ((forall r :: r in records ==> j.bad(r) && j.codable(r)) ==> Posts(o.log) == 4 * |records| - 2)
    decreases |records|, 0
  {
    var half := |records| / 2;
    var left, right := records[..half], records[half..];
    assert records == left + right;
    SiftJoined(j, left, right, true);
    SiftJoined(j, left, right, false);
    var first := Deliver(env, left, feed);
    FirstJudged(env, j, records, feed);
    BisectionIsolates(env, j, left, feed);
    var second := Deliver(env, right, first.rest);
    JudgedParts(j, first.log, second.log);
    BisectionIsolates(env, j, right, first.rest);
    Joined(first.log, second.log);
  }

  lemma FirstJudged(env: Env, j: Judge, records: seq<Record>, feed: seq<Answer>)
    requires |records| > 1 && Judged(j, Split(env, records, feed).log)
    ensures Judged(j, Deliver(env, records[..|records| / 2], feed).log)
  {
    var first := Deliver(env, records[..|records| / 2], feed);
    if first.outcome == Delivered {
      JudgedParts(j, first.log, Deliver(env, records[|records| / 2..], first.rest).log);
    }
  }

  // ---------------------------------------------------------------- the collector's answers

  lemma JudgedJoined(j: Judge, a: seq<Event>, b: seq<Event>)
    requires Judged(j, a) && Judged(j, b)
    ensures Judged(j, a + b)
  {
  }

  lemma {:induction false} SplitFeed(env: Env, j: Judge, records: seq<Record>, tail: seq<Answer>)
      returns (feed: seq<Answer>)
    requires Fits(env, j) && |records| > 1
    ensures var o := Split(env, records, feed); o.outcome == Delivered && o.rest == tail && Judged(j, o.log)
    ensures |feed| >= |tail|
    decreases |records|, 0
  {
    var half := |records| / 2;
    var second := CollectorFeed(env, j, records[half..], tail);
    feed := CollectorFeed(env, j, records[..half], second);
    var first := Deliver(env, records[..half], feed);
    JudgedJoined(j, first.log, Deliver(env, records[half..], first.rest).log);
  }

  /** The collector j describes has an answer for every request: with its answers, and tail
      left over, the delivery comes to its end. */
  lemma {:induction false} CollectorFeed(env: Env, j: Judge, records: seq<Record>, tail: seq<Answer>)
    returns (feed: seq<Answer>)
    requires Fits(env, j) && |records| >= 1
    ensures var o := Deliver(env, records, feed); o.outcome == Delivered && o.rest == tail && Judged(j, o.log)
    ensures |feed| >= |tail|
    decreases |records|, 1
  {
    if !env.encodes(records) {
      if |records| > 1 {
        feed := SplitFeed(env, j, records, tail);
      } else {
        feed := tail;
      }
    } else if !AnyBad(j, records) {
      feed := [Accepted(0)] + tail;
    } else if |records| > 1 {
      var rest := SplitFeed(env, j, records, tail);
      feed := [Refused] + rest;
      assert feed[1..] == rest;
      JudgedJoined(j, [Posted(records, Refused)], Split(env, records, rest).log);
    } else {
      feed := [Refused] + ([Refused] + ([Refused] + tail));
      ThreeRefused(env, j, records, tail);
    }
  }

  lemma ThreeRefused(env: Env, j: Judge, records: seq<Record>, tail: seq<Answer>)
    requires Fits(env, j) && |records| == 1 && AnyBad(j, records)
    ensures var o := Attempt(env, records, [Refused] + ([Refused] + ([Refused] + tail)), 0);
            o.outcome == Delivered && o.rest == tail && Judged(j, o.log)
  {
    var p := [Posted(records, Refused)];
    var f1, f2 := [Refused] + tail, [Refused] + ([Refused] + tail);
    assert f1[1..] == tail && f2[1..] == f1 && ([Refused] + f2)[1..] == f2;
    var o1 := Attempt(env, records, f1, 2);
    assert o1 == Then(p, Out(Delivered, [Quarantined(records, RefusedThrice)], tail));
    assert Attempt(env, records, f2, 1) == Then(p, o1);
    assert Attempt(env, records, [Refused] + f2, 0) == Then(p, Then(p, o1));
  }

  /** So bisection isolates the bad records of every batch against every such collector, whatever
      it would answer afterwards. */
  lemma EveryBatchIsolated(env: Env, j: Judge, records: seq<Record>, tail: seq<Answer>) returns (feed: seq<Answer>)
    requires Fits(env, j) && |records| >= 1 && |tail| >= 4 * |records| - 1
    ensures Judged(j, Deliver(env, records, feed).log) && Isolated(j, records, feed, Deliver(env, records, feed))
    ensures Deliver(env, records, feed).rest == tail
  {
    feed := CollectorFeed(env, j, records, tail);
    BisectionIsolates(env, j, records, feed);
  }
}
