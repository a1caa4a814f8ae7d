/** What every delivery does, whatever the collector answers, the encoder takes and the
    quarantine keeps, said of its log and its outcome alone (adapters/otel/send.go). */
module DeliveryLaws {
  import opened Delivery
  import opened Bisection

  function Of(e: Event): seq<Record> {
    e.records
  }

  /** The records event after event settles: accepted with nothing dropped, or quarantined. */
  function SettledIn(log: seq<Event>): seq<Record> {
    if log == [] then []
    else
      var n := |log| - 1;
      SettledIn(log[..n]) + if log[n].Posted? && log[n].answer != Accepted(0) then [] else Of(log[n])
  }

  /** The answers the requests of the log got, in order. */
  function AnswersOf(log: seq<Event>): seq<Answer> {
    if log == [] then []
    else
      var n := |log| - 1;
      AnswersOf(log[..n]) + if log[n].Posted? then [log[n].answer] else []
  }

  /** The next event is another request of the same records. */
  predicate SentAgain(log: seq<Event>, i: nat)
    requires i < |log|
  {
    i + 1 < |log| && log[i + 1].Posted? && Of(log[i + 1]) == Of(log[i])
  }

  predicate QuarantinedNext(log: seq<Event>, i: nat, why: Why)
    requires i < |log|
  {
    i + 1 < |log| && log[i + 1] == Quarantined(Of(log[i]), why)
  }

  /** The next event is of the first records of this one, but not of all. */
  predicate PartNext(log: seq<Event>, i: nat)
    requires i < |log|
  {
    i + 1 < |log| && Of(log[i + 1]) < Of(log[i])
  }

  /** The delivery ended here without settling its records. */
  predicate StopsWith(log: seq<Event>, i: nat, outcome: Outcome, why: Outcome) {
    i + 1 == |log| && outcome == why
  }

  predicate FollowsPost(log: seq<Event>, outcome: Outcome, i: nat)
    requires i < |log| && log[i].Posted?
  {
    var a := log[i].answer;
    if a == Again then SentAgain(log, i) || StopsWith(log, i, outcome, ContextEnded)
    else if a == Accepted(0) then true
    else if a.Accepted? then QuarantinedNext(log, i, Dropped) || StopsWith(log, i, outcome, QuarantineFailed)
    else if |Of(log[i])| > 1 then
      PartNext(log, i) || StopsWith(log, i, outcome, ContextEnded) || StopsWith(log, i, outcome, QuarantineFailed)
    else
      || SentAgain(log, i) || QuarantinedNext(log, i, RefusedThrice)
      || StopsWith(log, i, outcome, ContextEnded) || StopsWith(log, i, outcome, QuarantineFailed)
  }

  /** What led to a quarantine, three refusals running apart. */
  predicate LedTo(env: Env, log: seq<Event>, i: nat)
    requires i < |log| && log[i].Quarantined?
  {
    match log[i].why
    case Dropped =>
      i > 0 && log[i - 1].Posted? && Of(log[i - 1]) == Of(log[i]) && log[i - 1].answer.Accepted?
      && log[i - 1].answer.rejected > 0
    case Unencodable => |Of(log[i])| <= 1 && !env.encodes(Of(log[i]))
    case RefusedThrice => i > 0 && log[i - 1] == Posted(Of(log[i]), Refused) && |Of(log[i])| <= 1
  }

  predicate Lawful(env: Env, log: seq<Event>, outcome: Outcome, i: nat)
    requires i < |log|
  {
    if log[i].Posted? then env.encodes(Of(log[i])) && FollowsPost(log, outcome, i)
    else env.keeps(Of(log[i])) && LedTo(env, log, i)
  }

  ghost predicate AllLawful(env: Env, o: Out) {
    forall i :: 0 <= i < |o.log| ==> Lawful(env, o.log, o.outcome, i)
  }

  /** What is settled, what was answered, and what the outcome says of the rest. */
  ghost predicate Accounts(env: Env, records: seq<Record>, feed: seq<Answer>, o: Out) {
    && AnswersOf(o.log) + o.rest == feed
    && SettledIn(o.log) <= records
    && (o.outcome == Delivered ==> SettledIn(o.log) == records)
    && (o.outcome == ContextEnded ==> o.rest == [])
    && (o.outcome == QuarantineFailed ==> exists rs :: !env.keeps(rs) && SettledIn(o.log) + rs <= records)
  }

  predicate NoneEmpty(log: seq<Event>) {
    forall i :: 0 <= i < |log| ==> Of(log[i]) != []
  }

  // ---------------------------------------------------------------- joining logs

  lemma {:induction false} SettledJoined(a: seq<Event>, b: seq<Event>)
    ensures SettledIn(a + b) == SettledIn(a) + SettledIn(b)
  {
    if b == [] {
      assert a + b == a;
    } else {
      var n := |b| - 1;
      assert (a + b)[..|a| + n] == a + b[..n];
      SettledJoined(a, b[..n]);
    }
  }

  lemma {:induction false} AnswersJoined(a: seq<Event>, b: seq<Event>)
    ensures AnswersOf(a + b) == AnswersOf(a) + AnswersOf(b)
  {
    if b == [] {
      assert a + b == a;
    } else {
      var n := |b| - 1;
      assert (a + b)[..|a| + n] == a + b[..n];
      AnswersJoined(a, b[..n]);
    }
  }

  lemma LawfulBefore(env: Env, a: seq<Event>, b: seq<Event>, outcome: Outcome, i: nat)
    requires i < |a| && Lawful(env, a, Delivered, i)
    ensures Lawful(env, a + b, outcome, i)
  {
  }

  lemma LawfulAfter(env: Env, a: seq<Event>, b: seq<Event>, outcome: Outcome, i: nat)
    requires i < |b| && Lawful(env, b, outcome, i)
    ensures Lawful(env, a + b, outcome, |a| + i)
  {
    var ab := a + b;
    assert ab[|a| + i] == b[i];
    assert i + 1 < |b| ==> ab[|a| + i + 1] == b[i + 1];
    assert i > 0 ==> ab[|a| + i - 1] == b[i - 1];
  }

  lemma LawfulJoined(env: Env, a: Out, b: Out)
    requires AllLawful(env, a) && a.outcome == Delivered && AllLawful(env, b)
    ensures AllLawful(env, Then(a.log, b))
  {
    var ab := a.log + b.log;
    forall i | 0 <= i < |ab|
      ensures Lawful(env, ab, b.outcome, i)
    {
      if i < |a.log| {
        LawfulBefore(env, a.log, b.log, b.outcome, i);
      } else {
        LawfulAfter(env, a.log, b.log, b.outcome, i - |a.log|);
      }
    }
  }

  /** A request before a delivery whose every event is lawful. */
  lemma LawfulPosted(env: Env, p: Event, b: Out)
    requires p.Posted? && env.encodes(p.records) && FollowsPost([p] + b.log, b.outcome, 0) && AllLawful(env, b)
    ensures AllLawful(env, Then([p], b))
  {
    var ab := [p] + b.log;
    forall i | 0 <= i < |ab|
      ensures Lawful(env, ab, b.outcome, i)
    {
      if i > 0 {
        LawfulAfter(env, [p], b.log, b.outcome, i - 1);
      }
    }
  }

  lemma OneEvent(e: Event)
    ensures SettledIn([e]) == if e.Posted? && e.answer != Accepted(0) then [] else e.records
    ensures AnswersOf([e]) == if e.Posted? then [e.answer] else []
  {
    var log := [e];
    assert log[..0] == [];
    assert SettledIn(log) == [] + if e.Posted? && e.answer != Accepted(0) then [] else e.records;
    assert AnswersOf(log) == [] + if e.Posted? then [e.answer] else [];
  }

  lemma AccountsPosted(env: Env, records: seq<Record>, feed: seq<Answer>, b: Out)
    requires feed != [] && feed[0] != Accepted(0) && Accounts(env, records, feed[1..], b)
    ensures Accounts(env, records, feed, Then([Posted(records, feed[0])], b))
  {
    var p := [Posted(records, feed[0])];
    SettledJoined(p, b.log);
    AnswersJoined(p, b.log);
    OneEvent(p[0]);
    assert SettledIn(p + b.log) == SettledIn(b.log);
    assert feed == [feed[0]] + feed[1..];
    assert [feed[0]] + AnswersOf(b.log) + b.rest == [feed[0]] + (AnswersOf(b.log) + b.rest);
  }

  /** The first event of a delivery is of its first records; without one nothing was settled. */
  ghost predicate Opens(records: seq<Record>, o: Out) {
    if o.log == [] then o.outcome != Delivered else Of(o.log[0]) <= records
  }

  // ---------------------------------------------------------------- the laws

  lemma QuarantineLawful(env: Env, records: seq<Record>, why: Why, feed: seq<Answer>)
    ensures Accounts(env, records, feed, Quarantine(env, records, why, feed))
    ensures Opens(records, Quarantine(env, records, why, feed))
  {
    OneEvent(Quarantined(records, why));
    assert SettledIn([]) + records <= records;
  }

  /** For every encoder, quarantine and list of answers: a request answered by neither an
      acceptance nor a refusal is sent again or was the last, one accepted with records
      dropped is quarantined, a refused one is split or, of one record, sent again or
      quarantined, and every quarantine has its reason right before it or in the encoder.
      The answers are used in order, each once; the records are settled in order, each
      once, and all of them exactly when the delivery says so. */
  lemma {:induction false} DeliverLawful(env: Env, records: seq<Record>, feed: seq<Answer>)
    ensures var o := Deliver(env, records, feed);
            && AllLawful(env, o) && Accounts(env, records, feed, o) && Opens(records, o)
            && (records != [] ==> NoneEmpty(o.log))
    decreases |records|, |feed| + 1
  {
    if !env.encodes(records) {
      if |records| > 1 {
        SplitLawful(env, records, feed);
      } else {
        QuarantineLawful(env, records, Unencodable, feed);
      }
    } else {
      AttemptLawful(env, records, feed, 0);
    }
  }

  lemma {:induction false} SplitLawful(env: Env, records: seq<Record>, feed: seq<Answer>)
    requires |records| > 1
    ensures var o := Split(env, records, feed);
            && AllLawful(env, o) && Accounts(env, records, feed, o)
            && Opens(records[..|records| / 2], o) && NoneEmpty(o.log)
    decreases |records|, 0
  {
    var half := |records| / 2;
    var first := Deliver(env, records[..half], feed);
    DeliverLawful(env, records[..half], feed);
    assert records == records[..half] + records[half..];
    if first.outcome == Delivered {
      var second := Deliver(env, records[half..], first.rest);
      DeliverLawful(env, records[half..], first.rest);
      LawfulJoined(env, first, second);
      AccountsJoined(env, records, half, feed, first, second);
    } else {
      AccountsFirst(env, records, half, feed, first);
    }
  }

  lemma AccountsJoined(env: Env, records: seq<Record>, half: nat, feed: seq<Answer>, first: Out, second: Out)
    requires half <= |records| && first.outcome == Delivered
    requires Accounts(env, records[..half], feed, first) && Accounts(env, records[half..], first.rest, second)
    ensures Accounts(env, records, feed, Then(first.log, second))
  {
    SettledJoined(first.log, second.log);
    AnswersJoined(first.log, second.log);
    assert records == records[..half] + records[half..];
    assert AnswersOf(first.log) + AnswersOf(second.log) + second.rest
        == AnswersOf(first.log) + (AnswersOf(second.log) + second.rest);
    if second.outcome == QuarantineFailed {
      var rs :| !env.keeps(rs) && SettledIn(second.log) + rs <= records[half..];
      assert records[..half] + SettledIn(second.log) + rs == records[..half] + (SettledIn(second.log) + rs);
    }
  }

  lemma AccountsFirst(env: Env, records: seq<Record>, half: nat, feed: seq<Answer>, first: Out)
    requires half <= |records| && first.outcome != Delivered && Accounts(env, records[..half], feed, first)
    ensures Accounts(env, records, feed, first)
  {
    if first.outcome == QuarantineFailed {
      var rs :| !env.keeps(rs) && SettledIn(first.log) + rs <= records[..half];
      assert SettledIn(first.log) + rs <= records;
    }
  }

  /** What an attempt to deliver records with the answers of feed comes to. */
  ghost predicate Tried(env: Env, records: seq<Record>, feed: seq<Answer>, o: Out) {
    && AllLawful(env, o) && Accounts(env, records, feed, o)
    && (if feed == [] then o.log == [] && o.outcome == ContextEnded
        else o.log != [] && o.log[0] == Posted(records, feed[0]))
    && (records != [] ==> NoneEmpty(o.log))
  }

  lemma {:induction false} AttemptLawful(env: Env, records: seq<Record>, feed: seq<Answer>, refusals: nat)
    requires env.encodes(records)
    ensures Tried(env, records, feed, Attempt(env, records, feed, refusals))
    decreases |records|, |feed|, 1
  {
    if feed == [] {
      NothingTried(env, records, refusals);
    } else if feed[0] == Accepted(0) {
      AcceptedLawful(env, records, feed, refusals);
    } else if feed[0].Accepted? {
      QuarantinedLawful(env, records, feed, Dropped);
    } else if feed[0] == Refused && |records| > 1 {
      RefusedLawful(env, records, feed, refusals);
    } else if feed[0] == Refused && refusals + 1 >= maxRefusals {
      QuarantinedLawful(env, records, feed, RefusedThrice);
    } else {
      AgainLawful(env, records, feed, refusals);
    }
  }

  lemma NothingTried(env: Env, records: seq<Record>, refusals: nat)
    ensures Tried(env, records, [], Attempt(env, records, [], refusals))
  {
  }

  lemma {:induction false} RefusedLawful(env: Env, records: seq<Record>, feed: seq<Answer>, refusals: nat)
    requires env.encodes(records) && |records| > 1 && feed != [] && feed[0] == Refused
    ensures Tried(env, records, feed, Attempt(env, records, feed, refusals))
    decreases |records|, |feed|, 0
  {
    var sub := Split(env, records, feed[1..]);
    SplitLawful(env, records, feed[1..]);
    PostedThen(env, records, feed, sub);
    assert Attempt(env, records, feed, refusals) == Then([Posted(records, feed[0])], sub);
  }

  lemma {:induction false} AgainLawful(env: Env, records: seq<Record>, feed: seq<Answer>, refusals: nat)
    requires env.encodes(records) && feed != []
    requires feed[0] == Again || (feed[0] == Refused && |records| <= 1 && refusals + 1 < maxRefusals)
    ensures Tried(env, records, feed, Attempt(env, records, feed, refusals))
    decreases |records|, |feed|, 0
  {
    var next := if feed[0] == Refused then refusals + 1 else 0;
    var sub := Attempt(env, records, feed[1..], next);
    AttemptLawful(env, records, feed[1..], next);
    PostedThen(env, records, feed, sub);
    assert Attempt(env, records, feed, refusals) == Then([Posted(records, feed[0])], sub);
  }

  lemma PostedThen(env: Env, records: seq<Record>, feed: seq<Answer>, sub: Out)
    requires env.encodes(records) && feed != [] && feed[0] != Accepted(0)
    requires AllLawful(env, sub) && Accounts(env, records, feed[1..], sub) && (records != [] ==> NoneEmpty(sub.log))
    requires FollowsPost([Posted(records, feed[0])] + sub.log, sub.outcome, 0)
    ensures Tried(env, records, feed, Then([Posted(records, feed[0])], sub))
  {
    AccountsPosted(env, records, feed, sub);
    LawfulPosted(env, Posted(records, feed[0]), sub);
  }

  lemma AcceptedLawful(env: Env, records: seq<Record>, feed: seq<Answer>, refusals: nat)
    requires env.encodes(records) && feed != [] && feed[0] == Accepted(0)
    ensures Tried(env, records, feed, Attempt(env, records, feed, refusals))
  {
    OneEvent(Posted(records, Accepted(0)));
    assert feed == [feed[0]] + feed[1..];
  }

  /** The records are quarantined right after the answer that asks for it, or cannot be. */
  lemma QuarantinedLawful(env: Env, records: seq<Record>, feed: seq<Answer>, why: Why)
    requires env.encodes(records) && feed != []
    requires || (why == Dropped && feed[0].Accepted? && feed[0].rejected > 0)
             || (why == RefusedThrice && feed[0] == Refused && |records| <= 1)
    ensures Tried(env, records, feed, Then([Posted(records, feed[0])], Quarantine(env, records, why, feed[1..])))
  {
    var q := Quarantine(env, records, why, feed[1..]);
    QuarantineLawful(env, records, why, feed[1..]);
    AccountsPosted(env, records, feed, q);
    var log := [Posted(records, feed[0])] + q.log;
    if env.keeps(records) {
      assert log == [Posted(records, feed[0]), Quarantined(records, why)];
      assert Lawful(env, log, Delivered, 0) && Lawful(env, log, Delivered, 1);
    } else {
      assert log == [Posted(records, feed[0])];
      assert Lawful(env, log, QuarantineFailed, 0);
    }
  }

  // ---------------------------------------------------------------- never a fourth refusal

  /** Events i - 3 to i are four refusals of one request of one record. */
  predicate FourRefusals(log: seq<Event>, i: nat)
    requires 3 <= i < |log|
  {
    && log[i].Posted? && log[i].answer == Refused && |Of(log[i])| <= 1
    && log[i - 1] == log[i] && log[i - 2] == log[i] && log[i - 3] == log[i]
  }

  predicate NoFour(log: seq<Event>) {
    forall i :: 3 <= i < |log| ==> !FourRefusals(log, i)
  }

  /** The log does not end in the refusal of one record. */
  predicate EndsOtherwise(log: seq<Event>) {
    log != [] ==> !(log[|log| - 1].Posted? && log[|log| - 1].answer == Refused && |Of(log[|log| - 1])| <= 1)
  }

  lemma NoFourJoined(a: seq<Event>, b: seq<Event>)
    requires NoFour(a) && NoFour(b) && EndsOtherwise(a)
    ensures NoFour(a + b)
  {
    var log := a + b;
    forall i | 3 <= i < |log|
      ensures !FourRefusals(log, i)
    {
      if i < |a| {
        assert FourRefusals(log, i) ==> FourRefusals(a, i);
      } else if i - 3 >= |a| {
        assert FourRefusals(log, i) ==> FourRefusals(b, i - |a|);
      } else {
        assert a != [] && log[|a| - 1] == a[|a| - 1];
      }
    }
  }

  lemma {:induction false} DeliverNoFour(env: Env, records: seq<Record>, feed: seq<Answer>)
    ensures NoFour(Deliver(env, records, feed).log)
    decreases |records|, |feed| + 1
  {
    if !env.encodes(records) {
      if |records| > 1 {
        SplitNoFour(env, records, feed);
      }
    } else {
      AttemptNoFour(env, records, feed, 0);
      assert Refusing(records, 0) + Attempt(env, records, feed, 0).log == Attempt(env, records, feed, 0).log;
    }
  }

  lemma {:induction false} SplitNoFour(env: Env, records: seq<Record>, feed: seq<Answer>)
    requires |records| > 1
    ensures NoFour(Split(env, records, feed).log)
    decreases |records|, 0
  {
    var half := |records| / 2;
    var first := Deliver(env, records[..half], feed);
    DeliverNoFour(env, records[..half], feed);
    if first.outcome == Delivered {
      DeliverLawful(env, records[..half], feed);
      assert first.log != [] ==> Lawful(env, first.log, first.outcome, |first.log| - 1);
      DeliverNoFour(env, records[half..], first.rest);
      NoFourJoined(first.log, Deliver(env, records[half..], first.rest).log);
    }
  }

  lemma {:induction false} AttemptNoFour(env: Env, records: seq<Record>, feed: seq<Answer>, refusals: nat)
    requires env.encodes(records) && refusals < 3 && (refusals > 0 ==> |records| <= 1)
    ensures NoFour(Refusing(records, refusals) + Attempt(env, records, feed, refusals).log)
    decreases |records|, |feed|, 1
  {
    if feed == [] || feed[0].Accepted? || (feed[0] == Refused && |records| <= 1 && refusals == 2) {
      LastAttempt(env, records, feed, refusals);
    } else if feed[0] == Refused && |records| <= 1 {
      AttemptNoFour(env, records, feed[1..], refusals + 1);
      Refusing1(records, refusals, Attempt(env, records, feed[1..], refusals + 1).log);
    } else if feed[0] == Refused {
      SplitNoFour(env, records, feed[1..]);
      NoFourAfter(records, refusals, feed[0], Split(env, records, feed[1..]).log);
    } else {
      AttemptNoFour(env, records, feed[1..], 0);
      var after := Attempt(env, records, feed[1..], 0).log;
      assert Refusing(records, 0) + after == after;
      NoFourAfter(records, refusals, feed[0], after);
    }
  }

  lemma LastAttempt(env: Env, records: seq<Record>, feed: seq<Answer>, refusals: nat)
    requires refusals < 3
    requires feed == [] || feed[0].Accepted? || (feed[0] == Refused && |records| <= 1 && refusals == 2)
    ensures NoFour(Refusing(records, refusals) + Attempt(env, records, feed, refusals).log)
  {
    FewRefusals(Refusing(records, refusals) + Attempt(env, records, feed, refusals).log, refusals);
  }

  lemma Refusing1(records: seq<Record>, refusals: nat, after: seq<Event>)
    ensures Refusing(records, refusals) + ([Posted(records, Refused)] + after)
            == Refusing(records, refusals + 1) + after
  {
    assert Refusing(records, refusals) + [Posted(records, Refused)] == Refusing(records, refusals + 1);
    assert Refusing(records, refusals) + ([Posted(records, Refused)] + after)
        == Refusing(records, refusals) + [Posted(records, Refused)] + after;
  }

  lemma NoFourAfter(records: seq<Record>, refusals: nat, a: Answer, after: seq<Event>)
    requires refusals < 3 && NoFour(after) && (a == Refused ==> |records| > 1)
    ensures NoFour(Refusing(records, refusals) + ([Posted(records, a)] + after))
  {
    var first := Refusing(records, refusals) + [Posted(records, a)];
    NoFourJoined(first, after);
    assert Refusing(records, refusals) + ([Posted(records, a)] + after) == first + after;
  }

  lemma FewRefusals(log: seq<Event>, refusals: nat)
    requires refusals < 3 && |log| <= refusals + 2
    requires |log| == refusals + 2 ==> log[refusals + 1].Quarantined?
    requires |log| > 3 ==> refusals == 2
    ensures NoFour(log)
  {
  }

  /** A single record refused a third time running is not sent again: no request of one record is
      refused four times running, whatever the answers. */
  lemma NeverFourth(env: Env, records: seq<Record>, feed: seq<Answer>, i: nat)
    ensures var log := Deliver(env, records, feed).log;
            3 <= i < |log| && log[i].Posted? && log[i].answer == Refused && |log[i].records| <= 1 ==>
              !(log[i - 1] == log[i] && log[i - 2] == log[i] && log[i - 3] == log[i])
  {
    DeliverNoFour(env, records, feed);
    var log := Deliver(env, records, feed).log;
    assert 3 <= i < |log| ==> !FourRefusals(log, i);
  }
}
