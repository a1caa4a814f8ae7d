/** What every history of the exporter guarantees. */
module ExportTheorems {
  import opened Delivery
  import opened Bisection
  import opened ExportRun

  // ------------------------------------------------ the steps keep the invariant

  lemma KeptGrows(w: World, e: Event)
    ensures forall r :: Kept(w, r) ==> Kept(Perform(w, e), r)
    ensures Perform(w, e) == w.(accepted := Perform(w, e).accepted, quarantined := Perform(w, e).quarantined)
  {
  }

  /** A batch reported delivered has every record of its range kept. */
  lemma DeliveredIsKept(w: World, b: Batch)
    requires FaithfulBatch(w, b) && b.done && b.out.outcome == Delivered
    ensures forall r :: b.lo <= r < b.hi ==> Kept(w, r)
  {
    assert b.out.log[..b.applied] == b.out.log;
    forall r | b.lo <= r < b.hi
      ensures Kept(w, r)
    {
      assert Range(b.lo, b.hi)[r - b.lo] == r;
      assert Safe(b.out.log, r);
    }
  }

  lemma CursorGrows(w: World, w': World)
    requires CursorSafe(w) && w.accepted <= w'.accepted && w.quarantined <= w'.quarantined
    requires forall r :: w.ack <= r < w'.ack ==> Kept(w, r)
    ensures CursorSafe(w')
  {
    forall r | 0 <= r < w'.ack
      ensures Kept(w', r)
    {
      assert Kept(w, r);
    }
  }

  /** What the acknowledger makes of a delivered batch it has not halted before. */
  lemma SettleSafe(w: World, b: Batch, result: AckResult)
    requires CursorSafe(w) && Counted(w) && b.lo < b.hi && (!w.halted ==> w.ack == b.lo)
    requires b.out.outcome == Delivered ==> forall r :: b.lo <= r < b.hi ==> Kept(w, r)
    ensures CursorSafe(Settle(w, b, result)) && Counted(Settle(w, b, result))
  {
    CursorGrows(w, Settle(w, b, result));
  }

  lemma HeadInStep(c: Config, w: World)
    requires Contiguous(w) && Faithful(w) && Queued(c, w) && InStep(w) && w.acker.Waiting?
        && w.batches[w.taken - 1].done
    ensures var b := w.batches[w.taken - 1];
            && b.lo < b.hi && (!w.halted ==> w.ack == b.lo)
            && (b.out.outcome == Delivered ==> forall r :: b.lo <= r < b.hi ==> Kept(w, r))
  {
    var b := w.batches[w.taken - 1];
    assert FaithfulBatch(w, b);
    assert Follows(w, w.taken - 1);
    if b.out.outcome == Delivered {
      DeliveredIsKept(w, b);
    }
  }

  lemma SafeStep(c: Config, w: World, l: Label)
    requires Inv(c, w) && Can(c, w, l)
    ensures CursorSafe(Apply(c, w, l)) && Counted(Apply(c, w, l))
  {
    if l.AckSettle? {
      HeadInStep(c, w);
      SettleSafe(w, w.batches[w.taken - 1], l.result);
      CursorGrows(Settle(w, w.batches[w.taken - 1], l.result), Apply(c, w, l));
    } else {
      OtherSafe(c, w, l);
    }
  }

  lemma OtherSafe(c: Config, w: World, l: Label)
    requires CursorSafe(w) && Counted(w) && Can(c, w, l) && !l.AckSettle?
    ensures CursorSafe(Apply(c, w, l)) && Counted(Apply(c, w, l))
  {
    CursorGrows(w, Apply(c, w, l));
  }

  /** The batches and the reader are as they were. */
  predicate SameBatches(w: World, w': World) {
    && w'.start == w.start && w'.from == w.from && |w'.batches| == |w.batches|
    && (forall b :: 0 <= b < |w.batches| ==> w'.batches[b].lo == w.batches[b].lo && w'.batches[b].hi == w.batches[b].hi)
  }

  lemma PastKept(w: World, w': World, n: nat)
    requires n <= |w.batches| <= |w'.batches| && w'.start == w.start
    requires forall b :: 0 <= b < |w.batches| ==>
        w'.batches[b].lo == w.batches[b].lo && w'.batches[b].hi == w.batches[b].hi
    ensures Past(w', n) == Past(w, n)
  {
  }

  lemma ContiguousKept(w: World, w': World)
    requires Contiguous(w) && SameBatches(w, w')
    requires !w'.reader.Stopped? ==> w.from <= w'.reader.hi
    requires w'.reader.HasBatch? || w'.reader.HasSlot? ==> w.from < w'.reader.hi
    ensures Contiguous(w')
  {
    forall b | 0 <= b < |w.batches|
      ensures Follows(w', b)
    {
      assert Follows(w, b);
      PastKept(w, w', b);
    }
    PastKept(w, w', |w.batches|);
  }

  lemma ContiguousSend(c: Config, w: World, l: Label)
    requires Contiguous(w) && Can(c, w, l) && l.Send?
    ensures Contiguous(Apply(c, w, l))
  {
    var w' := Apply(c, w, l);
    forall b | 0 <= b < |w'.batches|
      ensures Follows(w', b)
    {
      PastKept(w, w', b);
      if b < |w.batches| {
        assert Follows(w, b);
      }
    }
  }

  lemma ContiguousStep(c: Config, w: World, l: Label)
    requires Contiguous(w) && w.running && Can(c, w, l)
    ensures Apply(c, w, l).running ==> Contiguous(Apply(c, w, l))
  {
    if l.Send? {
      ContiguousSend(c, w, l);
    } else {
      ContiguousKept(w, Apply(c, w, l));
    }
  }

  lemma FaithfulKept(w: World, w': World)
    requires Faithful(w) && w'.batches == w.batches && w'.accepted == w.accepted && w'.quarantined == w.quarantined
    ensures Faithful(w')
  {
    forall b | 0 <= b < |w'.batches|
      ensures FaithfulBatch(w', w'.batches[b])
    {
      assert FaithfulBatch(w, w.batches[b]);
    }
  }

  lemma FaithfulSend(c: Config, w: World, l: Label)
    requires Faithful(w) && Contiguous(w) && Can(c, w, l) && l.Send?
    ensures Faithful(Apply(c, w, l))
  {
    var w' := Apply(c, w, l);
    var n := |w.batches|;
    DeliverCovers(l.env, Range(w.from, w.reader.hi), l.feed);
    forall b | 0 <= b < |w'.batches|
      ensures FaithfulBatch(w', w'.batches[b])
    {
      if b < n {
        assert w'.batches[b] == w.batches[b] && FaithfulBatch(w, w.batches[b]);
      } else {
        assert w'.batches[b].out.log[..0] == [];
      }
    }
  }

  /** One more event done: what the log says so far is what was kept. */
  lemma EffectKeeps(w: World, b: Batch)
    requires FaithfulBatch(w, b) && b.applied < |b.out.log|
    ensures FaithfulBatch(Perform(w, b.out.log[b.applied]), b.(applied := b.applied + 1))
  {
    var e := b.out.log[b.applied];
    var w' := Perform(w, e);
    var was, now := b.out.log[..b.applied], b.out.log[..b.applied + 1];
    assert now == was + [e];
    Joined(was, [e]);
    assert [e][1..] == [];
    assert AcceptedIn([e]) == (if e.Posted? && e.answer == Accepted(0) then e.records else []) + AcceptedIn([e][1..]);
    assert QuarantinedIn([e]) == (if e.Quarantined? then e.records else []) + QuarantinedIn([e][1..]);
    KeptGrows(w, e);
    forall r | Safe(now, r)
      ensures Kept(w', r)
    {
      if !Safe(was, r) {
        assert Safe([e], r);
      }
    }
  }

  lemma FaithfulEffect(c: Config, w: World, l: Label)
    requires Faithful(w) && Can(c, w, l) && l.Effect?
    ensures Faithful(Apply(c, w, l))
  {
    var w' := Apply(c, w, l);
    var e := w.batches[l.b].out.log[w.batches[l.b].applied];
    KeptGrows(w, e);
    forall b | 0 <= b < |w'.batches|
      ensures FaithfulBatch(w', w'.batches[b])
    {
      assert FaithfulBatch(w, w.batches[b]);
      if b == l.b {
        EffectKeeps(w, w.batches[b]);
      }
    }
  }

  lemma FaithfulFinish(c: Config, w: World, l: Label)
    requires Faithful(w) && Can(c, w, l) && l.Finish?
    ensures Faithful(Apply(c, w, l))
  {
    var w' := Apply(c, w, l);
    forall b | 0 <= b < |w'.batches|
      ensures FaithfulBatch(w', w'.batches[b])
    {
      assert FaithfulBatch(w, w.batches[b]);
    }
  }

  lemma FaithfulStep(c: Config, w: World, l: Label)
    requires Faithful(w) && Contiguous(w) && w.running && Can(c, w, l)
    ensures Apply(c, w, l).running ==> Faithful(Apply(c, w, l))
  {
    if l.Send? {
      FaithfulSend(c, w, l);
    } else if l.Effect? {
      FaithfulEffect(c, w, l);
    } else if l.Finish? {
      FaithfulFinish(c, w, l);
    } else {
      FaithfulKept(w, Apply(c, w, l));
    }
  }

  lemma QueuedStep(c: Config, w: World, l: Label)
    requires Queued(c, w) && w.running && Can(c, w, l)
    ensures Apply(c, w, l).running ==> Queued(c, Apply(c, w, l))
  {
    if l.AckTake? {
      QueuedTake(c, w, l);
    } else if OfReader(l) {
      QueuedReader(c, w, l);
    } else {
      QueuedOther(c, w, l);
    }
  }

  /** The steps of the reader. */
  predicate OfReader(l: Label) {
    l.Collect? || l.CollectDone? || l.CollectFail? || l.TakeSlot? || l.SlotCancelled? || l.Send?
  }

  lemma QueuedReader(c: Config, w: World, l: Label)
    requires Queued(c, w) && w.running && Can(c, w, l) && OfReader(l)
    ensures Queued(c, Apply(c, w, l))
  {
    if l.Send? {
      QueuedSend(c, w, l);
    }
  }

  lemma QueuedSend(c: Config, w: World, l: Label)
    requires Queued(c, w) && w.running && Can(c, w, l) && l.Send?
    ensures Queued(c, Apply(c, w, l))
  {
  }

  lemma QueuedOther(c: Config, w: World, l: Label)
    requires Queued(c, w) && w.running && Can(c, w, l) && !OfReader(l) && !l.AckTake?
    ensures Apply(c, w, l).running ==> Queued(c, Apply(c, w, l))
  {
    if l.Effect? || l.Finish? {
      QueuedDelivery(c, w, l);
    } else if l.AckSettle? {
      QueuedSettle(c, w, l);
    }
  }

  lemma QueuedDelivery(c: Config, w: World, l: Label)
    requires Queued(c, w) && w.running && Can(c, w, l) && (l.Effect? || l.Finish?)
    ensures Queued(c, Apply(c, w, l))
  {
  }

  lemma QueuedSettle(c: Config, w: World, l: Label)
    requires Queued(c, w) && w.running && Can(c, w, l) && l.AckSettle?
    ensures Queued(c, Apply(c, w, l))
  {
  }

  lemma QueuedTake(c: Config, w: World, l: Label)
    requires Queued(c, w) && w.running && Can(c, w, l) && l.AckTake?
    ensures Queued(c, Apply(c, w, l))
  {
    var w' := Apply(c, w, l);
    assert forall i :: 0 <= i < |w'.queue| ==> w'.queue[i] == w.queue[i + 1];
  }

  lemma InStepKept(w: World, w': World)
    requires InStep(w) && |w.batches| <= |w'.batches| && w'.start == w.start
    requires forall b :: 0 <= b < |w.batches| ==>
        w'.batches[b].lo == w.batches[b].lo && w'.batches[b].hi == w.batches[b].hi
    requires w'.ack == w.ack && w'.passed == w.passed && w'.halted == w.halted && Settled(w') == Settled(w)
    ensures InStep(w')
  {
    PastKept(w, w', w.passed);
  }

  lemma InStepSettle(c: Config, w: World, l: Label)
    requires Queued(c, w) && InStep(w) && Can(c, w, l) && l.AckSettle?
    ensures InStep(Apply(c, w, l))
  {
    var b := w.batches[w.taken - 1];
    var w' := Apply(c, w, l);
    assert w'.batches == w.batches && w'.start == w.start;
    PastKept(w, w', w.passed);
    PastKept(w, w', w.taken);
  }

  lemma InStepStep(c: Config, w: World, l: Label)
    requires Queued(c, w) && InStep(w) && w.running && Can(c, w, l)
    ensures Apply(c, w, l).running ==> InStep(Apply(c, w, l))
  {
    if l.AckSettle? {
      InStepSettle(c, w, l);
    } else if l.Send? || l.Effect? || l.Finish? {
      InStepBatches(c, w, l);
    } else if !l.Crash? {
      InStepOther(c, w, l);
    }
  }

  lemma InStepBatches(c: Config, w: World, l: Label)
    requires InStep(w) && w.running && Can(c, w, l) && (l.Send? || l.Effect? || l.Finish?)
    ensures InStep(Apply(c, w, l))
  {
    InStepKept(w, Apply(c, w, l));
  }

  lemma InStepOther(c: Config, w: World, l: Label)
    requires Queued(c, w) && InStep(w) && w.running && Can(c, w, l)
    requires !l.AckSettle? && !l.Crash? && !l.Send? && !l.Effect? && !l.Finish?
    ensures InStep(Apply(c, w, l))
  {
    InStepKept(w, Apply(c, w, l));
  }

  lemma StepInv(c: Config, w: World, l: Label)
    requires Inv(c, w) && Can(c, w, l)
    ensures Inv(c, Apply(c, w, l))
  {
    SafeStep(c, w, l);
    if w.running {
      ContiguousStep(c, w, l);
      FaithfulStep(c, w, l);
      QueuedStep(c, w, l);
      InStepStep(c, w, l);
    }
  }

  lemma {:induction false} Reaches(c: Config, w: World, ls: seq<Label>)
    requires Inv(c, w) && IsRun(c, w, ls)
    ensures Inv(c, After(c, w, ls))
    decreases |ls|
  {
    if ls != [] {
      StepInv(c, w, ls[0]);
      Reaches(c, Apply(c, w, ls[0]), ls[1..]);
    }
  }

  // ------------------------------------------------ the theorems

  /** Over any sequence of runs, cancellations, failures and crashes the cursor
      covers only records that were in a request accepted with nothing dropped or
      are in the quarantine, and while a run goes on it stands exactly past a
      prefix of the batches dispatched. */
  lemma CursorNeverPassesUndelivered(c: Config, size: nat, ls: seq<Label>)
    requires IsRun(c, Init(size), ls)
    ensures var w := After(c, Init(size), ls);
            && (forall r :: 0 <= r < w.ack ==> r in w.accepted || r in w.quarantined)
            && (w.running ==> w.passed <= |w.batches| && w.ack == Past(w, w.passed)
                              && forall b :: 0 <= b < |w.batches| ==> Follows(w, b))
  {
    Reaches(c, Init(size), ls);
    var w := After(c, Init(size), ls);
    forall r | 0 <= r < w.ack
      ensures r in w.accepted || r in w.quarantined
    {
      assert Kept(w, r);
    }
  }

  /** The step is an acknowledgement of a delivered batch, before anything halted, that fails
      once it has moved the cursor. */
  predicate Lags(w: World, l: Label) {
    && l == AckSettle(AckFailedMoved) && !w.halted
    && 0 < w.taken <= |w.batches| && w.batches[w.taken - 1].out.outcome == Delivered
  }

  predicate NoCrash(ls: seq<Label>) {
    forall i :: 0 <= i < |ls| ==> !ls[i].Crash?
  }

  /** Such a step was taken after which the process did not restart. */
  predicate Lagged(c: Config, w: World, ls: seq<Label>)
    requires IsRun(c, w, ls)
    decreases |ls|
  {
    ls != [] && ((Lags(w, ls[0]) && NoCrash(ls[1..])) || Lagged(c, Apply(c, w, ls[0]), ls[1..]))
  }

  lemma NoCrashRest(ls: seq<Label>)
    requires ls != []
    ensures NoCrash(ls) <==> !ls[0].Crash? && NoCrash(ls[1..])
  {
    assert forall i :: 1 <= i < |ls| ==> ls[i] == ls[1..][i - 1];
    assert forall i :: 0 <= i < |ls| - 1 ==> ls[1..][i] == ls[i + 1];
  }

  lemma {:induction false} LostExactly(c: Config, w: World, ls: seq<Label>)
    requires Inv(c, w) && IsRun(c, w, ls)
    ensures After(c, w, ls).lost > 0 <==> Lagged(c, w, ls) || (w.lost > 0 && NoCrash(ls))
    decreases |ls|
  {
    if ls != [] {
      StepInv(c, w, ls[0]);
      LostOnlyByFailedAck(c, w, ls[0]);
      LostKept(c, w, ls[0]);
      NoCrashRest(ls);
      LostExactly(c, Apply(c, w, ls[0]), ls[1..]);
    }
  }

  lemma LostKept(c: Config, w: World, l: Label)
    requires Can(c, w, l)
    ensures if l.Crash? then Apply(c, w, l).lost == 0 else Apply(c, w, l).lost >= w.lost
  {
  }

  /** In every run Acknowledged is the records the cursor passed since the process began if and
      only if no acknowledgement since then failed once it had moved the cursor; it is
      never more. */
  lemma AcknowledgedCounts(c: Config, size: nat, ls: seq<Label>)
    requires IsRun(c, Init(size), ls)
    ensures var w := After(c, Init(size), ls);
            && w.boot <= w.ack && w.acked <= w.ack - w.boot
            && (w.acked == w.ack - w.boot <==> !Lagged(c, Init(size), ls))
  {
    Reaches(c, Init(size), ls);
    LostExactly(c, Init(size), ls);
  }

  lemma {:induction false} Extend(c: Config, w: World, ls: seq<Label>, l: Label) returns (r: seq<Label>)
    requires IsRun(c, w, ls) && Can(c, After(c, w, ls), l)
    ensures r == ls + [l] && IsRun(c, w, r) && After(c, w, r) == Apply(c, After(c, w, ls), l)
    decreases |ls|
  {
    r := ls + [l];
    if ls == [] {
      assert r[1..] == [];
    } else {
      var rest := Extend(c, Apply(c, w, ls[0]), ls[1..], l);
      assert r[1..] == rest;
    }
  }

  /** The one record collected, and the slot for its batch taken. */
  const Collected := Init(1).(running := true, reader := HasSlot(1), slots := 1, acker := AtQueue)

  /** Its batch queued, and its delivery as far as applied and done say. */
  function Dispatched(out: Out, applied: nat, done: bool, accepted: set<Record>): World {
    Collected.(from := 1, reader := Collecting(1), batches := [Batch(0, 1, out, applied, done)], queue := [0],
               accepted := accepted)
  }

  lemma CollectOne(c: Config) returns (ls: seq<Label>)
    requires c.inFlight > 0 && c.maxBatch > 0
    ensures IsRun(c, Init(1), ls) && After(c, Init(1), ls) == Collected
  {
    ls := Extend(c, Init(1), [], RunStart);
    ls := Extend(c, Init(1), ls, Collect);
    ls := Extend(c, Init(1), ls, CollectDone);
    ls := Extend(c, Init(1), ls, TakeSlot);
  }

  lemma DeliverOne(c: Config, env: Env, out: Out)
    requires c.inFlight > 0 && env.encodes(Range(0, 1))
    requires out == Out(Delivered, [Posted(Range(0, 1), Accepted(0))], [])
    ensures Can(c, Collected, Send(env, [Accepted(0)]))
    ensures Apply(c, Collected, Send(env, [Accepted(0)])) == Dispatched(out, 0, false, {})
    ensures Can(c, Dispatched(out, 0, false, {}), Effect(0))
    ensures Apply(c, Dispatched(out, 0, false, {}), Effect(0)) == Dispatched(out, 1, false, {0})
    ensures Can(c, Dispatched(out, 1, false, {0}), Finish(0))
    ensures Apply(c, Dispatched(out, 1, false, {0}), Finish(0)) == Dispatched(out, 1, true, {0})
  {
    assert Range(0, 1) == [0];
  }

  /** One record, collected, accepted by the collector at once, and acknowledged by an
      acknowledgement that moves the cursor and fails: the cursor passed one record and
      none is counted. */
  lemma CounterLags(c: Config) returns (ls: seq<Label>)
    requires c.inFlight > 0 && c.maxBatch > 0
    ensures IsRun(c, Init(1), ls)
    ensures var w := After(c, Init(1), ls); w.ack == 1 && w.boot == 0 && w.acked == 0
  {
    var env := Env(_ => true, _ => true);
    var out := Out(Delivered, [Posted(Range(0, 1), Accepted(0))], []);
    ls := CollectOne(c);
    DeliverOne(c, env, out);
    ls := Extend(c, Init(1), ls, Send(env, [Accepted(0)]));
    ls := Extend(c, Init(1), ls, Effect(0));
    ls := Extend(c, Init(1), ls, Finish(0));
    ls := Extend(c, Init(1), ls, AckTake);
    ls := Extend(c, Init(1), ls, AckSettle(AckFailedMoved));
  }

  /** The counter and the cursor part ways in one step only, an acknowledgement
      that failed after moving, and only a restart brings them together again. */
  lemma LostOnlyByFailedAck(c: Config, w: World, l: Label)
    requires Inv(c, w) && Can(c, w, l)
    ensures var w' := Apply(c, w, l);
            w'.lost > w.lost <==>
              && l == AckSettle(AckFailedMoved) && !w.halted && w.batches[w.taken - 1].out.outcome == Delivered
    ensures Apply(c, w, l).lost < w.lost ==> l.Crash?
  {
    if l.AckSettle? {
      HeadInStep(c, w);
      LostBySettle(w, w.batches[w.taken - 1], l.result);
    }
  }

  lemma LostBySettle(w: World, b: Batch, result: AckResult)
    requires b.lo < b.hi
    ensures Settle(w, b, result).lost >= w.lost
    ensures Settle(w, b, result).lost > w.lost <==> result == AckFailedMoved && !w.halted && b.out.outcome == Delivered
  {
  }

  /** At most inFlight batches are dispatched and not yet let go by the
      acknowledger, and the reader's send never finds the queue full, whatever
      order the deliveries end in. */
  lemma PipelineBounded(c: Config, size: nat, ls: seq<Label>)
    requires IsRun(c, Init(size), ls)
    ensures var w := After(c, Init(size), ls);
            w.running ==>
              && |w.batches| - w.taken + Busy(w.acker) <= c.inFlight
              && 0 <= w.slots <= c.inFlight
              && (w.reader.HasSlot? ==> forall env, feed :: Can(c, w, Send(env, feed)))
  {
    Reaches(c, Init(size), ls);
  }

  /** Every slot taken is released by the end of the run, one that halted
      included. */
  lemma SlotsReleased(c: Config, size: nat, ls: seq<Label>)
    requires IsRun(c, Init(size), ls) && Can(c, After(c, Init(size), ls), RunEnd)
    ensures var w := After(c, Init(size), ls); w.slots == 0 && w.taken == |w.batches|
  {
    Reaches(c, Init(size), ls);
  }

  /** A batch that was not delivered stops the cursor for the rest of the run:
      once halted it never moves again until the next run. */
  lemma {:induction false} HaltedStaysPut(c: Config, w: World, ls: seq<Label>)
    requires w.running && w.halted && IsRun(c, w, ls)
    requires forall i :: 0 <= i < |ls| ==> !ls[i].RunEnd? && !ls[i].Crash?
    ensures After(c, w, ls).ack == w.ack && After(c, w, ls).halted && After(c, w, ls).running
    decreases |ls|
  {
    if ls != [] {
      HaltedStaysPut(c, Apply(c, w, ls[0]), ls[1..]);
    }
  }
}
