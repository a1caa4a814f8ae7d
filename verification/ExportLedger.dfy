/** What the exporter's batches, slots and settled records are, said of the steps of its runs
    (adapters/otel/exporter.go). */
module ExportLedger {
  import opened Options
  import opened Delivery
  import opened Bisection
  import opened ExportRun
  import opened ExportTheorems

  // ---------------------------------------------------------------- what reached the world

  /** The event of a delivery the step performs. */
  function Does(w: World, l: Label): Option<Event> {
    if l.Effect? && l.b < |w.batches| && w.batches[l.b].applied < |w.batches[l.b].out.log|
    then Some(w.batches[l.b].out.log[w.batches[l.b].applied])
    else None
  }

  /** The step has r accepted in a request with nothing dropped. */
  predicate Accepts(w: World, l: Label, r: Record) {
    var e := Does(w, l);
    e.Some? && e.value.Posted? && e.value.answer == Accepted(0) && r in e.value.records
  }

  predicate Quarantines(w: World, l: Label, r: Record) {
    var e := Does(w, l);
    e.Some? && e.value.Quarantined? && r in e.value.records
  }

  predicate AcceptedIn(c: Config, w: World, ls: seq<Label>, r: Record)
    requires IsRun(c, w, ls)
    decreases |ls|
  {
    ls != [] && (Accepts(w, ls[0], r) || AcceptedIn(c, Apply(c, w, ls[0]), ls[1..], r))
  }

  predicate QuarantinedIn(c: Config, w: World, ls: seq<Label>, r: Record)
    requires IsRun(c, w, ls)
    decreases |ls|
  {
    ls != [] && (Quarantines(w, ls[0], r) || QuarantinedIn(c, Apply(c, w, ls[0]), ls[1..], r))
  }

  lemma EffectLedger(c: Config, w: World, l: Label, r: Record)
    requires Can(c, w, l) && l.Effect?
    ensures var w' := Apply(c, w, l);
            && (r in w'.accepted <==> r in w.accepted || Accepts(w, l, r))
            && (r in w'.quarantined <==> r in w.quarantined || Quarantines(w, l, r))
  {
  }

  lemma OtherLedger(c: Config, w: World, l: Label)
    requires Can(c, w, l) && !l.Effect?
    ensures Apply(c, w, l).accepted == w.accepted && Apply(c, w, l).quarantined == w.quarantined
  {
  }

  lemma {:induction false} LedgerRun(c: Config, w: World, ls: seq<Label>, r: Record)
    requires IsRun(c, w, ls)
    ensures var w' := After(c, w, ls);
            && (r in w'.accepted <==> r in w.accepted || AcceptedIn(c, w, ls, r))
            && (r in w'.quarantined <==> r in w.quarantined || QuarantinedIn(c, w, ls, r))
    decreases |ls|
  {
    if ls != [] {
      if ls[0].Effect? {
        EffectLedger(c, w, ls[0], r);
      } else {
        OtherLedger(c, w, ls[0]);
      }
      LedgerRun(c, Apply(c, w, ls[0]), ls[1..], r);
    }
  }

  /** In every run every record before the cursor was, by some step of the run, accepted in a request
      with nothing dropped or put in the quarantine. */
  lemma PassedWasSettled(c: Config, size: nat, ls: seq<Label>, r: Record)
    requires IsRun(c, Init(size), ls) && r < After(c, Init(size), ls).ack
    ensures AcceptedIn(c, Init(size), ls, r) || QuarantinedIn(c, Init(size), ls, r)
  {
    CursorNeverPassesUndelivered(c, size, ls);
    LedgerRun(c, Init(size), ls, r);
  }

  // ---------------------------------------------------------------- where a batch comes from

  /** The batch is of 1 to maxBatch records, and its delivery the one its send began. */
  ghost predicate BatchFrom(c: Config, ls: seq<Label>, b: Batch, env: Env, feed: seq<Answer>) {
    && b.lo < b.hi <= b.lo + c.maxBatch
    && Send(env, feed) in ls && b.out == Deliver(env, Range(b.lo, b.hi), feed)
  }

  ghost predicate HasSend(c: Config, ls: seq<Label>, b: Batch) {
    exists env, feed :: BatchFrom(c, ls, b, env, feed)
  }

  ghost predicate AllSent(c: Config, ls: seq<Label>, w: World) {
    && (w.running ==> !w.reader.Stopped? ==> w.from <= w.reader.hi <= w.from + c.maxBatch)
    && (w.running && (w.reader.HasBatch? || w.reader.HasSlot?) ==> w.from < w.reader.hi)
    && (forall b :: 0 <= b < |w.batches| ==> HasSend(c, ls, w.batches[b]))
  }

  lemma SendLater(c: Config, ls: seq<Label>, l: Label, b: Batch, b': Batch)
    requires HasSend(c, ls, b) && b'.lo == b.lo && b'.hi == b.hi && b'.out == b.out
    ensures HasSend(c, ls + [l], b')
  {
    var env, feed :| BatchFrom(c, ls, b, env, feed);
    assert BatchFrom(c, ls + [l], b', env, feed);
  }

  lemma BatchesSent(c: Config, ls: seq<Label>, w: World, l: Label, b: nat)
    requires Can(c, w, l) && AllSent(c, ls, w) && b < |Apply(c, w, l).batches|
    ensures HasSend(c, ls + [l], Apply(c, w, l).batches[b])
  {
    if b < |w.batches| {
      SendLater(c, ls, l, w.batches[b], Apply(c, w, l).batches[b]);
    } else {
      assert (ls + [l])[|ls|] == l;
      assert BatchFrom(c, ls + [l], Apply(c, w, l).batches[b], l.env, l.feed);
    }
  }

  lemma SentStep(c: Config, ls: seq<Label>, w: World, l: Label)
    requires Can(c, w, l) && AllSent(c, ls, w)
    ensures AllSent(c, ls + [l], Apply(c, w, l))
  {
    forall b | 0 <= b < |Apply(c, w, l).batches|
      ensures HasSend(c, ls + [l], Apply(c, w, l).batches[b])
    {
      BatchesSent(c, ls, w, l, b);
    }
  }

  lemma {:induction false} SentRun(c: Config, size: nat, ls: seq<Label>)
    requires IsRun(c, Init(size), ls)
    ensures AllSent(c, ls, After(c, Init(size), ls))
    decreases |ls|
  {
    if ls != [] {
      var n := |ls| - 1;
      LastStep(c, Init(size), ls);
      SentRun(c, size, ls[..n]);
      SentStep(c, ls[..n], After(c, Init(size), ls[..n]), ls[n]);
      assert ls == ls[..n] + [ls[n]];
    }
  }

  lemma {:induction false} LastStep(c: Config, w: World, ls: seq<Label>)
    requires ls != [] && IsRun(c, w, ls)
    ensures var was, l := ls[..|ls| - 1], ls[|ls| - 1];
            && IsRun(c, w, was) && Can(c, After(c, w, was), l)
            && After(c, w, ls) == Apply(c, After(c, w, was), l)
    decreases |ls|
  {
    var was := ls[..|ls| - 1];
    if |ls| > 1 {
      LastStep(c, Apply(c, w, ls[0]), ls[1..]);
      assert was[0] == ls[0] && was[1..] == ls[1..][..|ls| - 2];
    } else {
      assert ls[1..] == [];
    }
  }

  /** In every run every batch is of 1 to maxBatch records, and what its delivery does is what
      delivering exactly those records, with the answers of its own send, does. */
  lemma BatchesExactly(c: Config, size: nat, ls: seq<Label>, b: nat)
    requires IsRun(c, Init(size), ls) && b < |After(c, Init(size), ls).batches|
    ensures HasSend(c, ls, After(c, Init(size), ls).batches[b])
  {
    SentRun(c, size, ls);
  }

  // ---------------------------------------------------------------- nothing waits for ever

  /** The steps the exporter takes by itself. */
  predicate Own(l: Label) {
    !l.Append? && !l.RunStart? && !l.Cancel? && !l.Crash?
  }

  ghost predicate CanMove(c: Config, w: World) {
    exists l :: Own(l) && Can(c, w, l)
  }

  /** A delivery that has nothing left but to end with the context. */
  predicate AwaitsContext(w: World, b: nat)
    requires b < |w.batches|
  {
    && w.batches[b].applied == |w.batches[b].out.log| && !w.batches[b].done
    && w.batches[b].out.outcome == ContextEnded && !w.cancelled
  }

  /** A reader with a batch gets a slot exactly while fewer than inFlight batches are dispatched and
      not let go. */
  lemma SlotExactly(c: Config, size: nat, ls: seq<Label>)
    requires IsRun(c, Init(size), ls)
    ensures var w := After(c, Init(size), ls);
            w.running && w.reader.HasBatch? ==>
              (Can(c, w, TakeSlot) <==> |w.batches| - w.taken + Busy(w.acker) < c.inFlight)
  {
    Reaches(c, Init(size), ls);
  }

  lemma DeliveryMoves(c: Config, w: World, b: nat)
    requires w.running && Faithful(w) && b < |w.batches| && !w.batches[b].done && !AwaitsContext(w, b)
    ensures CanMove(c, w)
  {
    assert FaithfulBatch(w, w.batches[b]);
    if w.batches[b].applied < |w.batches[b].out.log| {
      assert Own(Effect(b)) && Can(c, w, Effect(b));
    } else {
      assert Own(Finish(b)) && Can(c, w, Finish(b));
    }
  }

  lemma AckerMoves(c: Config, w: World)
    requires w.running && RunInv(c, w) && forall b :: 0 <= b < |w.batches| ==> w.batches[b].done
    requires !w.acker.Exited? && !(w.acker.AtQueue? && w.queue == [])
    ensures CanMove(c, w)
  {
    match w.acker
    case AtQueue => assert Own(AckTake) && Can(c, w, AckTake);
    case Waiting => assert Own(AckSettle(AckOk)) && Can(c, w, AckSettle(AckOk));
    case Freeing => assert Own(FreeSlot) && Can(c, w, FreeSlot);
  }

  lemma ReaderMoves(c: Config, w: World)
    requires c.inFlight > 0 && w.running && RunInv(c, w) && !w.reader.Stopped?
    requires w.acker.Exited? || (w.acker.AtQueue? && w.queue == [])
    ensures CanMove(c, w)
  {
    match w.reader
    case Collecting(_) => assert Own(CollectFail) && Can(c, w, CollectFail);
    case HasBatch(_) => assert Own(TakeSlot) && Can(c, w, TakeSlot);
    case HasSlot(_) =>
      var env := Env(_ => true, _ => true);
      assert Own(Send(env, [])) && Can(c, w, Send(env, []));
  }

  /** In every run a running exporter can take a step of its own, or a delivery is waiting to be told
      that the context ended: nothing waits for a slot, a place in the queue or an
      acknowledgement that never comes. */
  lemma NeverStuck(c: Config, size: nat, ls: seq<Label>)
    requires c.inFlight > 0 && IsRun(c, Init(size), ls) && After(c, Init(size), ls).running
    ensures var w := After(c, Init(size), ls);
            CanMove(c, w) || exists b :: 0 <= b < |w.batches| && AwaitsContext(w, b)
  {
    Reaches(c, Init(size), ls);
    var w := After(c, Init(size), ls);
    if b :| 0 <= b < |w.batches| && !w.batches[b].done {
      if !AwaitsContext(w, b) {
        DeliveryMoves(c, w, b);
      }
    } else if !w.acker.Exited? && !(w.acker.AtQueue? && w.queue == []) {
      AckerMoves(c, w);
    } else if !w.reader.Stopped? {
      ReaderMoves(c, w);
    } else if w.acker.Exited? {
      assert Own(RunEnd) && Can(c, w, RunEnd);
    } else {
      assert Own(AckExit) && Can(c, w, AckExit);
    }
  }

  // ---------------------------------------------------------------- when the context ends

  /** The step cancels the run: from outside, by the reader's error, or by an acknowledger that cannot
      go on. */
  predicate Cancels(w: World, l: Label) {
    || l.Cancel? || l.CollectFail?
    || (l.AckSettle? && !w.halted && 0 < w.taken <= |w.batches| &&
        var outcome := w.batches[w.taken - 1].out.outcome;
        outcome == QuarantineFailed || (outcome == Delivered && l.result != AckOk))
  }

  /** A step that cancels was taken since the run began. */
  predicate CancelledIn(c: Config, w: World, ls: seq<Label>)
    requires IsRun(c, w, ls)
    decreases |ls|
  {
    ls != [] && (CancelledIn(c, Apply(c, w, ls[0]), ls[1..]) || (Cancels(w, ls[0]) && NoStart(ls[1..])))
  }

  predicate NoStart(ls: seq<Label>) {
    forall i :: 0 <= i < |ls| ==> !ls[i].RunStart?
  }

  lemma CancelStep(c: Config, w: World, l: Label)
    requires Can(c, w, l)
    ensures Apply(c, w, l).cancelled <==> !l.RunStart? && (w.cancelled || Cancels(w, l))
  {
  }

  lemma NoStartRest(ls: seq<Label>)
    requires ls != []
    ensures NoStart(ls) <==> !ls[0].RunStart? && NoStart(ls[1..])
  {
    assert forall i :: 1 <= i < |ls| ==> ls[i] == ls[1..][i - 1];
  }

  /** In every run the context is cancelled if and only if a cancelling step was taken since the run
      began. */
  lemma {:induction false} CancelledExactly(c: Config, w: World, ls: seq<Label>)
    requires IsRun(c, w, ls)
    ensures After(c, w, ls).cancelled <==> CancelledIn(c, w, ls) || (w.cancelled && NoStart(ls))
    decreases |ls|
  {
    if ls != [] {
      CancelStep(c, w, ls[0]);
      NoStartRest(ls);
      CancelledExactly(c, Apply(c, w, ls[0]), ls[1..]);
    }
  }

  /** A reader that stopped, an acknowledger that halted and a delivery that ended with the context
      are in a cancelled run only. */
  ghost predicate EndsCancelled(w: World) {
    w.running && !w.cancelled ==>
      && !w.reader.Stopped? && !w.halted
      && forall b :: 0 <= b < |w.batches| && w.batches[b].done ==> w.batches[b].out.outcome != ContextEnded
  }

  lemma EndsStep(c: Config, w: World, l: Label)
    requires EndsCancelled(w) && Can(c, w, l)
    ensures EndsCancelled(Apply(c, w, l))
  {
  }

  /** In every run, once the reader stopped or the acknowledger halted the context is cancelled, so no
      delivery goes on waiting for it. */
  lemma {:induction false} StoppedIsCancelled(c: Config, w: World, ls: seq<Label>)
    requires EndsCancelled(w) && IsRun(c, w, ls)
    ensures EndsCancelled(After(c, w, ls))
    decreases |ls|
  {
    if ls != [] {
      EndsStep(c, w, ls[0]);
      StoppedIsCancelled(c, Apply(c, w, ls[0]), ls[1..]);
    }
  }
}
