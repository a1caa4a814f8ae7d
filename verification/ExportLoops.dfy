/** The exporter's two loops over what their channels hand them
    (adapters/otel/exporter.go): collecting a batch, and acknowledging batches in
    the order they were queued. */
module ExportLoops {
  import opened Delivery
  import opened ExportRun

  /** What the reader's next call comes to. */
  datatype Arrival = Read(r: Record) | Lingered | ReadError

  datatype Collected = Batched(records: seq<Record>, cursor: nat) | CollectError

  /** How many records arrive before the batch is full, the linger ends or the
      reader fails. */
  function Arriving(arrivals: seq<Arrival>, max: nat): (n: nat)
    ensures n <= |arrivals| && n <= max
    ensures forall i :: 0 <= i < n ==> arrivals[i].Read?
    ensures n < |arrivals| && n < max ==> !arrivals[n].Read?
  {
    if max == 0 || arrivals == [] || !arrivals[0].Read? then 0 else 1 + Arriving(arrivals[1..], max - 1)
  }

  function RecordsOf(arrivals: seq<Arrival>): (rs: seq<Record>)
    requires forall i :: 0 <= i < |arrivals| ==> arrivals[i].Read?
    ensures |rs| == |arrivals|
    ensures forall i :: 0 <= i < |rs| ==> rs[i] == arrivals[i].r
  {
    if arrivals == [] then [] else RecordsOf(arrivals[..|arrivals| - 1]) + [arrivals[|arrivals| - 1].r]
  }

  /** One batch: the first record, then what arrives until the batch is full or
      the linger ends. A reader's error drops what was read, and the cursor is
      past the last record taken. Arrivals running out is an error too. */
  method Collect(arrivals: seq<Arrival>, maxBatch: nat) returns (c: Collected)
    requires maxBatch > 0
    ensures var n := Arriving(arrivals, maxBatch);
            && (c.Batched? <==> n > 0 && (n == maxBatch || (n < |arrivals| && arrivals[n].Lingered?)))
            && (c.Batched? ==> c.records == RecordsOf(arrivals[..n]) && c.cursor == c.records[n - 1] + 1)
  {
    if arrivals == [] || !arrivals[0].Read? {
      return CollectError;
    }
    var records, cursor, i := [arrivals[0].r], arrivals[0].r + 1, 1;
    while |records| < maxBatch
      invariant 1 <= i <= |arrivals| && i == |records| <= maxBatch
      invariant forall k :: 0 <= k < i ==> arrivals[k].Read? && records[k] == arrivals[k].r
      invariant cursor == records[i - 1] + 1
      decreases maxBatch - |records|
    {
      if i == |arrivals| || arrivals[i].ReadError? {
        return CollectError;
      }
      if arrivals[i].Lingered? {
        break;
      }
      records, cursor := records + [arrivals[i].r], arrivals[i].r + 1;
      i := i + 1;
    }
    assert i == Arriving(arrivals, maxBatch);
    assert records == RecordsOf(arrivals[..i]);
    c := Batched(records, cursor);
  }

  /** A batch the acknowledger takes: its range, what its delivery ended with,
      and what acknowledging it would answer. */
  datatype Pending = Pending(lo: nat, hi: nat, outcome: Outcome, result: AckResult)

  /** The batches settled one after another, as the pipeline's steps settle them. */
  function SettleAll(k: Cursor, ps: seq<Pending>): Cursor {
    if ps == [] then k
    else
      var p := ps[|ps| - 1];
      SettleBatch(SettleAll(k, ps[..|ps| - 1]), p.lo, p.hi, p.outcome, p.result)
  }

  class Acknowledger {
    var ack: nat
    var acked: nat
    var slots: int

    constructor (ack: nat, slots: int)
      ensures this.ack == ack && acked == 0 && this.slots == slots
    {
      this.ack, acked, this.slots := ack, 0, slots;
    }

    /** Settles every batch of the queue in order, and releases every batch's slot. */
    method Acknowledge(queue: seq<Pending>) returns (failed: bool)
      modifies this
      ensures var k := SettleAll(Cursor(old(ack), old(acked), 0, 0, false, false), queue);
              ack == k.ack && acked == k.acked && failed == k.cancelled
      ensures slots == old(slots) - |queue|
    {
      ghost var start := Cursor(ack, acked, 0, 0, false, false);
      failed := false;
      var halted := false;
      var i := 0;
      while i < |queue|
        invariant 0 <= i <= |queue|
        invariant slots == old(slots) - i && (!halted ==> !failed)
        invariant var k := SettleAll(start, queue[..i]);
                  ack == k.ack && acked == k.acked && halted == k.halted && failed == k.cancelled
      {
        var p := queue[i];
        assert queue[..i + 1][..i] == queue[..i];
        if !halted {
          if p.outcome != Delivered {
            halted := true;
            failed := p.outcome != ContextEnded;
          } else {
            match p.result
            case AckOk => ack, acked := p.hi, acked + Size(p.lo, p.hi);
            case AckFailed => halted, failed := true, true;
            case AckFailedMoved => ack, halted, failed := p.hi, true, true;
          }
        }
        slots := slots - 1;
        i := i + 1;
      }
      assert queue[..i] == queue;
    }
  }

  // ---------------------------------------------------------------- what settling comes to

  predicate Acked(p: Pending) {
    p.outcome == Delivered && p.result == AckOk
  }

  /** How many batches from the front were delivered and acknowledged. */
  function Prefix(ps: seq<Pending>): (n: nat)
    ensures n <= |ps|
    ensures forall i :: 0 <= i < n ==> Acked(ps[i])
    ensures n < |ps| ==> !Acked(ps[n])
  {
    if ps == [] || !Acked(ps[0]) then 0 else 1 + Prefix(ps[1..])
  }

  function Total(ps: seq<Pending>): nat {
    if ps == [] then 0 else Total(ps[..|ps| - 1]) + Size(ps[|ps| - 1].lo, ps[|ps| - 1].hi)
  }

  /** The one whose acknowledgement failed once it had moved the cursor. */
  predicate FailsMoved(ps: seq<Pending>) {
    var n := Prefix(ps);
    n < |ps| && ps[n].outcome == Delivered && ps[n].result == AckFailedMoved
  }

  /** The cursor moves past the batches delivered up to the first that was not, and counts
      their records; what comes after the first that was not changes nothing. */
  lemma {:induction false} SettlesPrefix(k: Cursor, ps: seq<Pending>, m: nat)
    requires !k.halted && !k.cancelled && m <= |ps|
    ensures var r, n := SettleAll(k, ps[..m]), Prefix(ps);
            if m <= n then
              && !r.halted && !r.cancelled && r.acked == k.acked + Total(ps[..m])
              && r.ack == (if m == 0 then k.ack else ps[m - 1].hi)
            else
              && r.halted && r.cancelled == (ps[n].outcome != ContextEnded)
              && r.acked == k.acked + Total(ps[..n])
              && r.ack == (if FailsMoved(ps) then ps[n].hi else if n == 0 then k.ack else ps[n - 1].hi)
  {
    if m > 0 {
      SettlesPrefix(k, ps, m - 1);
      assert ps[..m][..m - 1] == ps[..m - 1];
    }
  }
}
