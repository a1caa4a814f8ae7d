/** The evidence exporter as a transition system (adapters/otel/exporter.go over
    send.go): one reader collects batches, takes an in-flight slot for each,
    queues it and starts its delivery; the acknowledger takes the batches in the
    order they were queued and moves the spool's cursor past each one delivered,
    until the first that was not. Runs are cancelled, fail and restart; the
    process may crash at any step. */
module ExportRun {
  import opened Delivery
  import opened Bisection

  datatype Config = Config(inFlight: nat, maxBatch: nat)

  /** A batch in flight. out is all its delivery will have done, applied how much
      of that it did, and done that it reported its outcome. */
  datatype Batch = Batch(lo: nat, hi: nat, out: Out, applied: nat, done: bool)

  /** Where dispatch stands: hi is the reader's position. */
  datatype Reader = Collecting(hi: nat) | HasBatch(hi: nat) | HasSlot(hi: nat) | Stopped

  datatype Acker = AtQueue | Waiting | Freeing | Exited

  /** An acknowledgement may fail before or after it moved the cursor. */
  datatype AckResult = AckOk | AckFailed | AckFailedMoved

  /** size is how many records the spool holds, ack its acknowledged position,
      acked the counter Stats reports. boot is the position at the start of the
      process and lost the records passed by acknowledgements that failed; both
      are history. batches are those of the current run, taken how many of them
      the acknowledger took from the queue, passed how many the cursor passed. */
  datatype World = World(
    size: nat, accepted: set<Record>, quarantined: set<Record>, ack: nat, acked: nat, boot: nat, lost: nat,
    running: bool, start: nat, from: nat, reader: Reader, batches: seq<Batch>, queue: seq<nat>, slots: int,
    acker: Acker, taken: nat, passed: nat, halted: bool, cancelled: bool)

  datatype Label =
    | Append
    | RunStart
    | Collect
    | CollectDone
    | CollectFail
    | TakeSlot
    | SlotCancelled
    | Send(env: Env, feed: seq<Answer>)
    | Effect(b: nat)
    | Finish(b: nat)
    | AckTake
    | AckSettle(result: AckResult)
    | FreeSlot
    | AckExit
    | RunEnd
    | Cancel
    | Crash(to: nat)

  function Range(lo: nat, hi: nat): seq<Record>
    requires lo <= hi
  {
    seq(hi - lo, i requires 0 <= i => lo + i)
  }

  function Init(size: nat): World {
    World(size, {}, {}, 0, 0, 0, 0, false, 0, 0, Stopped, [], [], 0, Exited, 0, 0, false, false)
  }

  predicate Can(c: Config, w: World, l: Label) {
    match l
    case Append => true
    case RunStart => !w.running
    case Collect => w.running && w.reader.Collecting? && w.reader.hi < w.size && w.reader.hi < w.from + c.maxBatch
    case CollectDone => w.running && w.reader.Collecting? && w.reader.hi > w.from
    case CollectFail => w.running && w.reader.Collecting?
    case TakeSlot => w.running && w.reader.HasBatch? && w.slots < c.inFlight
    case SlotCancelled => w.running && w.reader.HasBatch? && w.cancelled
    case Send(_, _) => w.running && w.reader.HasSlot? && w.from <= w.reader.hi && |w.queue| < c.inFlight
    case Effect(b) => w.running && b < |w.batches| && w.batches[b].applied < |w.batches[b].out.log|
    case Finish(b) =>
      && w.running && b < |w.batches| && w.batches[b].applied == |w.batches[b].out.log| && !w.batches[b].done
      && (w.batches[b].out.outcome == ContextEnded ==> w.cancelled)
    case AckTake => w.running && w.acker.AtQueue? && w.queue != []
    case AckSettle(_) => w.running && w.acker.Waiting? && 0 < w.taken <= |w.batches| && w.batches[w.taken - 1].done
    case FreeSlot => w.running && w.acker.Freeing?
    case AckExit => w.running && w.acker.AtQueue? && w.queue == [] && w.reader.Stopped?
    case RunEnd => w.running && w.acker.Exited? && forall b :: 0 <= b < |w.batches| ==> w.batches[b].done
    case Cancel => true
    case Crash(to) => to <= w.ack
  }

  /** One event of a delivery reaches the collector or the quarantine. */
  function Perform(w: World, e: Event): World {
    match e
    case Posted(rs, a) => if a == Accepted(0) then w.(accepted := w.accepted + (set r | r in rs)) else w
    case Quarantined(rs, _) => w.(quarantined := w.quarantined + (set r | r in rs))
  }

  /** How many records stand from lo to hi. */
  function Size(lo: nat, hi: nat): nat {
    if lo <= hi then hi - lo else 0
  }

  /** What the acknowledger changes. */
  datatype Cursor = Cursor(ack: nat, acked: nat, lost: nat, passed: nat, halted: bool, cancelled: bool)

  /** The acknowledger acts on a batch of records from lo to hi whose delivery ended with
      outcome and whose acknowledgement would end with result. */
  function SettleBatch(k: Cursor, lo: nat, hi: nat, outcome: Outcome, result: AckResult): Cursor {
    if k.halted then k
    else match outcome
      case ContextEnded => k.(halted := true)
      case QuarantineFailed => k.(halted := true, cancelled := true)
      case Delivered =>
        var n := Size(lo, hi);
        match result
        case AckOk => k.(ack := hi, acked := k.acked + n, passed := k.passed + 1)
        case AckFailed => k.(halted := true, cancelled := true)
        case AckFailedMoved =>
          k.(ack := hi, lost := k.lost + n, passed := k.passed + 1, halted := true, cancelled := true)
  }

  /** The same, to the batch at the head of the order. */
  function Settle(w: World, b: Batch, result: AckResult): World {
    var k := SettleBatch(Cursor(w.ack, w.acked, w.lost, w.passed, w.halted, w.cancelled), b.lo, b.hi, b.out.outcome,
        result);
    w.(ack := k.ack, acked := k.acked, lost := k.lost, passed := k.passed, halted := k.halted, cancelled := k.cancelled)
  }

  function Apply(c: Config, w: World, l: Label): World
    requires Can(c, w, l)
  {
    match l
    case Append => w.(size := w.size + 1)
    case RunStart =>
      w.(running := true, start := w.ack, from := w.ack, reader := Collecting(w.ack), batches := [], queue :=
          [], slots := 0,
         acker := AtQueue, taken := 0, passed := 0, halted := false, cancelled := false)
    case Collect => w.(reader := Collecting(w.reader.hi + 1))
    case CollectDone => w.(reader := HasBatch(w.reader.hi))
    case CollectFail => w.(reader := Stopped, cancelled := true)
    case TakeSlot => w.(reader := HasSlot(w.reader.hi), slots := w.slots + 1)
    case SlotCancelled => w.(reader := Stopped)
    case Send(env, feed) =>
      w.(batches := w.batches + [Batch(w.from, w.reader.hi, Deliver(env, Range(w.from, w.reader.hi), feed), 0, false)],
         queue := w.queue + [|w.batches|], from := w.reader.hi, reader := Collecting(w.reader.hi))
    case Effect(b) =>
      var d := w.batches[b];
      Perform(w, d.out.log[d.applied]).(batches := w.batches[b := d.(applied := d.applied + 1)])
    case Finish(b) => w.(batches := w.batches[b := w.batches[b].(done := true)])
    case AckTake => w.(acker := Waiting, queue := w.queue[1..], taken := w.queue[0] + 1)
    case AckSettle(result) => Settle(w, w.batches[w.taken - 1], result).(acker := Freeing)
    case FreeSlot => w.(slots := w.slots - 1, acker := AtQueue)
    case AckExit => w.(acker := Exited)
    case RunEnd => w.(running := false)
    case Cancel => w.(cancelled := true)
    case Crash(to) => w.(running := false, ack := to, acked := 0, boot := to, lost := 0)
  }

  predicate IsRun(c: Config, w: World, ls: seq<Label>)
    decreases |ls|
  {
    ls == [] || (Can(c, w, ls[0]) && IsRun(c, Apply(c, w, ls[0]), ls[1..]))
  }

  function After(c: Config, w: World, ls: seq<Label>): World
    requires IsRun(c, w, ls)
    decreases |ls|
  {
    if ls == [] then w else After(c, Apply(c, w, ls[0]), ls[1..])
  }

  // ---------------------------------------------------------------- invariant

  /** The record was in a request accepted whole, or the quarantine holds it. */
  predicate Kept(w: World, r: Record) {
    r in w.accepted || r in w.quarantined
  }

  /** Nothing before the cursor is undelivered. */
  ghost predicate CursorSafe(w: World) {
    forall r :: 0 <= r < w.ack ==> Kept(w, r)
  }

  predicate Counted(w: World) {
    w.boot <= w.ack && w.acked + w.lost == w.ack - w.boot
  }

  /** The position the cursor is at once it passed n batches. */
  function Past(w: World, n: nat): nat
    requires n <= |w.batches|
  {
    if n == 0 then w.start else w.batches[n - 1].hi
  }

  /** Batch b begins where the one before it ends, and holds a record. */
  predicate Follows(w: World, b: nat)
    requires b < |w.batches|
  {
    w.batches[b].lo == Past(w, b) && w.batches[b].lo < w.batches[b].hi
  }

  /** The batches follow one another from where the run began. */
  ghost predicate Contiguous(w: World) {
    && (forall b :: 0 <= b < |w.batches| ==> Follows(w, b))
    && w.from == Past(w, |w.batches|)
    && (!w.reader.Stopped? ==> w.from <= w.reader.hi)
    && (w.reader.HasBatch? || w.reader.HasSlot? ==> w.from < w.reader.hi)
  }

  /** What a delivery did so far is done, and one that ended delivered settled
      every record of its batch. */
  ghost predicate Faithful(w: World) {
    forall b :: 0 <= b < |w.batches| ==> FaithfulBatch(w, w.batches[b])
  }

  ghost predicate FaithfulBatch(w: World, b: Batch) {
    && b.lo < b.hi && b.applied <= |b.out.log|
    && (b.out.outcome == Delivered ==> AllSafe(b.out.log, Range(b.lo, b.hi)))
    && (forall r :: Safe(b.out.log[..b.applied], r) ==> Kept(w, r))
    && (b.done ==> b.applied == |b.out.log|)
  }

  function Busy(a: Acker): int {
    if a.Waiting? || a.Freeing? then 1 else 0
  }

  /** The queue is the batches not yet taken, in order, and each slot taken is a
      queued batch, the one the acknowledger holds, or the reader's. */
  ghost predicate Queued(c: Config, w: World) {
    && w.taken <= |w.batches|
    && |w.queue| == |w.batches| - w.taken
    && (forall i :: 0 <= i < |w.queue| ==> w.queue[i] == w.taken + i)
    && w.slots == |w.queue| + Busy(w.acker) + (if w.reader.HasSlot? then 1 else 0)
    && w.slots <= c.inFlight
    && (w.acker.Waiting? ==> w.taken > 0)
    && (w.acker.Exited? ==> w.queue == [] && w.reader.Stopped?)
  }

  /** How many batches the acknowledger acted on. */
  function Settled(w: World): int {
    if w.acker.Waiting? then w.taken - 1 else w.taken
  }

  /** The cursor stands past the batches it passed, and it passed all the
      acknowledger acted on until it halted. */
  ghost predicate InStep(w: World) {
    && w.passed <= |w.batches| && w.passed <= Settled(w)
    && w.ack == Past(w, w.passed)
    && (!w.halted ==> w.passed == Settled(w))
  }

  ghost predicate RunInv(c: Config, w: World) {
    Contiguous(w) && Faithful(w) && Queued(c, w) && InStep(w)
  }

  ghost predicate Inv(c: Config, w: World) {
    CursorSafe(w) && Counted(w) && (w.running ==> RunInv(c, w))
  }
}
