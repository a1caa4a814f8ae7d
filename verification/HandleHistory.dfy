/** The bounded handle table against the full history of handles. The entries
    keep, under the handles they were minted under, everything a table that
    forgot nothing would answer from; the bounded table forgets the oldest spent
    handle past its bound and every spent handle a sweep found expired. */
module HandleHistory {
  import opened Options
  import opened Handles
  import opened HandleLemmas
  import opened SpentLog

  /** The table, and every spend and every sweep so far. */
  datatype Hist = Hist(t: Table, log: seq<Event>)

  const EmptyHist := Hist(EmptyTable, [])

  // ---------------------------------------------------------------- the full history

  /** The entry id was minted under. */
  function Find(minted: seq<string>, id: string): (r: Option<Ref>)
    ensures r.Some? ==> r.value < |minted| && minted[r.value] == id
    ensures r.None? ==> id !in minted
  {
    if minted == [] then None
    else if minted[|minted| - 1] == id then Some(|minted| - 1)
    else Find(minted[..|minted| - 1], id)
  }

  /** The answer to a take from every handle ever minted. */
  function HistoryCode(t: Table, id: string, run: string, now: int): Code
    requires WellFormed(t)
  {
    var f := Find(t.minted, id);
    if f.None? || t.entries[f.value].run != run || now >= t.entries[f.value].expires then HandleUnknown
    else if t.entries[f.value].state == Closing || t.entries[f.value].state == Spent then HandleSpent
    else Granted
  }

  function HistoryEnding(t: Table, id: string, run: string, now: int): Ending
    requires WellFormed(t)
  {
    var f := Find(t.minted, id);
    if f.Some? && HistoryCode(t, id, run, now) == HandleSpent then t.entries[f.value].ending else NoEnding
  }

  predicate Agrees(t: Table, id: string, run: string, now: int)
    requires WellFormed(t)
  {
    && TakeCode(t, id, run, now) == HistoryCode(t, id, run, now)
    && TakeEnding(t, id, run, now) == HistoryEnding(t, id, run, now)
  }

  // ---------------------------------------------------------------- invariant

  /** The log names exactly the spent entries, each once, with their expiries. */
  ghost predicate Logged(h: Hist) {
    && Distinct(h.log)
    && (forall i :: 0 <= i < |h.log| && h.log[i].SpentAt? ==>
          && h.log[i].h.e < |h.t.entries|
          && h.t.entries[h.log[i].h.e].state == Spent
          && h.t.entries[h.log[i].h.e].expires == h.log[i].h.expires)
    && (forall e :: 0 <= e < |h.t.entries| && h.t.entries[e].state == Spent ==> SpentIn(h.log, e))
  }

  /** ids are the handles of the entries q names. */
  predicate NamesOf(t: Table, ids: seq<string>, q: seq<Handle>) {
    && |ids| == |q|
    && forall i :: 0 <= i < |q| ==> q[i].e < |t.minted| && t.minted[q[i].e] == ids[i]
  }

  /** The spent queue is the end of those waiting; what is before it was crowded out, and
      nothing in it was. */
  ghost predicate Queued(maxSpent: nat, h: Hist) {
    var q := Waiting(h.log);
    && |h.t.spent| <= |q|
    && NamesOf(h.t, h.t.spent, q[|q| - |h.t.spent|..])
    && (forall i :: 0 <= i < |q| - |h.t.spent| ==> Crowded(maxSpent, h.log, q[i].e))
    && (forall i :: |q| - |h.t.spent| <= i < |q| ==> !Crowded(maxSpent, h.log, q[i].e))
  }

  ghost predicate HistInv(maxSpent: nat, h: Hist) {
    && TableInv(h.t, maxSpent)
    && NoDuplicates(h.t.minted)
    && Logged(h)
    && Queued(maxSpent, h)
  }

  // ---------------------------------------------------------------- the answers

  lemma {:induction false} FindOnly(minted: seq<string>, e: Ref)
    requires NoDuplicates(minted) && e < |minted|
    ensures Find(minted, minted[e]) == Some(e)
  {
    if e < |minted| - 1 {
      FindOnly(minted[..|minted| - 1], e);
    }
  }

  lemma WaitsQueued(maxSpent: nat, h: Hist, e: Ref)
    requires Queued(maxSpent, h) && e < |h.t.minted| && Has(Waiting(h.log), e) && !Crowded(maxSpent, h.log, e)
    ensures h.t.minted[e] in h.t.spent
  {
    var q := Waiting(h.log);
    var k := |q| - |h.t.spent|;
    var i :| 0 <= i < |q| && q[i].e == e;
    assert q[k..][i - k] == q[i];
    assert h.t.spent[i - k] == h.t.minted[e];
  }

  lemma QueuedWaits(maxSpent: nat, h: Hist, e: Ref)
    requires Queued(maxSpent, h) && NoDuplicates(h.t.minted) && e < |h.t.minted| && h.t.minted[e] in h.t.spent
    ensures Has(Waiting(h.log), e) && !Crowded(maxSpent, h.log, e)
  {
    var q := Waiting(h.log);
    var k := |q| - |h.t.spent|;
    var i :| 0 <= i < |h.t.spent| && h.t.spent[i] == h.t.minted[e];
    assert q[k..][i] == q[k + i];
    FindOnly(h.t.minted, e);
    FindOnly(h.t.minted, q[k + i].e);
  }

  /** A spent handle is in the queue exactly when it waits and was not crowded out. */
  lemma QueueExactly(maxSpent: nat, h: Hist, e: Ref)
    requires HistInv(maxSpent, h) && e < |h.t.entries|
    ensures h.t.minted[e] in h.t.spent <==> Has(Waiting(h.log), e) && !Crowded(maxSpent, h.log, e)
  {
    var q, id := Waiting(h.log), h.t.minted[e];
    if id in h.t.spent {
      QueuedWaits(maxSpent, h, e);
    }
    if Has(q, e) && !Crowded(maxSpent, h.log, e) {
      WaitsQueued(maxSpent, h, e);
    }
  }

  /** The table forgets a spent handle exactly when a sweep after its spend read at or past
      its expiry, or at some spend after it maxSpent later ones not purged stood behind
      it. Nothing else is ever forgotten. */
  lemma ForgottenExactly(maxSpent: nat, h: Hist, e: Ref)
    requires HistInv(maxSpent, h) && e < |h.t.entries|
    ensures h.t.minted[e] !in h.t.byID <==>
              SpentIn(h.log, e) && (Purged(h.log, e) || Crowded(maxSpent, h.log, e))
    ensures SpentIn(h.log, e) <==> h.t.entries[e].state == Spent
  {
    var id := h.t.minted[e];
    if i :| 0 <= i < |h.log| && SpendOf(h.log[i], e) {
      assert h.t.entries[e].state == Spent;
    }
    WaitingExactly(h.log, e);
    QueueExactly(maxSpent, h, e);
    if id in h.t.byID {
      FindOnly(h.t.minted, e);
      FindOnly(h.t.minted, h.t.byID[id]);
    }
    assert id in h.t.spent <==> IsSpent(h.t, id);
  }

  /** While fewer than maxSpent spends followed, only a sweep forgets; and while no sweep
      ran, only that many spends do. */
  lemma ForgottenByOne(maxSpent: nat, h: Hist, e: Ref)
    requires HistInv(maxSpent, h) && e < |h.t.entries| && h.t.entries[e].state == Spent
    ensures SpendsAfter(h.log, e) < maxSpent ==> (h.t.minted[e] !in h.t.byID <==> Purged(h.log, e))
    ensures (forall i :: 0 <= i < |h.log| ==> h.log[i].SpentAt?) ==>
              (h.t.minted[e] !in h.t.byID <==> SpendsAfter(h.log, e) >= maxSpent)
  {
    ForgottenExactly(maxSpent, h, e);
    if Crowded(maxSpent, h.log, e) {
      CrowdedNeeds(maxSpent, h.log, e);
    }
    if forall i :: 0 <= i < |h.log| ==> h.log[i].SpentAt? {
      CrowdedWithoutSweeps(maxSpent, h.log, e);
    }
  }

  /** The handle is one the caller may still ask for, and the log says it was forgotten. */
  ghost predicate Forgotten(maxSpent: nat, t: Table, log: seq<Event>, id: string, run: string, now: int)
    requires |t.minted| == |t.entries|
  {
    var f := Find(t.minted, id);
    && f.Some?
    && t.entries[f.value].run == run && now < t.entries[f.value].expires
    && SpentIn(log, f.value) && (Purged(log, f.value) || Crowded(maxSpent, log, f.value))
  }

  /** The table answers a take as the full history would if and only if the log of spends and
      sweeps does not say the handle was forgotten; otherwise it answers HANDLE_UNKNOWN
      for a spent handle. */
  lemma AnswersAsHistory(maxSpent: nat, h: Hist, id: string, run: string, now: int)
    requires HistInv(maxSpent, h)
    ensures Agrees(h.t, id, run, now) <==> !Forgotten(maxSpent, h.t, h.log, id, run, now)
    ensures !Agrees(h.t, id, run, now) ==>
              TakeCode(h.t, id, run, now) == HandleUnknown && HistoryCode(h.t, id, run, now) == HandleSpent
  {
    var f := Find(h.t.minted, id);
    if f.Some? {
      ForgottenExactly(maxSpent, h, f.value);
      if id in h.t.byID {
        FindOnly(h.t.minted, f.value);
        FindOnly(h.t.minted, h.t.byID[id]);
      }
    }
  }

  /** No sweep so far read later than now. */
  predicate SweptBy(log: seq<Event>, now: int) {
    forall i :: 0 <= i < |log| && log[i].SweptAt? ==> log[i].now <= now
  }

  /** With critical sections in the order of their clock readings purging changes no answer:
      the two disagree exactly about a handle crowded out. */
  lemma AnswersInClockOrder(maxSpent: nat, h: Hist, id: string, run: string, now: int)
    requires HistInv(maxSpent, h) && SweptBy(h.log, now)
    ensures var f := Find(h.t.minted, id);
            Agrees(h.t, id, run, now) <==>
              !(f.Some? && h.t.entries[f.value].run == run && now < h.t.entries[f.value].expires
                && Crowded(maxSpent, h.log, f.value))
  {
    AnswersAsHistory(maxSpent, h, id, run, now);
    var f := Find(h.t.minted, id);
    if f.Some? {
      if Crowded(maxSpent, h.log, f.value) {
        CrowdedNeeds(maxSpent, h.log, f.value);
      }
      if i, k :| 0 <= i < k < |h.log| && SpendOf(h.log[i], f.value) && Sweeps(h.log[k], h.log[i].h.expires) {
        assert h.log[k].now <= now;
      }
    }
  }

  // ---------------------------------------------------------------- every operation keeps it

  lemma EmptyHistInv(maxSpent: nat)
    ensures HistInv(maxSpent, EmptyHist)
  {
    EmptyInv(maxSpent);
  }

  /** Nothing the history is about changed. */
  predicate SameHistory(t: Table, t': Table) {
    && t'.spent == t.spent && t'.minted == t.minted && |t'.entries| == |t.entries|
    && (forall e :: 0 <= e < |t.entries| ==>
          && t'.entries[e].expires == t.entries[e].expires
          && (t'.entries[e].state == Spent <==> t.entries[e].state == Spent))
  }

  lemma HistKept(maxSpent: nat, h: Hist, t': Table)
    requires HistInv(maxSpent, h) && TableInv(t', maxSpent) && SameHistory(h.t, t')
    ensures HistInv(maxSpent, h.(t := t'))
  {
  }

  lemma HistMint(maxSpent: nat, h: Hist, entry: Entry, id: string)
    requires HistInv(maxSpent, h) && !h.t.shut && id !in h.t.minted
    ensures HistInv(maxSpent, h.(t := Mint(h.t, entry, id)))
  {
    assert id !in h.t.byID;
    MintInv(h.t, maxSpent, entry, id);
    LoggedMint(h, Mint(h.t, entry, id));
  }

  lemma LoggedMint(h: Hist, t': Table)
    requires Logged(h) && |t'.entries| > |h.t.entries|
    requires forall e :: 0 <= e < |h.t.entries| ==> t'.entries[e] == h.t.entries[e]
    requires forall e :: |h.t.entries| <= e < |t'.entries| ==> t'.entries[e].state != Spent
    ensures Logged(h.(t := t'))
  {
  }

  /** The log once e was spent. */
  function SpendLog(h: Hist, e: Ref): seq<Event>
    requires e < |h.t.entries|
  {
    h.log + [SpentAt(Handle(e, h.t.entries[e].expires))]
  }

  lemma LoggedSpend(h: Hist, e: Ref, t': Table)
    requires Logged(h) && e < |h.t.entries| && h.t.entries[e].state != Spent
    requires |t'.entries| == |h.t.entries| && t'.entries[e].state == Spent
    requires forall f :: 0 <= f < |h.t.entries| ==> t'.entries[f].expires == h.t.entries[f].expires
    requires forall f :: 0 <= f < |h.t.entries| && f != e ==> t'.entries[f].state == h.t.entries[f].state
    ensures Logged(Hist(t', SpendLog(h, e))) && !SpentIn(h.log, e)
  {
    var ev := SpentAt(Handle(e, h.t.entries[e].expires));
    DistinctNext(h.log, ev);
    forall f | 0 <= f < |t'.entries| && t'.entries[f].state == Spent
      ensures SpentIn(SpendLog(h, e), f)
    {
      SpentInNext(h.log, ev, f);
    }
  }

  lemma EvictOne(t: Table, maxSpent: nat)
    requires |t.spent| <= maxSpent + 1
    ensures Evict(t, maxSpent)
            == if |t.spent| == maxSpent + 1 then t.(byID := t.byID - {t.spent[0]}, spent := t.spent[1..]) else t
  {
  }

  /** In a queue of separate handles as many stand behind one as come after it. */
  lemma {:induction false} BehindAt(q: seq<Handle>, i: nat)
    requires Separate(q) && i < |q|
    ensures Has(q, q[i].e) && Behind(q, q[i].e) == |q| - 1 - i
  {
    if i < |q| - 1 {
      BehindAt(q[..|q| - 1], i);
    }
  }

  /** After a spend those with maxSpent or more behind them are crowded out too. */
  lemma CrowdedSpend(maxSpent: nat, log: seq<Event>, x: Handle, k: nat)
    requires Distinct(log + [SpentAt(x)]) && !SpentIn(log, x.e) && k <= |Waiting(log)| <= k + maxSpent
    requires forall i :: 0 <= i < |Waiting(log)| ==> (Crowded(maxSpent, log, Waiting(log)[i].e) <==> i < k)
    ensures var q := Waiting(log) + [x];
            forall i :: 0 <= i < |q| ==>
              (Crowded(maxSpent, log + [SpentAt(x)], q[i].e) <==> |q| - 1 - i >= maxSpent || i < k)
  {
    var q := Waiting(log) + [x];
    WaitingNext(log, SpentAt(x));
    WaitingSeparate(log + [SpentAt(x)]);
    forall i | 0 <= i < |q|
      ensures Crowded(maxSpent, log + [SpentAt(x)], q[i].e) <==> |q| - 1 - i >= maxSpent || i < k
    {
      BehindAt(q, i);
      CrowdedNext(maxSpent, log, SpentAt(x), q[i].e);
      if i == |Waiting(log)| && Crowded(maxSpent, log, x.e) {
        DistinctPrefix(log, SpentAt(x));
        CrowdedNeeds(maxSpent, log, x.e);
      }
    }
  }

  lemma DistinctPrefix(log: seq<Event>, ev: Event)
    requires Distinct(log + [ev])
    ensures Distinct(log)
  {
    var after := log + [ev];
    assert forall i :: 0 <= i < |log| ==> after[i] == log[i];
  }

  /** The spent queue after a spend: the handle added, and the first dropped past the bound. */
  lemma QueuedSpend(maxSpent: nat, h: Hist, e: Ref, t': Table)
    requires e < |h.t.entries| == |h.t.minted| && t'.minted == h.t.minted && !SpentIn(h.log, e)
    requires Queued(maxSpent, h) && Distinct(SpendLog(h, e)) && |h.t.spent| <= maxSpent
    requires var ids := h.t.spent + [h.t.minted[e]];
             t'.spent == if |ids| == maxSpent + 1 then ids[1..] else ids
    ensures Queued(maxSpent, Hist(t', SpendLog(h, e)))
  {
    var q, x := Waiting(h.log), Handle(e, h.t.entries[e].expires);
    var k := |q| - |h.t.spent|;
    CrowdedSpend(maxSpent, h.log, x, k);
    WaitingNext(h.log, SpentAt(x));
    NamesAdd(h.t, h.t.spent, q[k..], h.t.minted[e], x);
    if |h.t.spent| == maxSpent {
      QueueTurns(maxSpent, Hist(t', SpendLog(h, e)), q, x, k);
    } else {
      QueueGrows(maxSpent, Hist(t', SpendLog(h, e)), q, x, k);
    }
  }

  /** The end of those waiting, with x added. */
  lemma QueueGrows(maxSpent: nat, h: Hist, q: seq<Handle>, x: Handle, k: nat)
    requires k <= |q| < k + maxSpent && Waiting(h.log) == q + [x] && NamesOf(h.t, h.t.spent, q[k..] + [x])
    requires forall i :: 0 <= i <= |q| ==> (Crowded(maxSpent, h.log, (q + [x])[i].e) <==> |q| - i >= maxSpent || i < k)
    ensures Queued(maxSpent, h)
  {
    var q' := q + [x];
    assert q' == q'[..k] + q'[k..];
    assert q'[k..] == q[k..] + [x];
    QueuedFrom(maxSpent, h, q'[..k], q'[k..]);
  }

  /** The same with its first dropped. */
  lemma QueueTurns(maxSpent: nat, h: Hist, q: seq<Handle>, x: Handle, k: nat)
    requires k <= |q| == k + maxSpent && Waiting(h.log) == q + [x] && NamesOf(h.t, h.t.spent, (q[k..] + [x])[1..])
    requires forall i :: 0 <= i <= |q| ==> (Crowded(maxSpent, h.log, (q + [x])[i].e) <==> |q| - i >= maxSpent || i < k)
    ensures Queued(maxSpent, h)
  {
    var q' := q + [x];
    assert q' == q'[..k + 1] + q'[k + 1..];
    assert q'[k + 1..] == (q[k..] + [x])[1..];
    QueuedFrom(maxSpent, h, q'[..k + 1], q'[k + 1..]);
  }

  lemma NamesAdd(t: Table, ids: seq<string>, q: seq<Handle>, id: string, x: Handle)
    requires NamesOf(t, ids, q) && x.e < |t.minted| && t.minted[x.e] == id
    ensures NamesOf(t, ids + [id], q + [x]) && NamesOf(t, (ids + [id])[1..], (q + [x])[1..])
  {
  }

  lemma HistSpend(maxSpent: nat, h: Hist, e: Ref, ending: Ending)
    requires HistInv(maxSpent, h) && e < |h.t.entries| && h.t.entries[e].state == Closing
    ensures HistInv(maxSpent, Hist(Spend(h.t, maxSpent, h.t.minted[e], e, ending), SpendLog(h, e)))
  {
    var id := h.t.minted[e];
    var t' := Spend(h.t, maxSpent, id, e, ending);
    SpendInv(h.t, maxSpent, id, e, ending);
    EvictOne(Record(h.t, id, e, ending), maxSpent);
    LoggedSpend(h, e, t');
    QueuedSpend(maxSpent, h, e, t');
  }

  /** What a sweep keeps of the queue are the handles unexpired. */
  lemma {:induction false} KeptUnexpired(t: Table, now: int, ids: seq<string>, q: seq<Handle>)
    requires WellFormed(t) && NamesOf(t, ids, q)
    requires forall i :: 0 <= i < |q| ==> ids[i] in t.byID && t.byID[ids[i]] == q[i].e
    requires forall i :: 0 <= i < |q| ==> t.entries[q[i].e].expires == q[i].expires
    ensures NamesOf(t, Kept(t, now, ids), Unexpired(q, now))
  {
    if ids != [] {
      var n := |ids| - 1;
      KeptUnexpired(t, now, ids[..n], q[..n]);
      if now < q[n].expires {
        NamesAdd(t, Kept(t, now, ids[..n]), Unexpired(q[..n], now), ids[n], q[n]);
      } else {
        assert Kept(t, now, ids[..n]) + [] == Kept(t, now, ids[..n]);
        assert Unexpired(q[..n], now) + [] == Unexpired(q[..n], now);
      }
    }
  }

  lemma LoggedSweep(h: Hist, now: int, t': Table)
    requires Logged(h) && |t'.entries| == |h.t.entries|
    requires forall f :: 0 <= f < |h.t.entries| ==> t'.entries[f].expires == h.t.entries[f].expires
    requires forall f :: 0 <= f < |h.t.entries| ==> (t'.entries[f].state == Spent <==> h.t.entries[f].state == Spent)
    ensures Logged(Hist(t', h.log + [SweptAt(now)]))
  {
    DistinctNext(h.log, SweptAt(now));
    forall f | 0 <= f < |t'.entries| && t'.entries[f].state == Spent
      ensures SpentIn(h.log + [SweptAt(now)], f)
    {
      SpentInNext(h.log, SweptAt(now), f);
    }
  }

  /** The queue's handles are found in the table with the expiries the log has. */
  lemma QueueKnown(maxSpent: nat, h: Hist)
    requires HistInv(maxSpent, h)
    ensures var q := Waiting(h.log); var k := |q| - |h.t.spent|;
            forall i :: 0 <= i < |h.t.spent| ==>
              && h.t.spent[i] in h.t.byID && h.t.byID[h.t.spent[i]] == q[k..][i].e
              && h.t.entries[q[k..][i].e].expires == q[k..][i].expires
  {
    var q := Waiting(h.log);
    var k := |q| - |h.t.spent|;
    forall i | 0 <= i < |h.t.spent|
      ensures h.t.spent[i] in h.t.byID && h.t.byID[h.t.spent[i]] == q[k..][i].e
      ensures h.t.entries[q[k..][i].e].expires == q[k..][i].expires
    {
      var x := q[k..][i];
      assert x == q[k + i];
      assert IsSpent(h.t, h.t.spent[i]);
      FindOnly(h.t.minted, x.e);
      FindOnly(h.t.minted, h.t.byID[h.t.spent[i]]);
      WaitingExactly(h.log, x.e);
      assert SpentAt(x) in h.log;
    }
  }

  /** A sweep crowds nobody out, so the split of those waiting stands. */
  lemma SweptCrowded(maxSpent: nat, log: seq<Event>, now: int, q: seq<Handle>, k: nat)
    requires k <= |q|
    requires forall i :: 0 <= i < |q| ==> (Crowded(maxSpent, log, q[i].e) <==> i < k)
    ensures var gone, left := Unexpired(q[..k], now), Unexpired(q[k..], now);
            && Unexpired(q, now) == gone + left
            && (forall i :: 0 <= i < |gone| ==> Crowded(maxSpent, log + [SweptAt(now)], gone[i].e))
            && (forall i :: 0 <= i < |left| ==> !Crowded(maxSpent, log + [SweptAt(now)], left[i].e))
  {
    var gone, left := Unexpired(q[..k], now), Unexpired(q[k..], now);
    assert q == q[..k] + q[k..];
    UnexpiredJoined(q[..k], q[k..], now);
    UnexpiredElements(q[..k], now);
    UnexpiredElements(q[k..], now);
    forall i | 0 <= i < |gone|
      ensures Crowded(maxSpent, log + [SweptAt(now)], gone[i].e)
    {
      CrowdedNext(maxSpent, log, SweptAt(now), gone[i].e);
      assert gone[i] in q[..k];
    }
    forall i | 0 <= i < |left|
      ensures !Crowded(maxSpent, log + [SweptAt(now)], left[i].e)
    {
      CrowdedNext(maxSpent, log, SweptAt(now), left[i].e);
      assert left[i] in q[k..];
    }
  }

  lemma QueuedPurge(maxSpent: nat, h: Hist, now: int)
    requires HistInv(maxSpent, h)
    ensures Queued(maxSpent, Hist(Purge(h.t, now), h.log + [SweptAt(now)]))
  {
    var q := Waiting(h.log);
    var k := |q| - |h.t.spent|;
    QueueKnown(maxSpent, h);
    KeptUnexpired(h.t, now, h.t.spent, q[k..]);
    WaitingNext(h.log, SweptAt(now));
    SweptCrowded(maxSpent, h.log, now, q, k);
    QueuedFrom(maxSpent, Hist(Purge(h.t, now), h.log + [SweptAt(now)]), Unexpired(q[..k], now), Unexpired(q[k..], now));
  }

  lemma QueuedFrom(maxSpent: nat, h: Hist, gone: seq<Handle>, left: seq<Handle>)
    requires Waiting(h.log) == gone + left && NamesOf(h.t, h.t.spent, left)
    requires forall i :: 0 <= i < |gone| ==> Crowded(maxSpent, h.log, gone[i].e)
    requires forall i :: 0 <= i < |left| ==> !Crowded(maxSpent, h.log, left[i].e)
    ensures Queued(maxSpent, h)
  {
    assert (gone + left)[|gone|..] == left;
  }

  lemma CloseSame(t: Table, refs: set<Ref>)
    requires forall f :: f in refs ==> f < |t.entries| && t.entries[f].state == Open
    ensures SameHistory(t, Close(t, refs))
  {
  }

  lemma OpenRefs(t: Table, out: seq<Taken>)
    requires WellFormed(t) && Names(t, out) && forall i :: 0 <= i < |out| ==> t.entries[out[i].e].state == Open
    ensures forall f :: f in Refs(out) ==> f < |t.entries| && t.entries[f].state == Open
  {
  }

  lemma HistSweep(maxSpent: nat, h: Hist, now: int, limit: nat, out: seq<Taken>)
    requires HistInv(maxSpent, h) && SweepPick(h.t, now, limit, out)
    ensures HistInv(maxSpent, Hist(Sweep(h.t, now, out), h.log + [SweptAt(now)]))
  {
    QueuedPurge(maxSpent, h, now);
    SweepInv(h.t, maxSpent, now, limit, out);
    OpenRefs(h.t, out);
    CloseSame(Purge(h.t, now), Refs(out));
    LoggedSweep(h, now, Sweep(h.t, now, out));
  }
}
