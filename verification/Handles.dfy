/** The enforcement API's handle table (adapters/enforce/handles.go).

    `Table` is the table as a value, and one function per critical section says
    what that section makes of it. The class `HandleTable` is the table the code
    keeps; each of its methods is proved to make its function's table. An entry
    is shared by reference between the table and whoever closes it, so entries live
    in `entries`, which stands for the Go heap, and a reference is an index into
    it. `minted` remembers the handle each entry was minted under. */
module Handles {
  import opened Options

  datatype State = Minting | Open | Closing | Spent

  datatype Ending = NoEnding | Recorded | RecordFailed | Unrecorded | Abandoned

  datatype Code = Granted | DuplicateRequest | Unavailable | HandleUnknown | HandleSpent

  /** An execution the pipeline handed out, and a reference to an entry. */
  type Exec = nat
  type Ref = nat

  datatype Entry = Entry(run: string, d: Option<Exec>, expires: int, key: string, state: State, ending: Ending)

  datatype KeyRef = KeyRef(run: string, key: string)

  /** An execution handed to whoever closes it. */
  datatype Taken = Taken(id: string, e: Ref)

  datatype Table = Table(entries: seq<Entry>, minted: seq<string>, byID: map<string, Ref>, keys: set<KeyRef>,
                         perRun: map<string, int>, spent: seq<string>, shut: bool)

  const EmptyTable := Table([], [], map[], {}, map[], [], false)

  // ---------------------------------------------------------------- invariant

  predicate NoDuplicates<T(==)>(s: seq<T>) {
    forall i, j :: 0 <= i < j < |s| ==> s[i] != s[j]
  }

  /** Every handle names an entry minted under it. */
  predicate WellFormed(t: Table) {
    && |t.minted| == |t.entries|
    && (forall id :: id in t.byID ==> t.byID[id] < |t.entries| && t.minted[t.byID[id]] == id)
  }

  /** An entry not yet spent is found under its handle. */
  predicate LiveAreListed(t: Table)
    requires WellFormed(t)
  {
    forall e :: 0 <= e < |t.entries| && t.entries[e].state != Spent
                ==> t.minted[e] in t.byID && t.byID[t.minted[e]] == e
  }

  predicate IsSpent(t: Table, id: string)
    requires WellFormed(t)
  {
    id in t.byID && t.entries[t.byID[id]].state == Spent
  }

  /** The spent queue holds exactly the spent handles the table still knows, each
      once, within the bound. */
  ghost predicate SpentQueue(t: Table, maxSpent: nat)
    requires WellFormed(t)
  {
    && NoDuplicates(t.spent)
    && |t.spent| <= maxSpent
    && (forall id :: id in t.spent <==> IsSpent(t, id))
  }

  predicate NoneOpenOnceShut(t: Table) {
    t.shut ==> forall e :: 0 <= e < |t.entries| ==> t.entries[e].state != Open
  }

  ghost predicate TableInv(t: Table, maxSpent: nat) {
    && WellFormed(t)
    && LiveAreListed(t)
    && SpentQueue(t, maxSpent)
    && NoneOpenOnceShut(t)
  }

  // ---------------------------------------------------------------- operations

  function Count(perRun: map<string, int>, run: string): int {
    if run in perRun then perRun[run] else 0
  }

  function KeyOf(run: string, key: string): set<KeyRef> {
    if key != "" then {KeyRef(run, key)} else {}
  }

  function ReserveCode(t: Table, maxPerRun: int, run: string, key: string): Code {
    if key != "" && KeyRef(run, key) in t.keys then DuplicateRequest
    else if Count(t.perRun, run) >= maxPerRun then Unavailable
    else Granted
  }

  function Reserve(t: Table, run: string, key: string): Table {
    t.(keys := t.keys + KeyOf(run, key), perRun := t.perRun[run := Count(t.perRun, run) + 1])
  }

  function Free(t: Table, run: string, key: string): Table {
    var n := Count(t.perRun, run) - 1;
    t.(keys := t.keys - KeyOf(run, key), perRun := if n <= 0 then t.perRun - {run} else t.perRun[run := n])
  }

  function Mint(t: Table, e: Entry, id: string): Table {
    t.(entries := t.entries + [e.(state := Minting)], minted := t.minted + [id], byID := t.byID[id := |t.entries|])
  }

  function SetState(t: Table, e: Ref, state: State): Table
    requires e < |t.entries|
  {
    t.(entries := t.entries[e := t.entries[e].(state := state)])
  }

  function TakeCode(t: Table, id: string, run: string, now: int): Code
    requires WellFormed(t)
  {
    if id !in t.byID then HandleUnknown
    else
      var e := t.entries[t.byID[id]];
      if e.run != run || now >= e.expires then HandleUnknown
      else if e.state == Closing || e.state == Spent then HandleSpent
      else Granted
  }

  function TakeEnding(t: Table, id: string, run: string, now: int): Ending
    requires WellFormed(t)
  {
    if TakeCode(t, id, run, now) == HandleSpent then t.entries[t.byID[id]].ending else NoEnding
  }

  function Take(t: Table, id: string, run: string, now: int): Table
    requires WellFormed(t)
  {
    if TakeCode(t, id, run, now) == Granted then SetState(t, t.byID[id], Closing) else t
  }

  /** Whether the settling admit is handed the entry to abandon. */
  predicate SettleTakes(t: Table, e: Ref)
    requires e < |t.entries|
  {
    t.entries[e].state == Minting && t.shut
  }

  function Settle(t: Table, e: Ref): Table
    requires e < |t.entries|
  {
    if t.entries[e].state != Minting then t
    else SetState(t, e, if t.shut then Closing else Open)
  }

  function Evict(t: Table, maxSpent: nat): Table
    decreases |t.spent|
  {
    if |t.spent| > maxSpent then Evict(t.(byID := t.byID - {t.spent[0]}, spent := t.spent[1..]), maxSpent) else t
  }

  function Record(t: Table, id: string, e: Ref, ending: Ending): Table
    requires e < |t.entries|
  {
    var was := t.entries[e];
    Free(t.(entries := t.entries[e := was.(state := Spent, ending := ending, d := None)]), was.run, was.key)
      .(spent := t.spent + [id])
  }

  function Spend(t: Table, maxSpent: nat, id: string, e: Ref, ending: Ending): Table
    requires e < |t.entries|
  {
    Evict(Record(t, id, e, ending), maxSpent)
  }

  /** A spent handle the sweep at now keeps. */
  predicate Keeps(t: Table, now: int, id: string)
    requires WellFormed(t)
  {
    id in t.byID && now < t.entries[t.byID[id]].expires
  }

  function Kept(t: Table, now: int, ids: seq<string>): (r: seq<string>)
    requires WellFormed(t)
    ensures |r| <= |ids|
    ensures forall id :: id in r <==> id in ids && Keeps(t, now, id)
  {
    if ids == [] then []
    else
      var n := |ids| - 1;
      Kept(t, now, ids[..n]) + (if Keeps(t, now, ids[n]) then [ids[n]] else [])
  }

  function Purge(t: Table, now: int): Table
    requires WellFormed(t)
  {
    t.(byID := t.byID - (set id | id in t.spent && !Keeps(t, now, id)), spent := Kept(t, now, t.spent))
  }

  predicate ExpiredOpen(t: Table, now: int, id: string)
    requires WellFormed(t)
  {
    id in t.byID && t.entries[t.byID[id]].state == Open && now >= t.entries[t.byID[id]].expires
  }

  /** out names handles of t, each once, with the entries they name. */
  predicate Names(t: Table, out: seq<Taken>)
  {
    && (forall i :: 0 <= i < |out| ==> out[i].id in t.byID && t.byID[out[i].id] == out[i].e)
    && (forall i, j :: 0 <= i < j < |out| ==> out[i].id != out[j].id)
  }

  function Expiry(t: Table, x: Taken): int
    requires WellFormed(t) && x.id in t.byID
  {
    t.entries[t.byID[x.id]].expires
  }

  /** What one sweep may take: expired open handles, earliest expiry first, as
      many as the limit allows, and none later than one it leaves. The order of
      equal expiries is not determined, as the code iterates over a map. */
  ghost predicate SweepPick(t: Table, now: int, limit: nat, out: seq<Taken>)
    requires WellFormed(t)
  {
    && Names(t, out)
    && (forall i :: 0 <= i < |out| ==> ExpiredOpen(t, now, out[i].id))
    && (forall i, j :: 0 <= i < j < |out| ==> Expiry(t, out[i]) <= Expiry(t, out[j]))
    && |out| <= limit
    && (forall id :: ExpiredOpen(t, now, id) && (forall i :: 0 <= i < |out| ==> out[i].id != id)
                     ==> |out| == limit && forall i :: 0 <= i < |out| ==>
                         Expiry(t, out[i]) <= t.entries[t.byID[id]].expires)
  }

  /** What shutdown takes: every open handle, in some order. */
  ghost predicate ShutdownPick(t: Table, out: seq<Taken>)
    requires WellFormed(t)
  {
    && Names(t, out)
    && (forall i :: 0 <= i < |out| ==> t.entries[out[i].e].state == Open)
    && (forall id :: id in t.byID && t.entries[t.byID[id]].state == Open ==>
        exists i :: 0 <= i < |out| && out[i].id == id)
  }

  function Refs(out: seq<Taken>): set<Ref> {
    set x | x in out :: x.e
  }

  /** t with every entry out names being closed. */
  function Close(t: Table, refs: set<Ref>): Table {
    t.(entries := seq(|t.entries|, e requires 0 <= e < |t.entries| =>
                    if e in refs then t.entries[e].(state := Closing) else t.entries[e]))
  }

  function Sweep(t: Table, now: int, out: seq<Taken>): Table
    requires WellFormed(t)
  {
    Close(Purge(t, now), Refs(out))
  }

  function Shutdown(t: Table, out: seq<Taken>): Table {
    Close(t, Refs(out)).(shut := true)
  }
}
