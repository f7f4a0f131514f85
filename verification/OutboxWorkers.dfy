/**
 Workers draining the outbox as a machine of interleaved steps. A worker claims a batch, ingests its
 records one by one and writes each result back in a later step; appends, operator verbs, retention,
 crashes and other workers fall anywhere in between. Another process may open the outbox at any time:
 that resets what is in flight, and the workers keep their batches.
 */
module OutboxWorkers {
  import opened Sequences
  import opened Outbox

  datatype Outcome = Stored | Skipped | Failed

  /** What a worker still has to do. `result` is the head's outcome when it was ingested already. */
  datatype Batch = Batch(records: seq<Record>, result: Option<Outcome>)

  /** History: every id ever appended; how often an ingest returned for an id or skipped it; every id
      whose dead row was deleted by its content hash; every id a live batch held while another process
      opened the outbox; and every delivered id that lost its row, or whose worker was cut off before
      writing the delivery down. */
  datatype World = World(
    o: Outbox, batches: map<nat, Batch>, appended: set<string>, delivered: multiset<string>, forgotten: set<string>,
    shared: set<string>, exposed: set<string>)

  datatype Event =
    | Appends(activity: Activity, source: Option<(string, Checkpoint)>, redact: string -> string, now: string)
    | Drains(worker: nat, batchSize: nat, ready: nat -> bool)
    | Ingests(worker: nat, outcome: Outcome)
    | Settles(worker: nat, readyAt: string)
    | Abandons(worker: nat)
    | Redrives(limit: nat)
    | Purges(expired: nat -> bool)
    | Deletes(hash: string)
    | Restarts
    | Reopens

  function Start(): World {
    World(Fresh(), map[], {}, multiset{}, {}, {}, {})
  }

  predicate Idle(w: World, worker: nat) {
    worker in w.batches ==> w.batches[worker].records == []
  }

  predicate Enabled(w: World, e: Event) {
    match e
    case Drains(worker, _, _) => Idle(w, worker)
    case Ingests(worker, _) => !Idle(w, worker) && w.batches[worker].result.None?
    case Settles(worker, _) => !Idle(w, worker) && w.batches[worker].result.Some?
    case Abandons(worker) => worker in w.batches
    case _ => true
  }

  /** What the worker writes back for a record: ack, retry while attempts remain, else dead-letter. */
  function Settled(o: Outbox, r: Record, outcome: Outcome, max: nat, readyAt: string): Outbox {
    if outcome != Failed then Ack(o, {r.seqNo})
    else if r.attempts + 1 >= max then DeadLetter(o, r.seqNo)
    else RetryLater(o, r.seqNo, readyAt)
  }

  function DeadWith(o: Outbox, hash: string): set<string> {
    set q | q in o.rows && o.rows[q].state == Dead && o.rows[q].activity.contentHash == Some(hash) ::
        o.rows[q].activity.id
  }

  /** The head was delivered and the worker has not written that down. */
  predicate Unsettled(b: Batch) {
    b.records != [] && b.result.Some? && b.result.value != Failed
  }

  function UnsettledIds(batches: map<nat, Batch>): set<string> {
    set v | v in batches && Unsettled(batches[v]) :: batches[v].records[0].activity.id
  }

  function HeldIds(batches: map<nat, Batch>): set<string> {
    set v, i | v in batches && 0 <= i < |batches[v].records| :: batches[v].records[i].activity.id
  }

  /** The delivered ids whose row `t` no longer has. */
  function DroppedIds(o: Outbox, t: Outbox, delivered: multiset<string>): set<string> {
    set q | q in o.rows && q !in t.rows && o.rows[q].activity.id in delivered :: o.rows[q].activity.id
  }

  /** The outbox after retention, with what that exposes. */
  function Retained(w: World, o: Outbox): World {
    w.(o := o, exposed := w.exposed + DroppedIds(w.o, o, w.delivered))
  }

  function Step(w: World, e: Event, max: nat): World
    requires Enabled(w, e)
  {
    match e
    case Appends(a, source, redact, now) => w.(o := Append(w.o, a, source, redact, now),
                                               appended := w.appended + {a.id})
    case Drains(worker, batchSize, ready) =>
      w.(o := Drain(w.o, batchSize, ready),
         batches := w.batches[worker := Batch(RecordsOf(w.o, Chosen(w.o, batchSize, ready)), None)])
    case Ingests(worker, outcome) =>
      var b := w.batches[worker];
      w.(batches := w.batches[worker := b.(result := Some(outcome))],
         delivered := if outcome == Failed then w.delivered else w.delivered + multiset{b.records[0].activity.id})
    case Settles(worker, readyAt) =>
      var b := w.batches[worker];
      w.(o := Settled(w.o, b.records[0], b.result.value, max, readyAt),
         batches := w.batches[worker := Batch(b.records[1..], None)])
    case Abandons(worker) =>
      w.(batches := w.batches - {worker}, exposed := w.exposed + UnsettledIds(map[worker := w.batches[worker]]))
    case Redrives(limit) => w.(o := Redrive(w.o, limit))
    case Purges(expired) => Retained(w, PurgeAcked(w.o, expired))
    case Deletes(hash) => Retained(w.(forgotten := w.forgotten + DeadWith(w.o, hash)), DeleteByHash(w.o, hash))
    case Restarts => w.(o := Open(w.o), batches := map[], exposed := w.exposed + UnsettledIds(w.batches))
    case Reopens => w.(o := Open(w.o), shared := w.shared + HeldIds(w.batches))
  }

  ghost predicate Reaches(events: seq<Event>, w: World, max: nat)
    decreases |events|
  {
    if events == [] then w == Start()
    else
      var e := events[|events| - 1];
      exists before: World ::
          Reaches(events[..|events| - 1], before, max) && Enabled(before, e) && w == Step(before, e, max)
  }

  /** A run can be followed one step further. */
  lemma RunOn(events: seq<Event>, n: nat, w: World, max: nat)
    requires n < |events| && Reaches(events[..n], w, max) && Enabled(w, events[n])
    ensures Reaches(events[..n + 1], Step(w, events[n], max), max)
  {
    hide Step, Enabled;
    var longer := events[..n + 1];
    assert longer[..|longer| - 1] == events[..n] && longer[|longer| - 1] == events[n];
  }

  /** A run has one end. */
  lemma {:induction false} RunIsDeterministic(events: seq<Event>, w: World, t: World, max: nat)
    requires Reaches(events, w, max) && Reaches(events, t, max)
    ensures w == t
    decreases |events|
  {
    hide Step, Enabled;
    if events != [] {
      var front, e := events[..|events| - 1], events[|events| - 1];
      var before: World :| Reaches(front, before, max) && Enabled(before, e) && w == Step(before, e, max);
      var other: World :| Reaches(front, other, max) && Enabled(other, e) && t == Step(other, e, max);
      RunIsDeterministic(front, before, other, max);
    }
  }

  /** What the history says, step by step: an append and a delivery are counted when they happen, an id is
      forgotten only when a dead row of it with the deleted hash goes, shared only when a live batch holds
      it at another process's open, and exposed only when its worker is cut off before writing its delivery
      down or when its delivered row is retired. */
  lemma HistoryMeaning(w: World, e: Event, max: nat, id: string)
    requires Enabled(w, e)
    ensures var t := Step(w, e, max);
            && (id in t.appended <==> id in w.appended || (e.Appends? && e.activity.id == id))
            && t.delivered[id] == w.delivered[id] + (if Delivers(w, e, id) then 1 else 0)
            && (id in t.forgotten <==> id in w.forgotten || (e.Deletes? && HasDead(w.o, id, e.hash)))
            && (id in t.shared <==> id in w.shared || (e.Reopens? && HeldByAny(w, id)))
            && (id in t.exposed <==> id in w.exposed || CutsOff(w, e, id) || Retires(w, e, t, id))
  {
    hide Append, Drain, Settled, Redrive, PurgeAcked, DeleteByHash, Open;
    if e.Abandons? {
      var only := map[e.worker := w.batches[e.worker]];
      assert id in UnsettledIds(only) <==> Unsettled(only[e.worker]) && only[e.worker].records[0].activity.id == id;
      assert CutsOff(w, e, id) <==> id in UnsettledIds(only);
    } else if e.Restarts? {
      assert CutsOff(w, e, id) <==> id in UnsettledIds(w.batches);
    }
  }

  predicate Delivers(w: World, e: Event, id: string)
    requires Enabled(w, e)
  {
    e.Ingests? && e.outcome != Failed && w.batches[e.worker].records[0].activity.id == id
  }

  ghost predicate HasDead(o: Outbox, id: string, hash: string) {
    exists q :: q in o.rows && o.rows[q].state == Dead && o.rows[q].activity.id == id
                && o.rows[q].activity.contentHash == Some(hash)
  }

  ghost predicate HeldByAny(w: World, id: string) {
    exists v :: v in w.batches && exists r :: r in w.batches[v].records && r.activity.id == id
  }

  /** A worker goes whose batch begins with the record, ingested and not yet written down. */
  ghost predicate CutsOff(w: World, e: Event, id: string) {
    exists v :: v in w.batches && (e == Abandons(v) || e == Restarts)
                && Unsettled(w.batches[v]) && w.batches[v].records[0].activity.id == id
  }

  ghost predicate Retires(w: World, e: Event, t: World, id: string) {
    (e.Purges? || e.Deletes?) && id in w.delivered
    && exists q :: q in w.o.rows && q !in t.o.rows && w.o.rows[q].activity.id == id
  }

  // ---------------------------------------------------------------- what every step keeps

  /** The row a record was drained from is still in flight, as it was drained. */
  predicate Owns(o: Outbox, r: Record) {
    r.seqNo in o.rows && o.rows[r.seqNo]
        == o.rows[r.seqNo].(activity := r.activity, state := Inflight, attempts := r.attempts)
  }

  /** The row a record was drained from carries its activity for as long as it is there. */
  predicate Knows(o: Outbox, r: Record) {
    r.seqNo < o.next && (r.seqNo in o.rows ==> o.rows[r.seqNo].activity == r.activity)
  }

  /** What holds of a record in a live batch: more when no other process opened the outbox meanwhile. */
  predicate Sound(o: Outbox, r: Record, shared: set<string>) {
    Knows(o, r) && (r.activity.id !in shared ==> Owns(o, r))
  }

  ghost predicate BatchInv(o: Outbox, b: Batch, delivered: multiset<string>, shared: set<string>) {
    && (forall i :: 0 <= i < |b.records| ==> Sound(o, b.records[i], shared))
    && (forall i, j :: 0 <= i < j < |b.records| ==> b.records[i].seqNo != b.records[j].seqNo)
    && (Unsettled(b) ==> b.records[0].activity.id in delivered)
  }

  /** The batch holds row `q`, and nobody opened the outbox while it did. */
  ghost predicate Holds(b: Batch, q: nat, shared: set<string>) {
    exists i :: 0 <= i < |b.records| && b.records[i].seqNo == q && b.records[i].activity.id !in shared
  }

  /** No such row is in two live batches. */
  ghost predicate Exclusive(batches: map<nat, Batch>, shared: set<string>) {
    forall v, w, q :: v in batches && w in batches && v != w && Holds(batches[v], q, shared) ==>
        !Holds(batches[w], q, shared)
  }

  ghost predicate RowInv(row: Row, delivered: multiset<string>, shared: set<string>, max: nat) {
    && (row.state == Acked ==> row.activity.id in delivered)
    && (row.activity.id !in shared ==> row.attempts < Max(max, 1))
  }

  ghost predicate TableInv(o: Outbox, delivered: multiset<string>, shared: set<string>, max: nat) {
    Valid(o) && forall q :: q in o.rows ==> RowInv(o.rows[q], delivered, shared, max)
  }

  ghost predicate NothingDropped(w: World) {
    forall id :: id in w.appended ==> HasRow(w.o, id) || id in w.delivered || id in w.forgotten
  }

  ghost predicate Inv(w: World, max: nat) {
    && TableInv(w.o, w.delivered, w.shared, max)
    && (forall v :: v in w.batches ==> BatchInv(w.o, w.batches[v], w.delivered, w.shared))
    && Exclusive(w.batches, w.shared)
    && NothingDropped(w)
  }

  /** Activities stay with their rows, and rows in flight stay exactly as they are. */
  ghost predicate KeepsInflight(o: Outbox, t: Outbox) {
    && o.next <= t.next
    && (forall q :: q in t.rows && q < o.next ==> q in o.rows && t.rows[q].activity == o.rows[q].activity)
    && (forall q :: q in o.rows && o.rows[q].state == Inflight ==> q in t.rows && t.rows[q] == o.rows[q])
  }

  lemma BatchKept(o: Outbox, t: Outbox, b: Batch, delivered: multiset<string>, more: multiset<string>,
                  shared: set<string>)
    requires BatchInv(o, b, delivered, shared) && KeepsInflight(o, t) && delivered <= more
    ensures BatchInv(t, b, more, shared)
  {
    forall i | 0 <= i < |b.records|
      ensures Sound(t, b.records[i], shared)
    {
      assert Sound(o, b.records[i], shared);
    }
  }

  lemma BatchesKept(w: World, t: Outbox, more: multiset<string>)
    requires forall v :: v in w.batches ==> BatchInv(w.o, w.batches[v], w.delivered, w.shared)
    requires KeepsInflight(w.o, t) && w.delivered <= more
    ensures forall v :: v in w.batches ==> BatchInv(t, w.batches[v], more, w.shared)
  {
    hide BatchInv, KeepsInflight;
    forall v | v in w.batches
      ensures BatchInv(t, w.batches[v], more, w.shared)
    {
      BatchKept(w.o, t, w.batches[v], w.delivered, more, w.shared);
    }
  }

  /** Ids keep their rows when no row goes. */
  lemma RowsKept(w: World, t: Outbox)
    requires NothingDropped(w)
    requires forall q :: q in w.o.rows ==> q in t.rows && t.rows[q].activity.id == w.o.rows[q].activity.id
    ensures forall id :: id in w.appended ==> HasRow(t, id) || id in w.delivered || id in w.forgotten
  {
    forall id | id in w.appended && HasRow(w.o, id)
      ensures HasRow(t, id)
    {
      var q :| q in w.o.rows && w.o.rows[q].activity.id == id;
      assert t.rows[q].activity.id == id;
    }
  }

  /** Rows that keep their activities keep the table valid. */
  lemma SameRowsAreValid(o: Outbox, t: Outbox)
    requires Valid(o) && t.next == o.next && t.rows.Keys <= o.rows.Keys
    requires forall q :: q in t.rows ==> t.rows[q].activity == o.rows[q].activity
    ensures Valid(t)
  {}

  /** From `o` to `t` rows were only added, each new and still to be tried. */
  ghost predicate AppendsOnly(o: Outbox, t: Outbox) {
    && Valid(t) && o.next <= t.next
    && (forall q :: q in o.rows ==> q in t.rows && t.rows[q] == o.rows[q])
    && (forall q :: q in t.rows && q !in o.rows ==>
        q >= o.next && t.rows[q].state == Pending && t.rows[q].attempts == 0)
  }

  lemma GrowthKeepsInv(w: World, t: Outbox, more: set<string>, max: nat)
    requires Inv(w, max) && AppendsOnly(w.o, t) && forall id :: id in more ==> HasRow(t, id)
    ensures Inv(w.(o := t, appended := w.appended + more), max)
  {
    hide HasRow, BatchInv, Exclusive, Valid;
    BatchesKept(w, t, w.delivered);
    RowsKept(w, t);
    forall q | q in t.rows
      ensures RowInv(t.rows[q], w.delivered, w.shared, max)
    {
      if q in w.o.rows { assert RowInv(w.o.rows[q], w.delivered, w.shared, max); }
    }
  }

  lemma AppendKeepsInv(w: World, e: Event, max: nat)
    requires Inv(w, max) && e.Appends?
    ensures Inv(Step(w, e, max), max)
  {
    hide Append, Inv, HasRow, BatchInv, Exclusive, NothingDropped;
    InvIsValid(w, max);
    AppendGrows(w.o, e.activity, e.source, e.redact, e.now);
    GrowthKeepsInv(w, Append(w.o, e.activity, e.source, e.redact, e.now), {e.activity.id}, max);
  }

  lemma InvIsValid(w: World, max: nat)
    requires Inv(w, max)
    ensures Valid(w.o)
  {
    hide BatchInv, Exclusive, NothingDropped, Valid;
  }

  lemma AppendGrows(o: Outbox, a: Activity, source: Option<(string, Checkpoint)>, redact: string -> string, now: string)
    requires Valid(o)
    ensures var t := Append(o, a, source, redact, now); AppendsOnly(o, t) && HasRow(t, a.id)
  {
    hide Append, Redacted;
    AppendMeaning(o, a, source, redact, now);
    AppendNumbers(o, a, source, redact, now);
  }

  lemma AppendNumbers(o: Outbox, a: Activity, source: Option<(string, Checkpoint)>, redact: string -> string,
                      now: string)
    ensures var t := Append(o, a, source, redact, now);
            o.next <= t.next && forall q :: q in t.rows && q < o.next ==> q in o.rows
  {
    hide Redacted;
  }

  lemma DrainKeepsInv(w: World, e: Event, max: nat)
    requires Inv(w, max) && e.Drains? && Enabled(w, e)
    ensures Inv(Step(w, e, max), max)
  {
    hide Drain, Chosen, BatchInv, Exclusive, HasRow, NothingDropped, Holds, TableInv, KeepsInflight;
    var t := Step(w, e, max);
    DrainKeepsTable(w.o, e.batchSize, e.ready, w.delivered, w.shared, max);
    BatchesKept(w, t.o, w.delivered);
    RowsKept(w, t.o);
    FreshBatch(w, t.o, Chosen(w.o, e.batchSize, e.ready));
    DroppedMeans(w);
    DroppedMeans(t);
    DrainedIsExclusive(w, Chosen(w.o, e.batchSize, e.ready), e.worker);
  }

  lemma DrainKeepsTable(o: Outbox, batchSize: nat, ready: nat -> bool, delivered: multiset<string>,
                        shared: set<string>, max: nat)
    requires TableInv(o, delivered, shared, max)
    ensures var t, seqs := Drain(o, batchSize, ready), Chosen(o, batchSize, ready);
            && TableInv(t, delivered, shared, max) && KeepsInflight(o, t)
            && (forall q :: q in o.rows ==> q in t.rows && t.rows[q].activity == o.rows[q].activity)
            && (forall q :: q in seqs ==>
                q < t.next && o.rows[q].state == Pending && q in t.rows && t.rows[q] == o.rows[q].(state := Inflight))
            && (forall i, j :: 0 <= i < j < |seqs| ==> seqs[i] < seqs[j])
  {
    hide Chosen;
    DrainMeaning(o, batchSize, ready);
    var t, seqs := Drain(o, batchSize, ready), Chosen(o, batchSize, ready);
    forall q | q in t.rows
      ensures RowInv(t.rows[q], delivered, shared, max) && t.rows[q].activity == o.rows[q].activity
    {
      assert RowInv(o.rows[q], delivered, shared, max);
      assert q in seqs || t.rows[q] == o.rows[q];
    }
  }

  lemma DroppedMeans(w: World)
    ensures NothingDropped(w)
            <==> forall id :: id in w.appended ==> HasRow(w.o, id) || id in w.delivered || id in w.forgotten
  {}

  lemma FreshBatch(w: World, t: Outbox, seqs: seq<nat>)
    requires forall q :: q in seqs ==>
             q < t.next && q in w.o.rows && q in t.rows && t.rows[q] == w.o.rows[q].(state := Inflight)
    requires forall i, j :: 0 <= i < j < |seqs| ==> seqs[i] < seqs[j]
    ensures BatchInv(t, Batch(RecordsOf(w.o, seqs), None), w.delivered, w.shared)
  {
    var b := Batch(RecordsOf(w.o, seqs), None);
    forall i | 0 <= i < |b.records|
      ensures Sound(t, b.records[i], w.shared)
    {
      assert seqs[i] in seqs;
    }
  }

  /** A drained row was pending, so no live batch holds it. */
  lemma DrainedIsExclusive(w: World, seqs: seq<nat>, worker: nat)
    requires forall v :: v in w.batches ==> BatchInv(w.o, w.batches[v], w.delivered, w.shared)
    requires Exclusive(w.batches, w.shared)
    requires forall q :: q in seqs ==> q in w.o.rows && w.o.rows[q].state == Pending
    ensures Exclusive(w.batches[worker := Batch(RecordsOf(w.o, seqs), None)], w.shared)
  {
    var claimed := Batch(RecordsOf(w.o, seqs), None);
    forall v, q | v in w.batches && Holds(w.batches[v], q, w.shared)
      ensures !Holds(claimed, q, w.shared)
    {
      HeldIsInflight(w.o, w.batches[v], w.delivered, w.shared, q);
      ClaimedAreChosen(w.o, seqs, q, w.shared);
    }
  }

  lemma ClaimedAreChosen(o: Outbox, seqs: seq<nat>, q: nat, shared: set<string>)
    requires forall p :: p in seqs ==> p in o.rows
    ensures Holds(Batch(RecordsOf(o, seqs), None), q, shared) ==> q in seqs
  {}

  lemma HeldIsInflight(o: Outbox, b: Batch, delivered: multiset<string>, shared: set<string>, q: nat)
    requires BatchInv(o, b, delivered, shared) && Holds(b, q, shared)
    ensures q in o.rows && o.rows[q].state == Inflight
  {
    var i :| 0 <= i < |b.records| && b.records[i].seqNo == q && b.records[i].activity.id !in shared;
    assert Sound(o, b.records[i], shared);
  }

  lemma IngestKeepsInv(w: World, e: Event, max: nat)
    requires Inv(w, max) && e.Ingests? && Enabled(w, e)
    ensures Inv(Step(w, e, max), max)
  {
    hide HasRow, Exclusive, Sound, Valid;
    var t := Step(w, e, max);
    assert w.delivered <= t.delivered;
    BatchesKept(w, w.o, t.delivered);
    ExclusiveAgain(w.batches, e.worker, t.batches[e.worker], w.shared);
  }

  /** A worker whose batch holds no more than before stays apart from the others. */
  lemma ExclusiveAgain(batches: map<nat, Batch>, worker: nat, b: Batch, shared: set<string>)
    requires Exclusive(batches, shared) && worker in batches
    requires forall q :: Holds(b, q, shared) ==> Holds(batches[worker], q, shared)
    ensures Exclusive(batches[worker := b], shared)
  {}

  lemma SettleKeepsInv(w: World, e: Event, max: nat)
    requires Inv(w, max) && e.Settles? && Enabled(w, e)
    ensures Inv(Step(w, e, max), max)
  {
    hide HasRow, Exclusive, BatchInv, Settled, Holds, NothingDropped;
    var t := Step(w, e, max);
    var b := w.batches[e.worker];
    SettledMeaning(w.o, b, max, e.readyAt, w.delivered, w.shared);
    SettledOthers(w, t, e.worker);
    RestHoldsLess(b, w.shared);
    ExclusiveAgain(w.batches, e.worker, Batch(b.records[1..], None), w.shared);
    DroppedMeans(w);
    RowsKept(w, t.o);
    DroppedMeans(t);
  }

  lemma RestHoldsLess(b: Batch, shared: set<string>)
    requires b.records != []
    ensures forall q :: Holds(Batch(b.records[1..], None), q, shared) ==> Holds(b, q, shared)
  {
    var rest := Batch(b.records[1..], None);
    forall q | Holds(rest, q, shared)
      ensures Holds(b, q, shared)
    {
      var i :| 0 <= i < |rest.records| && rest.records[i].seqNo == q && rest.records[i].activity.id !in shared;
      assert b.records[i + 1].seqNo == q;
    }
  }

  /** Settling changes the head's row, if it is still there, and no other. */
  lemma SettledMeaning(o: Outbox, b: Batch, max: nat, readyAt: string, delivered: multiset<string>, shared: set<string>)
    requires TableInv(o, delivered, shared, max) && BatchInv(o, b, delivered, shared) && b.records != []
             && b.result.Some?
    ensures var t := Settled(o, b.records[0], b.result.value, max, readyAt);
            && TableInv(t, delivered, shared, max) && t.next == o.next && t.rows.Keys == o.rows.Keys
            && (forall p :: p in o.rows ==> t.rows[p].activity == o.rows[p].activity)
            && (forall p :: p in o.rows && p != b.records[0].seqNo ==> t.rows[p] == o.rows[p])
  {
    hide RowInv, Valid;
    var r := b.records[0];
    assert Sound(o, r, shared);
    SameRowsAreValid(o, Settled(o, r, b.result.value, max, readyAt));
    if r.seqNo in o.rows {
      assert RowInv(o.rows[r.seqNo], delivered, shared, max);
      SettledRow(o, r, b.result.value, max, readyAt, delivered, shared);
    }
  }

  lemma SettledRow(o: Outbox, r: Record, outcome: Outcome, max: nat, readyAt: string, delivered: multiset<string>,
                   shared: set<string>)
    requires r.seqNo in o.rows && Sound(o, r, shared) && RowInv(o.rows[r.seqNo], delivered, shared, max)
    requires outcome != Failed ==> r.activity.id in delivered
    ensures RowInv(Settled(o, r, outcome, max, readyAt).rows[r.seqNo], delivered, shared, max)
  {}

  lemma SettledOthers(w: World, t: World, worker: nat)
    requires forall v :: v in w.batches ==> BatchInv(w.o, w.batches[v], w.delivered, w.shared)
    requires Exclusive(w.batches, w.shared) && worker in w.batches && w.batches[worker].records != []
    requires t.delivered == w.delivered && t.shared == w.shared && t.o.next == w.o.next
             && t.o.rows.Keys == w.o.rows.Keys
    requires t.batches == w.batches[worker := Batch(w.batches[worker].records[1..], None)]
    requires forall p :: p in w.o.rows ==> t.o.rows[p].activity == w.o.rows[p].activity
    requires forall p :: p in w.o.rows && p != w.batches[worker].records[0].seqNo ==> t.o.rows[p] == w.o.rows[p]
    ensures forall v :: v in t.batches ==> BatchInv(t.o, t.batches[v], t.delivered, t.shared)
  {
    hide BatchInv, Exclusive;
    forall v | v in t.batches
      ensures BatchInv(t.o, t.batches[v], t.delivered, t.shared)
    {
      if v == worker {
        RestStaysSound(w.o, t.o, w.batches[v], w.delivered, w.shared);
      } else {
        HeadIsElsewhere(w, worker, v);
        OtherStaysSound(w.o, t.o, w.batches[v], w.batches[worker].records[0].seqNo, w.delivered, w.shared);
      }
    }
  }

  lemma RestStaysSound(o: Outbox, t: Outbox, b: Batch, delivered: multiset<string>, shared: set<string>)
    requires BatchInv(o, b, delivered, shared) && b.records != []
    requires t.next == o.next && t.rows.Keys == o.rows.Keys
    requires forall p :: p in o.rows ==> t.rows[p].activity == o.rows[p].activity
    requires forall p :: p in o.rows && p != b.records[0].seqNo ==> t.rows[p] == o.rows[p]
    ensures BatchInv(t, Batch(b.records[1..], None), delivered, shared)
  {
    var rest := b.records[1..];
    forall i | 0 <= i < |rest|
      ensures Sound(t, rest[i], shared)
    {
      assert rest[i] == b.records[i + 1] && Sound(o, b.records[i + 1], shared);
    }
  }

  lemma OtherStaysSound(o: Outbox, t: Outbox, b: Batch, q: nat, delivered: multiset<string>, shared: set<string>)
    requires BatchInv(o, b, delivered, shared) && !Holds(b, q, shared)
    requires t.next == o.next && t.rows.Keys == o.rows.Keys
    requires forall p :: p in o.rows ==> t.rows[p].activity == o.rows[p].activity
    requires forall p :: p in o.rows && p != q ==> t.rows[p] == o.rows[p]
    ensures BatchInv(t, b, delivered, shared)
  {
    forall i | 0 <= i < |b.records|
      ensures Sound(t, b.records[i], shared)
    {
      assert Sound(o, b.records[i], shared);
    }
  }

  /** Another live batch holds the head's row only in sharing. */
  lemma HeadIsElsewhere(w: World, worker: nat, v: nat)
    requires worker in w.batches && w.batches[worker].records != [] && v in w.batches && v != worker
    requires BatchInv(w.o, w.batches[worker], w.delivered, w.shared)
             && BatchInv(w.o, w.batches[v], w.delivered, w.shared)
    requires Exclusive(w.batches, w.shared)
    ensures !Holds(w.batches[v], w.batches[worker].records[0].seqNo, w.shared)
  {
    var r := w.batches[worker].records[0];
    assert Sound(w.o, r, w.shared);
    assert r.activity.id !in w.shared ==> Holds(w.batches[worker], r.seqNo, w.shared);
    HeldIsUnshared(w.o, w.batches[v], w.delivered, w.shared, r.seqNo);
  }

  lemma HeldIsUnshared(o: Outbox, b: Batch, delivered: multiset<string>, shared: set<string>, q: nat)
    requires BatchInv(o, b, delivered, shared)
    ensures Holds(b, q, shared) ==> q in o.rows && o.rows[q].activity.id !in shared
  {
    if Holds(b, q, shared) {
      var i :| 0 <= i < |b.records| && b.records[i].seqNo == q && b.records[i].activity.id !in shared;
      assert Sound(o, b.records[i], shared);
    }
  }

  lemma AbandonKeepsInv(w: World, e: Event, max: nat)
    requires Inv(w, max) && (e.Abandons? || e.Restarts?) && Enabled(w, e)
    ensures Inv(Step(w, e, max), max)
  {
    hide BatchInv, HasRow, Holds, UnsettledIds;
    var t := Step(w, e, max);
    RowsKept(w, t.o);
    if e.Restarts? { OpenKeepsTable(w.o, w.delivered, w.shared, max); }
  }

  lemma OpenKeepsTable(o: Outbox, delivered: multiset<string>, shared: set<string>, max: nat)
    requires TableInv(o, delivered, shared, max)
    ensures TableInv(Open(o), delivered, shared, max)
  {
    forall q | q in o.rows
      ensures RowInv(Open(o).rows[q], delivered, shared, max)
    {
      assert RowInv(o.rows[q], delivered, shared, max);
    }
  }

  lemma ReopenKeepsInv(w: World, e: Event, max: nat)
    requires Inv(w, max) && e.Reopens?
    ensures Inv(Step(w, e, max), max)
  {
    hide HasRow, TableInv, HeldIds, BatchInv;
    var t := Step(w, e, max);
    RowsKept(w, t.o);
    OpenKeepsTable(w.o, w.delivered, w.shared, max);
    MoreShared(t.o, w.delivered, w.shared, t.shared, max);
    forall v | v in t.batches
      ensures BatchInv(t.o, t.batches[v], t.delivered, t.shared)
      ensures forall q :: !Holds(t.batches[v], q, t.shared)
    {
      HeldAreShared(w, v);
      OpenKeepsBatch(w.o, w.batches[v], w.delivered, w.shared, t.shared);
    }
  }

  lemma MoreShared(o: Outbox, delivered: multiset<string>, shared: set<string>, more: set<string>, max: nat)
    requires TableInv(o, delivered, shared, max) && shared <= more
    ensures TableInv(o, delivered, more, max)
  {
    forall q | q in o.rows
      ensures RowInv(o.rows[q], delivered, more, max)
    {
      assert RowInv(o.rows[q], delivered, shared, max);
    }
  }

  lemma HeldAreShared(w: World, v: nat)
    requires v in w.batches
    ensures forall i :: 0 <= i < |w.batches[v].records| ==> w.batches[v].records[i].activity.id in HeldIds(w.batches)
  {}

  lemma OpenKeepsBatch(o: Outbox, b: Batch, delivered: multiset<string>, shared: set<string>, more: set<string>)
    requires BatchInv(o, b, delivered, shared)
    requires forall i :: 0 <= i < |b.records| ==> b.records[i].activity.id in more
    ensures BatchInv(Open(o), b, delivered, more)
  {
    forall i | 0 <= i < |b.records|
      ensures Sound(Open(o), b.records[i], more)
    {
      assert Sound(o, b.records[i], shared);
    }
  }

  lemma RedriveKeepsInv(w: World, e: Event, max: nat)
    requires Inv(w, max) && e.Redrives?
    ensures Inv(Step(w, e, max), max)
  {
    hide BatchInv, HasRow, Exclusive, Oldest, RowInv, Valid;
    var t := Step(w, e, max);
    SameRowsAreValid(w.o, t.o);
    OldestMeaning(w.o, 0, e.limit, IsDead());
    BatchesKept(w, t.o, w.delivered);
    RowsKept(w, t.o);
    forall q | q in t.o.rows
      ensures RowInv(t.o.rows[q], w.delivered, w.shared, max)
    {
      RedrivenRow(w.o.rows[q], t.o.rows[q], w.delivered, w.shared, max);
    }
  }

  lemma RedrivenRow(row: Row, t: Row, delivered: multiset<string>, shared: set<string>, max: nat)
    requires RowInv(row, delivered, shared, max) && (t == row || t == row.(state := Pending, readyAt := None))
    ensures RowInv(t, delivered, shared, max)
  {}

  lemma RetireKeepsInv(w: World, e: Event, max: nat)
    requires Inv(w, max) && (e.Purges? || e.Deletes?)
    ensures Inv(Step(w, e, max), max)
  {
    hide BatchInv, Exclusive, DroppedIds, RowInv, Valid, NothingDropped;
    var t := Step(w, e, max);
    SameRowsAreValid(w.o, t.o);
    BatchesKept(w, t.o, w.delivered);
    RetiredAreDone(w, t, max);
  }

  /** A row that retention takes was acked, or it was dead and its hash was named. */
  lemma RetiredAreDone(w: World, t: World, max: nat)
    requires NothingDropped(w) && TableInv(w.o, w.delivered, w.shared, max)
    requires t.appended == w.appended && t.delivered == w.delivered && w.forgotten <= t.forgotten
    requires forall q :: q in w.o.rows && q !in t.o.rows ==>
             w.o.rows[q].state == Acked || w.o.rows[q].activity.id in t.forgotten
    requires forall q :: q in w.o.rows && q in t.o.rows ==> t.o.rows[q] == w.o.rows[q]
    ensures NothingDropped(t)
  {
    hide Valid;
    forall id | id in w.appended
      ensures HasRow(t.o, id) || id in t.delivered || id in t.forgotten
    {
      if HasRow(w.o, id) {
        var q :| q in w.o.rows && w.o.rows[q].activity.id == id;
        assert RowInv(w.o.rows[q], w.delivered, w.shared, max);
        if q in t.o.rows { assert t.o.rows[q].activity.id == id; }
      }
    }
  }

  lemma StepKeepsInv(w: World, e: Event, max: nat)
    requires Inv(w, max) && Enabled(w, e)
    ensures Inv(Step(w, e, max), max)
  {
    hide Inv, Step;
    match e
    case Appends(_, _, _, _) => AppendKeepsInv(w, e, max);
    case Drains(_, _, _) => DrainKeepsInv(w, e, max);
    case Ingests(_, _) => IngestKeepsInv(w, e, max);
    case Settles(_, _) => SettleKeepsInv(w, e, max);
    case Abandons(_) => AbandonKeepsInv(w, e, max);
    case Redrives(_) => RedriveKeepsInv(w, e, max);
    case Purges(_) => RetireKeepsInv(w, e, max);
    case Deletes(_) => RetireKeepsInv(w, e, max);
    case Restarts => AbandonKeepsInv(w, e, max);
    case Reopens => ReopenKeepsInv(w, e, max);
  }

  lemma {:induction false} EveryRunKeepsInv(events: seq<Event>, w: World, max: nat)
    requires Reaches(events, w, max)
    ensures Inv(w, max)
    decreases |events|
  {
    hide Inv, Step, Enabled;
    if events == [] {
      StartIsSound(max);
    } else {
      var e := events[|events| - 1];
      var before: World :| Reaches(events[..|events| - 1], before, max) && Enabled(before, e)
          && w == Step(before, e, max);
      EveryRunKeepsInv(events[..|events| - 1], before, max);
      StepKeepsInv(before, e, max);
    }
  }

  lemma StartIsSound(max: nat)
    ensures Inv(Start(), max)
  {}

  // ---------------------------------------------------------------- main results

  /** At-least-once, over every run, whoever opens the outbox meanwhile: an appended activity has a row
      until an ingest returned for it or skipped it, or until its dead row was deleted by content hash. */
  lemma NothingIsLost(events: seq<Event>, w: World, max: nat, id: string)
    requires Reaches(events, w, max) && id in w.appended
    ensures HasRow(w.o, id) || id in w.delivered || id in w.forgotten
  {
    hide Reaches, TableInv, BatchInv, Exclusive;
    EveryRunKeepsInv(events, w, max);
  }

  /** Over every run a row is acked only after an ingest returned for it or skipped it, and its id has
      no second row. It is never retried past the limit unless another process opened the outbox while
      a live batch held it. */
  lemma RowsAreHonest(events: seq<Event>, w: World, max: nat, q: nat)
    requires Reaches(events, w, max) && q in w.o.rows
    ensures w.o.rows[q].state == Acked ==> w.o.rows[q].activity.id in w.delivered
    ensures w.o.rows[q].activity.id !in w.shared ==> w.o.rows[q].attempts < Max(max, 1)
    ensures forall p :: p in w.o.rows && w.o.rows[p].activity.id == w.o.rows[q].activity.id ==> p == q
  {
    hide Reaches, BatchInv, Exclusive, NothingDropped;
    EveryRunKeepsInv(events, w, max);
    assert RowInv(w.o.rows[q], w.delivered, w.shared, max);
  }

  /** Over every run a record in a live batch is in flight, as drained, and in no other batch, unless
      another process opened the outbox while a live batch held it. */
  lemma OneOwner(events: seq<Event>, w: World, max: nat, v: nat, u: nat, i: nat, j: nat)
    requires Reaches(events, w, max) && v in w.batches && u in w.batches
    requires i < |w.batches[v].records| && j < |w.batches[u].records|
    requires w.batches[v].records[i].activity.id !in w.shared
    ensures Owns(w.o, w.batches[v].records[i])
    ensures w.batches[v].records[i].seqNo == w.batches[u].records[j].seqNo ==> v == u && i == j
  {
    hide Reaches, TableInv, NothingDropped;
    EveryRunKeepsInv(events, w, max);
    OneHolder(w, v, u, i, j);
  }

  lemma OneHolder(w: World, v: nat, u: nat, i: nat, j: nat)
    requires v in w.batches && u in w.batches && i < |w.batches[v].records| && j < |w.batches[u].records|
    requires BatchInv(w.o, w.batches[v], w.delivered, w.shared) && BatchInv(w.o, w.batches[u], w.delivered, w.shared)
    requires Exclusive(w.batches, w.shared) && w.batches[v].records[i].activity.id !in w.shared
    ensures Owns(w.o, w.batches[v].records[i])
    ensures w.batches[v].records[i].seqNo == w.batches[u].records[j].seqNo ==> v == u && i == j
  {
    var r, s := w.batches[v].records[i], w.batches[u].records[j];
    assert Sound(w.o, r, w.shared) && Sound(w.o, s, w.shared);
    if r.seqNo == s.seqNo {
      assert Holds(w.batches[v], r.seqNo, w.shared);
      assert Holds(w.batches[u], s.seqNo, w.shared);
    }
  }

  /** The condition is exact: another process's open leaves the live records owned if and only if there
      are none, and shares exactly the ids they carry. */
  lemma OpenEndsOwnership(events: seq<Event>, w: World, max: nat)
    requires Reaches(events, w, max)
    ensures var t := Step(w, Reopens, max);
            && (t.shared == w.shared + HeldIds(w.batches))
            && ((forall v, i :: v in t.batches && 0 <= i < |t.batches[v].records| ==>
                 Owns(t.o, t.batches[v].records[i]))
                <==> forall v :: v in w.batches ==> w.batches[v].records == [])
  {
    hide Reaches;
    var t := Step(w, Reopens, max);
    forall v | v in t.batches && t.batches[v].records != []
      ensures !Owns(t.o, t.batches[v].records[0])
    {
      assert t.o == Open(w.o);
    }
  }

  /** What comes after: the worker's row is eligible again, and two failed attempts then count twice
      past the limit that each of them checked. */
  lemma ForeignOpenSharesRows(o: Outbox, r: Record, max: nat, at: string)
    requires Valid(o) && Owns(o, r) && r.attempts + 2 == max
    ensures var reopened := Open(o);
            var again := Drain(reopened, o.next, q => true);
            var once := Settled(again, r, Failed, max, at);
            var twice := Settled(once, Record(r.seqNo, r.activity, r.attempts), Failed, max, at);
            && r.seqNo in Chosen(reopened, o.next, q => true)
            && Owns(again, r)
            && twice.rows[r.seqNo].attempts == max
  {
    var reopened := Open(o);
    assert reopened.rows[r.seqNo].state == Pending;
    EverythingIsDrained(reopened, r.seqNo);
    hide Chosen, Drain;
    DrainMeaning(reopened, o.next, q => true);
  }

  /** A drain as large as the table takes every pending row. */
  lemma EverythingIsDrained(o: Outbox, q: nat)
    requires Valid(o) && q in o.rows && o.rows[q].state == Pending
    ensures q in Chosen(o, o.next, p => true)
  {
    hide Chosen, Drain;
    DrainMeaning(o, o.next, p => true);
    var seqs := Chosen(o, o.next, p => true);
    if q !in seqs {
      AscendingBelow(seqs, q);
    }
  }

  /** Ascending numbers below a bound are fewer than the bound. */
  lemma AscendingBelow(seqs: seq<nat>, bound: nat)
    requires forall i, j :: 0 <= i < j < |seqs| ==> seqs[i] < seqs[j]
    requires forall x :: x in seqs ==> x < bound
    ensures |seqs| <= bound
  {
    if seqs != [] {
      var front, last := seqs[..|seqs| - 1], seqs[|seqs| - 1];
      forall x | x in front
        ensures x < last
      {
        var i :| 0 <= i < |front| && front[i] == x;
      }
      AscendingBelow(front, last);
      assert last in seqs;
    }
  }
}
