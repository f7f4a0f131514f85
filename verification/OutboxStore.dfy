/** The outbox as the program holds it, the worker's loop over a batch, and the ordered shutdown. */
module OutboxStore {
  import opened Sequences
  import opened Outbox
  import opened OutboxWorkers

  class SqliteOutbox {
    var rows: map<nat, Row>
    var next: nat
    var checkpoints: map<string, Checkpoint>
    var quarantine: seq<Quarantined>
    var isOpen: bool

    ghost function Model(): Outbox
      reads this
    {
      Outbox(rows, next, checkpoints, quarantine)
    }

    /** What the file holds before it is opened. */
    constructor (o: Outbox)
      ensures Model() == o && !isOpen
    {
      rows, next, checkpoints, quarantine, isOpen := o.rows, o.next, o.checkpoints, o.quarantine, false;
    }

    /** Opening twice does nothing the second time; the first time recovers what a crash left. */
    method OpenFile()
      modifies this
      ensures isOpen && Model() == if old(isOpen) then old(Model()) else Open(old(Model()))
    {
      if isOpen { return; }
      isOpen := true;
      rows := map q | q in rows :: if rows[q].state == Inflight then rows[q].(state := Pending) else rows[q];
    }

    method AppendActivity(a: Activity, source: Option<(string, Checkpoint)>, redact: string -> string, now: string)
      returns (seqNo: nat, state: RowState, attempts: nat)
      requires isOpen && Valid(Model())
      modifies this`rows, this`next, this`checkpoints
      ensures Valid(Model()) && Model() == Append(old(Model()), a, source, redact, now)
      ensures seqNo in rows && rows[seqNo].activity.id == a.id && rows[seqNo].state == state
              && rows[seqNo].attempts == attempts
    {
      AppendMeaning(Model(), a, source, redact, now);
      var found := SeqOf(Outbox(rows, next, checkpoints, quarantine), a.id, next);
      if found.None? {
        rows, next := rows[next := Row(Redacted(a, redact), Pending, 0, None, now)], next + 1;
      }
      if source.Some? {
        checkpoints := checkpoints[source.value.0 := source.value.1];
      }
      seqNo := if found.Some? then found.value else next - 1;
      state, attempts := rows[seqNo].state, rows[seqNo].attempts;
    }

    /** Hands out the oldest eligible rows with the attempts they had, marks them in flight, and touches
        no other row. */
    method DrainBatch(batchSize: nat, ready: nat -> bool) returns (records: seq<Record>)
      requires isOpen
      modifies this`rows
      ensures Model() == Drain(old(Model()), batchSize, ready)
      ensures records == RecordsOf(old(Model()), Chosen(old(Model()), batchSize, ready))
      ensures Valid(old(Model())) ==> ClaimsOldest(old(Model()), Model(), records, batchSize, ready)
    {
      ClaimsTheOldest(Model(), batchSize, ready);
      var o := Outbox(rows, next, checkpoints, quarantine);
      var seqs := Chosen(o, batchSize, ready);
      records := RecordsOf(o, seqs);
      rows := Marked(rows, ToSet(seqs), Inflight);
    }

    method AckRows(seqs: set<nat>)
      requires isOpen
      modifies this`rows
      ensures Model() == Ack(old(Model()), seqs)
    {
      if seqs == {} {
        assert Marked(rows, seqs, Acked) == rows;
        return;
      }
      rows := Marked(rows, seqs, Acked);
    }

    method RetryRow(q: nat, readyAt: string)
      requires isOpen
      modifies this`rows
      ensures Model() == RetryLater(old(Model()), q, readyAt)
    {
      if q in rows {
        rows := rows[q := rows[q].(state := Pending, attempts := rows[q].attempts + 1, readyAt := Some(readyAt))];
      }
    }

    method DeadLetterRow(q: nat)
      requires isOpen
      modifies this`rows
      ensures Model() == DeadLetter(old(Model()), q)
    {
      if q in rows { rows := rows[q := rows[q].(state := Dead)]; }
    }

    method RedriveDead(limit: nat) returns (moved: nat)
      requires isOpen
      modifies this`rows
      ensures Model() == Redrive(old(Model()), limit)
      ensures moved == |Oldest(old(Model()), 0, limit, IsDead())|
    {
      var seqs := Oldest(Outbox(rows, next, checkpoints, quarantine), 0, limit, IsDead());
      moved := |seqs|;
      rows := map q | q in rows :: if q in ToSet(seqs) then rows[q].(state := Pending, readyAt := None) else rows[q];
    }

    method QuarantineRaw(entry: Quarantined)
      requires isOpen
      modifies this`quarantine
      ensures Model() == Quarantine(old(Model()), entry) && quarantine == old(quarantine) + [entry]
    {
      quarantine := quarantine + [entry];
    }

    method LoadCheckpoint(source: string) returns (point: Option<Checkpoint>)
      requires isOpen
      ensures point == if source in checkpoints then Some(checkpoints[source]) else None
    {
      point := if source in checkpoints then Some(checkpoints[source]) else None;
    }

    method PurgeAckedBefore(expired: nat -> bool) returns (removed: nat)
      requires isOpen
      modifies this`rows
      ensures Model() == PurgeAcked(old(Model()), expired)
      ensures removed == |old(rows).Keys - rows.Keys|
    {
      var kept := map q | q in rows && !(rows[q].state == Acked && expired(q)) :: rows[q];
      removed := |rows.Keys - kept.Keys|;
      rows := kept;
    }

    method DeleteByContentHash(hash: string) returns (removed: nat)
      requires isOpen
      modifies this`rows
      ensures Model() == DeleteByHash(old(Model()), hash)
      ensures removed == |old(rows).Keys - rows.Keys|
    {
      var kept := map q | q in rows && !(rows[q].activity.contentHash == Some(hash)
                                         && (rows[q].state == Acked || rows[q].state == Dead)) :: rows[q];
      removed := |rows.Keys - kept.Keys|;
      rows := kept;
    }
  }

  /** From `o` to `t`, `records` are the oldest eligible rows, now in flight, and nothing else changed. */
  ghost predicate ClaimsOldest(o: Outbox, t: Outbox, records: seq<Record>, batchSize: nat, ready: nat -> bool) {
    && t == o.(rows := t.rows) && t.rows.Keys == o.rows.Keys && |records| <= batchSize
    && (forall i, j :: 0 <= i < j < |records| ==> records[i].seqNo < records[j].seqNo)
    && (forall r :: r in records ==> Claims(o, t, r, ready))
    && (forall q :: q in o.rows && (forall r :: r in records ==> r.seqNo != q) ==>
          && t.rows[q] == o.rows[q]
          && (o.rows[q].state == Pending && ready(q) ==> |records| == batchSize && forall r :: r in records ==>
              r.seqNo < q))
  }

  predicate Claims(o: Outbox, t: Outbox, r: Record, ready: nat -> bool) {
    && r.seqNo in o.rows && o.rows[r.seqNo].state == Pending && ready(r.seqNo)
    && r == Record(r.seqNo, o.rows[r.seqNo].activity, o.rows[r.seqNo].attempts)
    && Owns(t, r)
  }

  lemma ClaimsTheOldest(o: Outbox, batchSize: nat, ready: nat -> bool)
    ensures Valid(o) ==>
              ClaimsOldest(o, Drain(o, batchSize, ready), RecordsOf(o, Chosen(o, batchSize, ready)), batchSize, ready)
  {
    hide Chosen, Valid;
    if Valid(o) {
      var t, seqs := Drain(o, batchSize, ready), Chosen(o, batchSize, ready);
      var records := RecordsOf(o, seqs);
      DrainMeaning(o, batchSize, ready);
      ChosenFit(o, batchSize, ready);
      forall r | r in records
        ensures Claims(o, t, r, ready) && r.seqNo in seqs
      {
        var i :| 0 <= i < |records| && records[i] == r;
        assert seqs[i] in seqs;
      }
      forall q | q in seqs
        ensures exists r :: r in records && r.seqNo == q
      {
        var i :| 0 <= i < |seqs| && seqs[i] == q;
        assert records[i] in records;
      }
    }
  }

  lemma ChosenFit(o: Outbox, batchSize: nat, ready: nat -> bool)
    ensures |Chosen(o, batchSize, ready)| <= batchSize
  {
    OldestMeaning(o, 0, batchSize, Ready(ready));
  }

  // ---------------------------------------------------------------- one pass of a worker

  datatype Tick = Tick(drained: nat, acked: nat, skipped: nat, retried: nat, dead: nat)

  /** The world during one pass: which rows are past their backoff, what each ingest comes to, and
      the backoff each retry is given. */
  datatype Weather = Weather(ready: nat -> bool, outcome: nat -> Outcome, backoff: nat -> string)

  function SettleFrom(o: Outbox, records: seq<Record>, i: nat, max: nat, w: Weather): Outbox
    requires i <= |records|
    decreases |records| - i
  {
    if i == |records| then o
    else SettleFrom(Settled(o, records[i], w.outcome(i), max, w.backoff(i)), records, i + 1, max, w)
  }

  function Counted(t: Tick, r: Record, outcome: Outcome, max: nat): Tick {
    match outcome
    case Stored => t.(acked := t.acked + 1)
    case Skipped => t.(skipped := t.skipped + 1)
    case Failed => if r.attempts + 1 >= max then t.(dead := t.dead + 1) else t.(retried := t.retried + 1)
  }

  function CountFrom(t: Tick, records: seq<Record>, i: nat, max: nat, w: Weather): Tick
    requires i <= |records|
    decreases |records| - i
  {
    if i == |records| then t else CountFrom(Counted(t, records[i], w.outcome(i), max), records, i + 1, max, w)
  }

  function BatchOf(o: Outbox, batchSize: nat, w: Weather): seq<Record> {
    RecordsOf(o, Chosen(o, batchSize, w.ready))
  }

  function RanOnce(o: Outbox, batchSize: nat, max: nat, w: Weather): Outbox {
    SettleFrom(Drain(o, batchSize, w.ready), BatchOf(o, batchSize, w), 0, max, w)
  }

  function TickOf(o: Outbox, batchSize: nat, max: nat, w: Weather): Tick {
    CountFrom(Tick(|BatchOf(o, batchSize, w)|, 0, 0, 0, 0), BatchOf(o, batchSize, w), 0, max, w)
  }

  method RunOnce(box: SqliteOutbox, batchSize: nat, max: nat, w: Weather) returns (tick: Tick)
    requires box.isOpen
    modifies box`rows
    ensures box.Model() == RanOnce(old(box.Model()), batchSize, max, w)
    ensures tick == TickOf(old(box.Model()), batchSize, max, w)
  {
    hide Drain, Chosen, RecordsOf, Ack, RetryLater, DeadLetter;
    var records := box.DrainBatch(batchSize, w.ready);
    tick := Tick(|records|, 0, 0, 0, 0);
    for i := 0 to |records|
      invariant SettleFrom(box.Model(), records, i, max, w) == RanOnce(old(box.Model()), batchSize, max, w)
      invariant CountFrom(tick, records, i, max, w) == TickOf(old(box.Model()), batchSize, max, w)
    {
      var r := records[i];
      match w.outcome(i) {
        case Stored =>
          box.AckRows({r.seqNo});
          tick := tick.(acked := tick.acked + 1);
        case Skipped =>
          box.AckRows({r.seqNo});
          tick := tick.(skipped := tick.skipped + 1);
        case Failed =>
          if r.attempts + 1 >= max {
            box.DeadLetterRow(r.seqNo);
            tick := tick.(dead := tick.dead + 1);
          } else {
            box.RetryRow(r.seqNo, w.backoff(i));
            tick := tick.(retried := tick.retried + 1);
          }
      }
    }
  }

  // ---------------------------------------------------------------- sums over the table

  /** The sum of `f` over the rows numbered below `n`. */
  function Sum(o: Outbox, n: nat, f: Row -> nat): nat {
    if n == 0 then 0 else Sum(o, n - 1, f) + (if n - 1 in o.rows then f(o.rows[n - 1]) else 0)
  }

  lemma SumSame(o: Outbox, t: Outbox, n: nat, f: Row -> nat)
    requires forall q :: q < n ==> (q in o.rows <==> q in t.rows) && (q in o.rows ==> f(t.rows[q]) == f(o.rows[q]))
    ensures Sum(t, n, f) == Sum(o, n, f)
  {}

  lemma SumOneRow(o: Outbox, t: Outbox, n: nat, f: Row -> nat, q: nat)
    requires q < n && OnlyRow(o, t, q)
    ensures Sum(t, n, f) + f(o.rows[q]) == Sum(o, n, f) + f(t.rows[q])
  {
    if q == n - 1 { SumSame(o, t, n - 1, f); } else { SumOneRow(o, t, n - 1, f, q); }
  }

  /** The attempts a row has left before it is acked or dead. */
  function Left(max: nat): Row -> nat {
    (row: Row) => if row.state == Acked || row.state == Dead
        || row.attempts >= Max(max, 1) then 0 else Max(max, 1) - row.attempts
  }

  function In(state: RowState): Row -> nat {
    (row: Row) => if row.state == state then 1 else 0
  }

  function Tries(): Row -> nat {
    (row: Row) => row.attempts
  }

  /** Attempts left over the whole table. */
  function Work(o: Outbox, max: nat): nat {
    Sum(o, o.next, Left(max))
  }

  // ---------------------------------------------------------------- what one pass does

  /** Every record still to settle is owned, and no two are the same row. */
  ghost predicate Owned(o: Outbox, records: seq<Record>, i: nat, max: nat) {
    && Valid(o)
    && (forall k :: i <= k < |records| ==> Owns(o, records[k]) && records[k].attempts < Max(max, 1))
    && (forall j, k :: 0 <= j < k < |records| ==> records[j].seqNo != records[k].seqNo)
  }

  lemma SettleOne(o: Outbox, r: Record, outcome: Outcome, max: nat, at: string)
    requires Valid(o) && Owns(o, r) && r.attempts < Max(max, 1)
    ensures var t := Settled(o, r, outcome, max, at);
            && Valid(t) && OnlyRow(o, t, r.seqNo)
            && Work(t, max) < Work(o, max)
            && Sum(t, o.next, In(Acked)) == Sum(o, o.next, In(Acked)) + (if outcome != Failed then 1 else 0)
            && Sum(t, o.next, In(Dead))
               == Sum(o, o.next, In(Dead)) + (if outcome == Failed && r.attempts + 1 >= max then 1 else 0)
            && Sum(t, o.next, Tries())
               == Sum(o, o.next, Tries()) + (if outcome == Failed && r.attempts + 1 < max then 1 else 0)
  {
    hide Sum, Valid;
    var t := Settled(o, r, outcome, max, at);
    SettleTouchesOneRow(o, r, outcome, max, at);
    SumOneRow(o, t, o.next, Left(max), r.seqNo);
    SumOneRow(o, t, o.next, In(Acked), r.seqNo);
    SumOneRow(o, t, o.next, In(Dead), r.seqNo);
    SumOneRow(o, t, o.next, Tries(), r.seqNo);
  }

  /** `t` differs from `o` in row `q` at most. */
  ghost predicate OnlyRow(o: Outbox, t: Outbox, q: nat) {
    && t.next == o.next && t.rows.Keys == o.rows.Keys && q in o.rows && q < o.next
    && forall p :: p in o.rows && p != q ==> t.rows[p] == o.rows[p]
  }

  lemma SettleTouchesOneRow(o: Outbox, r: Record, outcome: Outcome, max: nat, at: string)
    requires Valid(o) && Owns(o, r)
    ensures var t := Settled(o, r, outcome, max, at);
            && Valid(t) && OnlyRow(o, t, r.seqNo)
            && t.rows[r.seqNo].state
               == (if outcome != Failed then Acked else if r.attempts + 1 >= max then Dead else Pending)
            && t.rows[r.seqNo].attempts == r.attempts + (if outcome == Failed && r.attempts + 1 < max then 1 else 0)
  {}

  /** What a tick says is what the table shows: as many acked rows, dead rows and retries more. */
  ghost predicate Balances(o: Outbox, t: Outbox, before: Tick, after: Tick) {
    && Sum(t, o.next, In(Acked)) + before.acked + before.skipped
       == Sum(o, o.next, In(Acked)) + after.acked + after.skipped
    && Sum(t, o.next, In(Dead)) + before.dead == Sum(o, o.next, In(Dead)) + after.dead
    && Sum(t, o.next, Tries()) + before.retried == Sum(o, o.next, Tries()) + after.retried
  }

  lemma {:induction false} SettleFromMeaning(o: Outbox, records: seq<Record>, i: nat, max: nat, w: Weather, tick: Tick)
    requires i <= |records| && Owned(o, records, i, max)
    ensures var t, after := SettleFrom(o, records, i, max, w), CountFrom(tick, records, i, max, w);
            && Valid(t) && t.next == o.next && t.rows.Keys == o.rows.Keys
            && Work(t, max) + (|records| - i) <= Work(o, max)
            && Balances(o, t, tick, after)
            && after.drained == tick.drained
            && after.acked + after.skipped + after.retried + after.dead
               == tick.acked + tick.skipped + tick.retried + tick.dead + (|records| - i)
    decreases |records| - i
  {
    hide Work, In, Tries, Settled, Valid, Sum, Owns;
    if i < |records| {
      SettleOne(o, records[i], w.outcome(i), max, w.backoff(i));
      var next := Settled(o, records[i], w.outcome(i), max, w.backoff(i));
      StillOwned(o, next, records, i, max);
      SettleFromMeaning(next, records, i + 1, max, w, Counted(tick, records[i], w.outcome(i), max));
    }
  }

  /** How many of `lo..hi` have the property. */
  function Number(lo: nat, hi: nat, p: nat -> bool): nat
    requires lo <= hi
    decreases hi - lo
  {
    if lo == hi then 0 else (if p(lo) then 1 else 0) + Number(lo + 1, hi, p)
  }

  /** The row of a record once its ingest came to `outcome`: acked, pending again with one attempt more and
      its backoff, or dead once its attempts are used up. */
  function After(row: Row, outcome: Outcome, max: nat, backoff: string): Row {
    match outcome
    case Stored => row.(state := Acked)
    case Skipped => row.(state := Acked)
    case Failed =>
      if row.attempts + 1 < max then row.(state := Pending, attempts := row.attempts + 1, readyAt := Some(backoff))
      else row.(state := Dead)
  }

  lemma SettledRowIs(o: Outbox, r: Record, outcome: Outcome, max: nat, at: string)
    requires Owns(o, r)
    ensures Settled(o, r, outcome, max, at).rows[r.seqNo] == After(o.rows[r.seqNo], outcome, max, at)
  {}

  /** Each record's row is settled by the outcome of its own ingest, and no other row changes. */
  lemma {:induction false} EachRecordIsSettled(o: Outbox, records: seq<Record>, i: nat, max: nat, w: Weather)
    requires i <= |records| && Owned(o, records, i, max)
    ensures var t := SettleFrom(o, records, i, max, w);
            && t.rows.Keys == o.rows.Keys
            && (forall k :: i <= k < |records| ==>
                  var q := records[k].seqNo;
                  q in o.rows && t.rows[q] == After(o.rows[q], w.outcome(k), max, w.backoff(k)))
            && (forall q :: q in o.rows && (forall k :: i <= k < |records| ==> records[k].seqNo != q) ==>
                t.rows[q] == o.rows[q])
    decreases |records| - i
  {
    hide Work, In, Tries, Settled, Valid, Sum, After;
    if i < |records| {
      SettleOne(o, records[i], w.outcome(i), max, w.backoff(i));
      SettledRowIs(o, records[i], w.outcome(i), max, w.backoff(i));
      var next := Settled(o, records[i], w.outcome(i), max, w.backoff(i));
      StillOwned(o, next, records, i, max);
      EachRecordIsSettled(next, records, i + 1, max, w);
    }
  }

  /** The counts say how many ingests came to what. */
  lemma {:induction false} CountsAreOfTheOutcomes(tick: Tick, records: seq<Record>, i: nat, max: nat, w: Weather)
    requires i <= |records|
    ensures var after, n := CountFrom(tick, records, i, max, w), |records|;
            && after.drained == tick.drained
            && after.acked == tick.acked + Number(i, n, (k: nat) => w.outcome(k) == Stored)
            && after.skipped == tick.skipped + Number(i, n, (k: nat) => w.outcome(k) == Skipped)
            && after.retried + after.dead == tick.retried + tick.dead + Number(i, n, (k: nat) => w.outcome(k) == Failed)
    decreases |records| - i
  {
    if i < |records| {
      CountsAreOfTheOutcomes(Counted(tick, records[i], w.outcome(i), max), records, i + 1, max, w);
    }
  }

  lemma StillOwned(o: Outbox, t: Outbox, records: seq<Record>, i: nat, max: nat)
    requires i < |records| && Owned(o, records, i, max) && Valid(t)
    requires OnlyRow(o, t, records[i].seqNo)
    ensures Owned(t, records, i + 1, max)
  {
    forall k | i + 1 <= k < |records|
      ensures Owns(t, records[k])
    {
      assert Owns(o, records[k]);
    }
  }

  /** Every row still has an attempt left unless it is acked or dead. */
  ghost predicate Bounded(o: Outbox, max: nat) {
    forall q :: q in o.rows ==> o.rows[q].attempts < Max(max, 1)
  }

  lemma DrainedIsOwned(o: Outbox, batchSize: nat, max: nat, w: Weather)
    requires Valid(o) && Bounded(o, max)
    ensures var d := Drain(o, batchSize, w.ready);
            && Owned(d, BatchOf(o, batchSize, w), 0, max) && d.next == o.next && d.rows.Keys == o.rows.Keys
            && forall q :: q in o.rows ==> OnlyClaimed(o.rows[q], d.rows[q])
  {
    hide Chosen;
    var d, seqs := Drain(o, batchSize, w.ready), Chosen(o, batchSize, w.ready);
    DrainMeaning(o, batchSize, w.ready);
    forall q | q in o.rows
      ensures OnlyClaimed(o.rows[q], d.rows[q])
    {
      assert q in seqs || q !in seqs;
    }
    forall k | 0 <= k < |seqs|
      ensures Owns(d, BatchOf(o, batchSize, w)[k])
    {
      assert seqs[k] in seqs;
    }
  }

  predicate OnlyClaimed(row: Row, claimed: Row) {
    claimed == row || (row.state == Pending && claimed == row.(state := Inflight))
  }

  lemma ClaimingChangesNoSum(o: Outbox, d: Outbox, max: nat)
    requires d.next == o.next && d.rows.Keys == o.rows.Keys && forall q :: q in o.rows ==>
             OnlyClaimed(o.rows[q], d.rows[q])
    ensures Work(d, max) == Work(o, max) && Sum(d, o.next, In(Acked)) == Sum(o, o.next, In(Acked))
    ensures Sum(d, o.next, In(Dead)) == Sum(o, o.next, In(Dead)) && Sum(d, o.next, Tries()) == Sum(o, o.next, Tries())
  {
    hide Sum;
    SumSame(o, d, o.next, Left(max));
    SumSame(o, d, o.next, In(Acked));
    SumSame(o, d, o.next, In(Dead));
    SumSame(o, d, o.next, Tries());
  }

  /** One pass: the tick adds up and agrees with the table, and every drained record used up at least
      one of the attempts left. */
  lemma OnePass(o: Outbox, batchSize: nat, max: nat, w: Weather)
    requires Valid(o) && Bounded(o, max)
    ensures var t, tick := RanOnce(o, batchSize, max, w), TickOf(o, batchSize, max, w);
            && Valid(t) && Bounded(t, max) && t.next == o.next && t.rows.Keys == o.rows.Keys
            && Work(t, max) + tick.drained <= Work(o, max)
            && tick.drained == tick.acked + tick.skipped + tick.retried + tick.dead
            && Balances(o, t, Tick(0, 0, 0, 0, 0), tick)
            && (tick.drained == 0 ==> t == o && Chosen(o, batchSize, w.ready) == [])
  {
    hide Work, Sum, In, Tries, Drain, Chosen, RecordsOf, SettleFrom, CountFrom, Owned, Settled;
    var records := BatchOf(o, batchSize, w);
    DrainedIsOwned(o, batchSize, max, w);
    ClaimingChangesNoSum(o, Drain(o, batchSize, w.ready), max);
    SettleFromMeaning(Drain(o, batchSize, w.ready), records, 0, max, w, Tick(|records|, 0, 0, 0, 0));
    SettleFromBounded(Drain(o, batchSize, w.ready), records, 0, max, w);
    NothingDrained(o, batchSize, max, w);
  }

  /** From `o` to `t` the rows `seqs` are each settled by the outcome of their own ingest, and no other row changes. */
  ghost predicate SettlesItsRows(o: Outbox, t: Outbox, seqs: seq<nat>, max: nat, w: Weather) {
    && t.rows.Keys == o.rows.Keys
    && (forall k :: 0 <= k < |seqs| ==>
          && seqs[k] in o.rows
          && t.rows[seqs[k]] == After(o.rows[seqs[k]], w.outcome(k), max, w.backoff(k)))
    && (forall q :: q in o.rows && q !in seqs ==> t.rows[q] == o.rows[q])
  }

  /** `tick` is the number of ingests of `n` that came to each outcome. */
  ghost predicate CountsOutcomes(tick: Tick, n: nat, w: Weather) {
    && tick.drained == n
    && tick.acked == Number(0, n, (k: nat) => w.outcome(k) == Stored)
    && tick.skipped == Number(0, n, (k: nat) => w.outcome(k) == Skipped)
    && tick.retried + tick.dead == Number(0, n, (k: nat) => w.outcome(k) == Failed)
  }

  /** One pass record by record: the rows it claimed are each settled by the outcome of their own ingest, no
      other row changes, and the tick counts the outcomes. */
  lemma PassSettlesEachRecord(o: Outbox, batchSize: nat, max: nat, w: Weather)
    requires Valid(o) && Bounded(o, max)
    ensures SettlesItsRows(o, RanOnce(o, batchSize, max, w), Chosen(o, batchSize, w.ready), max, w)
    ensures CountsOutcomes(TickOf(o, batchSize, max, w), |Chosen(o, batchSize, w.ready)|, w)
  {
    hide Drain, Chosen, SettleFrom, CountFrom, Owned, Valid, Bounded, SettlesItsRows, Number, After;
    var records, d := BatchOf(o, batchSize, w), Drain(o, batchSize, w.ready);
    DrainedIsOwned(o, batchSize, max, w);
    EachRecordIsSettled(d, records, 0, max, w);
    CountsAreOfTheOutcomes(Tick(|records|, 0, 0, 0, 0), records, 0, max, w);
    ClaimsAreSettled(o, SettleFrom(d, records, 0, max, w), batchSize, max, w);
  }

  /** Settling the claimed rows settles the rows as they were before the claim. */
  lemma ClaimsAreSettled(o: Outbox, t: Outbox, batchSize: nat, max: nat, w: Weather)
    requires Valid(o)
    requires var d, records := Drain(o, batchSize, w.ready), BatchOf(o, batchSize, w);
             && t.rows.Keys == d.rows.Keys
             && (forall k :: 0 <= k < |records| ==>
                   var q := records[k].seqNo;
                   q in d.rows && t.rows[q] == After(d.rows[q], w.outcome(k), max, w.backoff(k)))
             && (forall q :: q in d.rows && (forall k :: 0 <= k < |records| ==> records[k].seqNo != q) ==>
                   t.rows[q] == d.rows[q])
    ensures SettlesItsRows(o, t, Chosen(o, batchSize, w.ready), max, w)
  {
    hide Chosen, Valid, After, Drain;
    var d, records, seqs := Drain(o, batchSize, w.ready), BatchOf(o, batchSize, w), Chosen(o, batchSize, w.ready);
    DrainMeaning(o, batchSize, w.ready);
    forall k | 0 <= k < |seqs|
      ensures seqs[k] in o.rows && t.rows[seqs[k]] == After(o.rows[seqs[k]], w.outcome(k), max, w.backoff(k))
    {
      assert records[k].seqNo == seqs[k] && seqs[k] in seqs;
      ClaimIsOverwritten(o.rows[seqs[k]], w.outcome(k), max, w.backoff(k));
    }
    forall q | q in o.rows && q !in seqs
      ensures t.rows[q] == o.rows[q]
    {
      assert forall k :: 0 <= k < |records| ==> records[k].seqNo == seqs[k] && seqs[k] in seqs;
    }
  }

  lemma ClaimIsOverwritten(row: Row, outcome: Outcome, max: nat, backoff: string)
    ensures After(row.(state := Inflight), outcome, max, backoff) == After(row, outcome, max, backoff)
  {}

  lemma NothingDrained(o: Outbox, batchSize: nat, max: nat, w: Weather)
    requires Valid(o)
    ensures Chosen(o, batchSize, w.ready) == [] ==> RanOnce(o, batchSize, max, w) == o
  {
    hide Chosen;
    if Chosen(o, batchSize, w.ready) == [] {
      assert Drain(o, batchSize, w.ready).rows == o.rows;
    }
  }

  lemma {:induction false} SettleFromBounded(o: Outbox, records: seq<Record>, i: nat, max: nat, w: Weather)
    requires i <= |records| && Owned(o, records, i, max)
    ensures Bounded(o, max) ==> Bounded(SettleFrom(o, records, i, max, w), max)
    decreases |records| - i
  {
    hide Work, In, Tries, Valid;
    if i < |records| {
      SettleOne(o, records[i], w.outcome(i), max, w.backoff(i));
      var next := Settled(o, records[i], w.outcome(i), max, w.backoff(i));
      StillOwned(o, next, records, i, max);
      SettleFromBounded(next, records, i + 1, max, w);
      assert Owns(o, records[i]);
    }
  }

  // ---------------------------------------------------------------- the ordered shutdown

  function Plus(a: Tick, b: Tick): Tick {
    Tick(a.drained + b.drained, a.acked + b.acked, a.skipped + b.skipped, a.retried + b.retried, a.dead + b.dead)
  }

  /** One of a tick's counts, over the first `n` passes of a shutdown that went through `trail`. */
  ghost function Over(trail: seq<Outbox>, batchSize: nat, max: nat, weather: nat -> Weather, n: nat,
                      count: Tick -> nat): nat
    requires n <= |trail|
  {
    if n == 0 then 0
    else
      var last := TickOf(trail[n - 1], batchSize, max, weather(n - 1));
      Over(trail, batchSize, max, weather, n - 1, count) + count(last)
  }

  lemma {:induction false} OverLonger(trail: seq<Outbox>, o: Outbox, batchSize: nat, max: nat,
                                      weather: nat -> Weather, n: nat,
                                      count: Tick -> nat)
    requires n <= |trail|
    ensures Over(trail + [o], batchSize, max, weather, n, count) == Over(trail, batchSize, max, weather, n, count)
    decreases n
  {
    hide TickOf;
    if n > 0 { OverLonger(trail, o, batchSize, max, weather, n - 1, count); }
  }

  function DrainedOf(): Tick -> nat { (t: Tick) => t.drained }

  function AckedOf(): Tick -> nat { (t: Tick) => t.acked }

  function SkippedOf(): Tick -> nat { (t: Tick) => t.skipped }

  function RetriedOf(): Tick -> nat { (t: Tick) => t.retried }

  function DeadOf(): Tick -> nat { (t: Tick) => t.dead }

  /** Each of the five totals is the sum of that count over the passes. */
  ghost predicate SumsUp(total: Tick, trail: seq<Outbox>, batchSize: nat, max: nat, weather: nat -> Weather, n: nat)
    requires n <= |trail|
  {
    && total.drained == Over(trail, batchSize, max, weather, n, DrainedOf())
    && total.acked == Over(trail, batchSize, max, weather, n, AckedOf())
    && total.skipped == Over(trail, batchSize, max, weather, n, SkippedOf())
    && total.retried == Over(trail, batchSize, max, weather, n, RetriedOf())
    && total.dead == Over(trail, batchSize, max, weather, n, DeadOf())
  }

  lemma SumsUpOnce(total: Tick, trail: seq<Outbox>, o: Outbox, batchSize: nat, max: nat, weather: nat -> Weather,
                   n: nat)
    requires |trail| == n + 1 && SumsUp(total, trail, batchSize, max, weather, n)
    ensures SumsUp(Plus(total, TickOf(trail[n], batchSize, max, weather(n))), trail + [o], batchSize, max, weather,
                   n + 1)
  {
    hide TickOf;
    OverLonger(trail, o, batchSize, max, weather, n, DrainedOf());
    OverLonger(trail, o, batchSize, max, weather, n, AckedOf());
    OverLonger(trail, o, batchSize, max, weather, n, SkippedOf());
    OverLonger(trail, o, batchSize, max, weather, n, RetriedOf());
    OverLonger(trail, o, batchSize, max, weather, n, DeadOf());
  }

  /** `trail` are the tables before, between and after `n` passes. */
  ghost predicate Passes(trail: seq<Outbox>, batchSize: nat, max: nat, weather: nat -> Weather, n: nat) {
    |trail| == n + 1 && forall k: nat :: k < n ==> trail[k + 1] == RanOnce(trail[k], batchSize, max, weather(k))
  }

  /** Drains until a pass finds nothing. It ends whatever the ingests come to and whichever rows are
      held back, drains no more often than attempts were left, and leaves no eligible row; its totals are
      the sums over its passes. */
  method DrainAndStop(box: SqliteOutbox, batchSize: nat, max: nat, weather: nat -> Weather)
    returns (total: Tick, passes: nat, ghost trail: seq<Outbox>)
    requires box.isOpen && Valid(box.Model()) && Bounded(box.Model(), max)
    modifies box`rows
    ensures Valid(box.Model()) && Bounded(box.Model(), max) && box.rows.Keys == old(box.rows).Keys
    ensures total.drained == total.acked + total.skipped + total.retried + total.dead
    ensures Balances(old(box.Model()), box.Model(), Tick(0, 0, 0, 0, 0), total)
    ensures total.drained <= old(Work(box.Model(), max))
    ensures batchSize >= 1 ==> forall q :: q in box.rows && box.rows[q].state == Pending ==> !weather(passes).ready(q)
    ensures Passes(trail, batchSize, max, weather, passes + 1)
    ensures trail[0] == old(box.Model()) && trail[passes + 1] == box.Model()
    ensures SumsUp(total, trail, batchSize, max, weather, passes + 1)
  {
    hide Work, Sum, In, Tries, Valid, Bounded, RanOnce, TickOf, Chosen, SumsUp, Over;
    total, passes := Tick(0, 0, 0, 0, 0), 0;
    trail := [box.Model()];
    NothingSummedYet(trail, batchSize, max, weather);
    while true
      invariant box.isOpen && Valid(box.Model()) && Bounded(box.Model(), max)
      invariant box.rows.Keys == old(box.rows).Keys && box.next == old(box.next)
      invariant total.drained == total.acked + total.skipped + total.retried + total.dead
      invariant Balances(old(box.Model()), box.Model(), Tick(0, 0, 0, 0, 0), total)
      invariant total.drained + Work(box.Model(), max) <= old(Work(box.Model(), max))
      invariant Passes(trail, batchSize, max, weather, passes)
      invariant trail[0] == old(box.Model()) && trail[passes] == box.Model()
      invariant SumsUp(total, trail, batchSize, max, weather, passes)
      decreases Work(box.Model(), max)
    {
      OnePass(box.Model(), batchSize, max, weather(passes));
      ghost var before := box.Model();
      var tick := RunOnce(box, batchSize, max, weather(passes));
      SumsUpOnce(total, trail, box.Model(), batchSize, max, weather, passes);
      total := Plus(total, tick);
      trail := trail + [box.Model()];
      if tick.drained == 0 {
        NothingEligible(before, batchSize, weather(passes).ready);
        return;
      }
      passes := passes + 1;
    }
  }

  lemma NothingSummedYet(trail: seq<Outbox>, batchSize: nat, max: nat, weather: nat -> Weather)
    ensures SumsUp(Tick(0, 0, 0, 0, 0), trail, batchSize, max, weather, 0)
  {}

  lemma NothingEligible(o: Outbox, batchSize: nat, ready: nat -> bool)
    requires Valid(o) && Chosen(o, batchSize, ready) == []
    ensures batchSize >= 1 ==> forall q :: q in o.rows && o.rows[q].state == Pending ==> !ready(q)
  {
    hide Chosen;
    DrainMeaning(o, batchSize, ready);
  }
}
