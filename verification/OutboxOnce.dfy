/**
 At most once: how often one activity is ingested. The table alone does not rule out a second time; what
 does is that a delivered id keeps an acked row, or a worker that is about to ack it.
 */
module OutboxOnce {
  import opened Sequences
  import opened Outbox
  import opened OutboxWorkers

  /** The delivery of `id` is written down, or a live worker is about to. */
  ghost predicate Done(w: World, id: string) {
    || (exists q :: q in w.o.rows && w.o.rows[q].state == Acked && w.o.rows[q].activity.id == id)
    || id in UnsettledIds(w.batches)
  }

  /** No other process opened the outbox over `id`, and its delivery was neither lost nor forgotten. */
  predicate Sheltered(w: World, id: string) {
    id !in w.shared && id !in w.exposed
  }

  ghost predicate OnceFor(w: World, id: string) {
    Sheltered(w, id) && id in w.delivered ==> w.delivered[id] == 1 && Done(w, id)
  }

  ghost predicate OnceInv(w: World) {
    (forall id :: id in w.exposed ==> id in w.delivered) && forall id :: OnceFor(w, id)
  }

  // ---------------------------------------------------------------- what every step keeps

  /** A delivered row and a worker about to ack stay, except where the step exposes the id. */
  lemma DoneLater(w: World, t: World, id: string)
    requires Done(w, id)
    requires forall q :: q in w.o.rows && w.o.rows[q].state == Acked && w.o.rows[q].activity.id == id ==>
                           q in t.o.rows && t.o.rows[q] == w.o.rows[q]
    requires forall v :: v in w.batches && Unsettled(w.batches[v]) && w.batches[v].records[0].activity.id == id ==>
                           (v in t.batches && t.batches[v] == w.batches[v]) || Done(t, id)
    ensures Done(t, id)
  {
    if id in UnsettledIds(w.batches) {
      var v :| v in w.batches && Unsettled(w.batches[v]) && w.batches[v].records[0].activity.id == id;
      if v in t.batches && t.batches[v] == w.batches[v] { assert id in UnsettledIds(t.batches); }
    } else {
      var q :| q in w.o.rows && w.o.rows[q].state == Acked && w.o.rows[q].activity.id == id;
      assert q in t.o.rows && t.o.rows[q] == w.o.rows[q];
    }
  }

  /** A worker that has not ingested its head yet holds nothing that was delivered before. */
  lemma HeadIsNew(w: World, max: nat, worker: nat)
    requires Inv(w, max) && OnceInv(w) && Enabled(w, Ingests(worker, Stored))
    requires Sheltered(w, w.batches[worker].records[0].activity.id)
    ensures w.batches[worker].records[0].activity.id !in w.delivered
  {
    hide TableInv, BatchInv, Exclusive, NothingDropped;
    var id := w.batches[worker].records[0].activity.id;
    if id in w.delivered {
      assert OnceFor(w, id);
      HeadIsNotDone(w, max, worker);
    }
  }

  lemma HeadIsNotDone(w: World, max: nat, worker: nat)
    requires Inv(w, max) && Enabled(w, Ingests(worker, Stored))
             && Sheltered(w, w.batches[worker].records[0].activity.id)
    ensures !Done(w, w.batches[worker].records[0].activity.id)
  {
    hide TableInv, BatchInv, Exclusive, NothingDropped, Holds;
    var r := w.batches[worker].records[0];
    OneHolder(w, worker, worker, 0, 0);
    IdsAreUnique(w, max);
    forall v | v in w.batches && Unsettled(w.batches[v])
      ensures w.batches[v].records[0].activity.id != r.activity.id
    {
      OneHolder(w, worker, v, 0, 0);
      if w.batches[v].records[0].activity.id == r.activity.id { OneHolder(w, v, v, 0, 0); }
    }
  }

  lemma IdsAreUnique(w: World, max: nat)
    requires Inv(w, max)
    ensures forall p, q :: p in w.o.rows && q in w.o.rows && w.o.rows[p].activity.id == w.o.rows[q].activity.id ==>
            p == q
  {
    hide BatchInv, Exclusive, NothingDropped, RowInv;
  }

  /** The row of a sheltered record is not acked while a worker holds it. */
  lemma HeldIsNotAcked(w: World, max: nat, worker: nat, q: nat)
    requires Inv(w, max) && worker in w.batches && w.batches[worker].records != []
    requires q in w.o.rows && w.o.rows[q].state == Acked && w.o.rows[q].activity.id !in w.shared
    ensures w.batches[worker].records[0].seqNo != q
  {
    hide TableInv, Exclusive, NothingDropped;
    var b := w.batches[worker];
    assert BatchInv(w.o, b, w.delivered, w.shared);
    assert Sound(w.o, b.records[0], w.shared);
  }

  lemma IngestKeepsOnce(w: World, e: Event, max: nat)
    requires Inv(w, max) && OnceInv(w) && e.Ingests? && Enabled(w, e)
    ensures OnceInv(Step(w, e, max))
  {
    hide Inv, Done;
    var t := Step(w, e, max);
    var b := w.batches[e.worker];
    var head := b.records[0].activity.id;
    if Sheltered(w, head) { HeadIsNew(w, max, e.worker); }
    forall id
      ensures OnceFor(t, id)
    {
      assert OnceFor(w, id);
      if e.outcome != Failed && id == head {
        NowUnsettled(t, e.worker);
      } else if Sheltered(w, id) && id in w.delivered {
        DoneStays(w, t, e.worker, id);
      }
    }
  }

  lemma NowUnsettled(t: World, worker: nat)
    requires worker in t.batches && Unsettled(t.batches[worker])
    ensures Done(t, t.batches[worker].records[0].activity.id)
  {}

  /** The worker at work was not about to ack, and the rest of the world stands still. */
  lemma DoneStays(w: World, t: World, worker: nat, id: string)
    requires Done(w, id) && (worker in w.batches ==> !Unsettled(w.batches[worker]))
    requires forall q :: q in w.o.rows && w.o.rows[q].state == Acked && w.o.rows[q].activity.id == id ==>
                           q in t.o.rows && t.o.rows[q] == w.o.rows[q]
    requires forall v :: v in w.batches && v != worker ==> v in t.batches && t.batches[v] == w.batches[v]
    ensures Done(t, id)
  {
    DoneLater(w, t, id);
  }

  lemma SettleKeepsOnce(w: World, e: Event, max: nat)
    requires Inv(w, max) && OnceInv(w) && e.Settles? && Enabled(w, e)
    ensures OnceInv(Step(w, e, max))
  {
    hide Inv, Done, Settled;
    var t := Step(w, e, max);
    forall id
      ensures OnceFor(t, id)
    {
      assert OnceFor(w, id);
      if Sheltered(w, id) && id in w.delivered { SettledStaysDone(w, e, max, id); }
    }
  }

  lemma SettledStaysDone(w: World, e: Event, max: nat, id: string)
    requires Inv(w, max) && e.Settles? && Enabled(w, e) && Sheltered(w, id) && Done(w, id)
    ensures Done(Step(w, e, max), id)
  {
    hide Inv, Done, Settled;
    var t, b := Step(w, e, max), w.batches[e.worker];
    forall q | q in w.o.rows && w.o.rows[q].state == Acked && w.o.rows[q].activity.id == id
      ensures q in t.o.rows && t.o.rows[q] == w.o.rows[q]
    {
      HeldIsNotAcked(w, max, e.worker, q);
      SettledElsewhere(w.o, b.records[0], b.result.value, max, e.readyAt, q);
    }
    if Unsettled(b) && b.records[0].activity.id == id { AckedIsDone(w, e, max); }
    DoneLater(w, t, id);
  }

  lemma SettledElsewhere(o: Outbox, r: Record, outcome: Outcome, max: nat, at: string, q: nat)
    requires q in o.rows && q != r.seqNo
    ensures var t := Settled(o, r, outcome, max, at); q in t.rows && t.rows[q] == o.rows[q]
  {}

  /** The worker writes the delivery down: its row is there and becomes acked. */
  lemma AckedIsDone(w: World, e: Event, max: nat)
    requires Inv(w, max) && e.Settles? && Enabled(w, e) && Unsettled(w.batches[e.worker])
    requires w.batches[e.worker].records[0].activity.id !in w.shared
    ensures Done(Step(w, e, max), w.batches[e.worker].records[0].activity.id)
  {
    hide TableInv, Exclusive, NothingDropped;
    var r := w.batches[e.worker].records[0];
    assert BatchInv(w.o, w.batches[e.worker], w.delivered, w.shared);
    assert Sound(w.o, r, w.shared);
    assert Step(w, e, max).o.rows[r.seqNo].state == Acked;
  }

  /** Appending, draining and redriving leave acked rows and unsettled workers alone. */
  lemma QuietKeepsOnce(w: World, e: Event, max: nat)
    requires Inv(w, max) && OnceInv(w) && Enabled(w, e)
    requires e.Appends? || e.Drains? || e.Redrives? || e.Reopens?
    ensures OnceInv(Step(w, e, max))
  {
    hide Inv, Done, Append, Drain, Redrive, Open, RecordsOf, Chosen, HeldIds;
    var t := Step(w, e, max);
    AckedStays(w, e, max);
    forall id
      ensures OnceFor(t, id)
    {
      assert OnceFor(w, id);
      if Sheltered(t, id) && id in w.delivered { DoneLater(w, t, id); }
    }
  }

  lemma AckedStays(w: World, e: Event, max: nat)
    requires Inv(w, max) && Enabled(w, e)
    requires e.Appends? || e.Drains? || e.Redrives? || e.Reopens?
    ensures var t := Step(w, e, max);
    forall q :: q in w.o.rows && w.o.rows[q].state == Acked ==> q in t.o.rows && t.o.rows[q] == w.o.rows[q]
  {
    hide Append, Drain, Redrive, Redacted, Chosen, BatchInv, Exclusive, NothingDropped, RowInv, HeldIds, RecordsOf,
         Oldest;
    match e
    case Appends(a, source, redact, now) => AppendMeaning(w.o, a, source, redact, now);
    case Drains(_, batchSize, ready) => DrainMeaning(w.o, batchSize, ready);
    case Redrives(limit) => RedriveMeaning(w.o, limit);
    case Reopens =>
  }

  /** Retention, crashes and restarts expose what they undo. */
  lemma LossKeepsOnce(w: World, e: Event, max: nat)
    requires Inv(w, max) && OnceInv(w) && Enabled(w, e)
    requires e.Purges? || e.Deletes? || e.Abandons? || e.Restarts?
    ensures OnceInv(Step(w, e, max))
  {
    hide Inv, Done, DeadWith, UnsettledIds, DroppedIds;
    var t := Step(w, e, max);
    ExposedWereDelivered(w, e, max);
    forall id
      ensures OnceFor(t, id)
    {
      assert OnceFor(w, id);
      if Sheltered(t, id) && id in w.delivered { UnexposedStaysDone(w, e, max, id); }
    }
  }

  lemma ExposedWereDelivered(w: World, e: Event, max: nat)
    requires Inv(w, max) && OnceInv(w) && Enabled(w, e)
    requires e.Purges? || e.Deletes? || e.Abandons? || e.Restarts?
    ensures forall id :: id in Step(w, e, max).exposed ==> id in w.delivered
  {
    hide TableInv, Exclusive, NothingDropped, Sound, PurgeAcked, DeleteByHash, Open, DeadWith, OnceFor;
  }

  lemma UnexposedStaysDone(w: World, e: Event, max: nat, id: string)
    requires Enabled(w, e) && Done(w, id) && id in w.delivered && id !in Step(w, e, max).exposed
    requires e.Purges? || e.Deletes? || e.Abandons? || e.Restarts?
    ensures Done(Step(w, e, max), id)
  {
    hide Done, DeadWith, UnsettledIds;
    var t := Step(w, e, max);
    forall v | v in w.batches && Unsettled(w.batches[v]) && w.batches[v].records[0].activity.id == id
      ensures v in t.batches && t.batches[v] == w.batches[v]
    {
      CutOffIsExposed(w, e, max, v);
    }
    DoneLater(w, t, id);
  }

  lemma CutOffIsExposed(w: World, e: Event, max: nat, v: nat)
    requires Enabled(w, e) && v in w.batches && Unsettled(w.batches[v])
    requires e.Purges? || e.Deletes? || e.Abandons? || e.Restarts?
    ensures var t := Step(w, e, max);
    (v in t.batches && t.batches[v] == w.batches[v]) || w.batches[v].records[0].activity.id in t.exposed
  {
    hide DeadWith, DroppedIds, PurgeAcked, DeleteByHash, Open;
    if e.Abandons? && e.worker == v {
      var cut := map[v := w.batches[v]];
      assert v in cut && Unsettled(cut[v]);
    }
  }

  lemma StepKeepsOnce(w: World, e: Event, max: nat)
    requires Inv(w, max) && OnceInv(w) && Enabled(w, e)
    ensures OnceInv(Step(w, e, max))
  {
    hide Inv, OnceInv, Step, Enabled;
    match e
    case Ingests(_, _) => IngestKeepsOnce(w, e, max);
    case Settles(_, _) => SettleKeepsOnce(w, e, max);
    case Appends(_, _, _, _) => QuietKeepsOnce(w, e, max);
    case Drains(_, _, _) => QuietKeepsOnce(w, e, max);
    case Redrives(_) => QuietKeepsOnce(w, e, max);
    case Reopens => QuietKeepsOnce(w, e, max);
    case Purges(_) => LossKeepsOnce(w, e, max);
    case Deletes(_) => LossKeepsOnce(w, e, max);
    case Abandons(_) => LossKeepsOnce(w, e, max);
    case Restarts => LossKeepsOnce(w, e, max);
  }

  lemma {:induction false} EveryRunKeepsOnce(events: seq<Event>, w: World, max: nat)
    requires Reaches(events, w, max)
    ensures OnceInv(w)
    decreases |events|
  {
    hide Inv, OnceInv, Step, Enabled;
    if events == [] {
      StartIsOnce();
    } else {
      var e := events[|events| - 1];
      var before: World :| Reaches(events[..|events| - 1], before, max) && Enabled(before, e)
          && w == Step(before, e, max);
      EveryRunKeepsOnce(events[..|events| - 1], before, max);
      EveryRunKeepsInv(events[..|events| - 1], before, max);
      StepKeepsOnce(before, e, max);
    }
  }

  lemma StartIsOnce()
    ensures OnceInv(Start())
  {}

  // ---------------------------------------------------------------- main results

  /** The step ingests `id` for good after it was exposed, or after it was delivered by one of the
      workers that share it. */
  predicate DeliversAgain(w: World, e: Event, id: string) {
    && e.Ingests? && Enabled(w, e) && e.outcome != Failed && w.batches[e.worker].records[0].activity.id == id
    && (id in w.exposed || (id in w.shared && id in w.delivered))
  }

  ghost predicate DeliveredAgain(events: seq<Event>, id: string, max: nat) {
    exists n: nat, before: World ::
        n < |events| && Reaches(events[..n], before, max) && DeliversAgain(before, events[n], id)
  }

  /** At most once, over every run, and exactly when not: an activity is ingested for good a second time
      if and only if it was ingested after a worker that had ingested it was cut off before writing that
      down, or after its row was purged or deleted, or while another process's open let two workers
      hold it and one of them had delivered it. */
  lemma {:induction false} AtMostOnceExactly(events: seq<Event>, w: World, max: nat, id: string)
    requires Reaches(events, w, max)
    ensures w.delivered[id] >= 2 <==> DeliveredAgain(events, id, max)
    decreases |events|
  {
    hide Inv, OnceInv, Step, Enabled, DeliversAgain, DeliveredAgain;
    if events == [] {
      NeverDelivered(id, max);
    } else {
      var front, e := events[..|events| - 1], events[|events| - 1];
      var before: World :| Reaches(front, before, max) && Enabled(before, e) && w == Step(before, e, max);
      AtMostOnceExactly(front, before, max, id);
      EveryRunKeepsInv(front, before, max);
      EveryRunKeepsOnce(front, before, max);
      CountAfter(before, e, max, id);
      LastOrBefore(events, before, id, max);
    }
  }

  lemma NeverDelivered(id: string, max: nat)
    ensures !DeliveredAgain([], id, max) && Start().delivered[id] == 0
  {}

  /** A step brings the count of an id past one exactly when it was past it or delivers it again. */
  lemma CountAfter(w: World, e: Event, max: nat, id: string)
    requires Inv(w, max) && OnceInv(w) && Enabled(w, e)
    ensures Step(w, e, max).delivered[id] >= 2 <==> w.delivered[id] >= 2 || DeliversAgain(w, e, id)
  {
    hide Inv, Done;
    if e.Ingests? {
      assert OnceFor(w, id);
      var head := w.batches[e.worker].records[0].activity.id;
      if Sheltered(w, head) { HeadIsNew(w, max, e.worker); }
    }
  }

  /** A run delivers again in its last step or before. */
  lemma LastOrBefore(events: seq<Event>, before: World, id: string, max: nat)
    requires events != [] && Reaches(events[..|events| - 1], before, max)
    ensures DeliveredAgain(events, id, max) <==>
              DeliveredAgain(events[..|events| - 1], id, max) || DeliversAgain(before, events[|events| - 1], id)
  {
    hide DeliversAgain, Reaches;
    var front := events[..|events| - 1];
    if DeliveredAgain(events, id, max) {
      var n: nat, w: World :| n < |events| && Reaches(events[..n], w, max) && DeliversAgain(w, events[n], id);
      if n < |front| {
        assert front[..n] == events[..n] && front[n] == events[n];
      } else {
        RunIsDeterministic(front, before, w, max);
      }
    }
    if DeliveredAgain(front, id, max) {
      var n: nat, w: World :| n < |front| && Reaches(front[..n], w, max) && DeliversAgain(w, front[n], id);
      assert front[..n] == events[..n] && front[n] == events[n];
    }
  }

  predicate Undisturbed(e: Event) {
    !e.Abandons? && !e.Restarts? && !e.Purges? && !e.Deletes? && !e.Reopens?
  }

  /** As long as no worker is cut off, nothing is retired and nobody else opens the outbox, retries and
      redrives included, every activity is ingested for good at most once. */
  lemma {:induction false} UndisturbedRunsDeliverOnce(events: seq<Event>, w: World, max: nat, id: string)
    requires Reaches(events, w, max) && forall e :: e in events ==> Undisturbed(e)
    ensures w.delivered[id] <= 1
  {
    hide Inv, Done;
    NothingExposed(events, w, max);
    EveryRunKeepsOnce(events, w, max);
    assert OnceFor(w, id);
  }

  lemma {:induction false} NothingExposed(events: seq<Event>, w: World, max: nat)
    requires Reaches(events, w, max) && forall e :: e in events ==> Undisturbed(e)
    ensures w.shared == {} && w.exposed == {}
    decreases |events|
  {
    if events != [] {
      var front, e := events[..|events| - 1], events[|events| - 1];
      var before: World :| Reaches(front, before, max) && Enabled(before, e) && w == Step(before, e, max);
      forall x | x in front
        ensures Undisturbed(x)
      {
        assert x in events;
      }
      NothingExposed(front, before, max);
      assert Undisturbed(e);
    }
  }

  function Always(): nat -> bool {
    (q: nat) => true
  }

  function CrashRun(a: Activity, redact: string -> string, now: string): seq<Event> {
    [Appends(a, None, redact, now), Drains(0, 1, Always()), Ingests(0, Stored), Restarts, Drains(0, 1, Always()),
     Ingests(0, Stored)]
  }

  /** A crash between the ingest and the ack delivers any activity twice. */
  lemma CrashDeliversTwice(a: Activity, redact: string -> string, now: string, max: nat)
    ensures exists w: World :: Reaches(CrashRun(a, redact, now), w, max) && w.delivered[a.id] == 2
  {
    hide Reaches, Drain, Chosen, Append, RecordsOf;
    var all := CrashRun(a, redact, now);
    var row := Row(Redacted(a, redact), Pending, 0, None, now);
    FirstRow(a, redact, now);
    StartReaches(max);
    assert all[..0] == [];
    var w := Start();
    RunOn(all, 0, w, max);
    w := Step(w, all[0], max);
    OneRowDrained(w.o, row);
    RunOn(all, 1, w, max);
    w := Step(w, all[1], max);
    RunOn(all, 2, w, max);
    w := Step(w, all[2], max);
    RunOn(all, 3, w, max);
    w := Step(w, all[3], max);
    OneRowDrained(w.o, row);
    RunOn(all, 4, w, max);
    w := Step(w, all[4], max);
    RunOn(all, 5, w, max);
    w := Step(w, all[5], max);
    assert all[..6] == all;
  }

  function SharedRun(a: Activity, redact: string -> string, now: string): seq<Event> {
    [Appends(a, None, redact, now), Drains(0, 1, Always()), Reopens, Drains(1, 1, Always()), Ingests(0, Stored),
     Ingests(1, Stored)]
  }

  /** So does another process's open while a worker holds the row. */
  lemma ForeignOpenDeliversTwice(a: Activity, redact: string -> string, now: string, max: nat)
    ensures exists w: World :: Reaches(SharedRun(a, redact, now), w, max) && w.delivered[a.id] == 2
  {
    hide Reaches, Drain, Chosen, Append, RecordsOf;
    var all := SharedRun(a, redact, now);
    var row := Row(Redacted(a, redact), Pending, 0, None, now);
    FirstRow(a, redact, now);
    StartReaches(max);
    assert all[..0] == [];
    var w := Start();
    RunOn(all, 0, w, max);
    w := Step(w, all[0], max);
    OneRowDrained(w.o, row);
    RunOn(all, 1, w, max);
    w := Step(w, all[1], max);
    RunOn(all, 2, w, max);
    w := Step(w, all[2], max);
    OneRowDrained(w.o, row);
    RunOn(all, 3, w, max);
    w := Step(w, all[3], max);
    RunOn(all, 4, w, max);
    w := Step(w, all[4], max);
    RunOn(all, 5, w, max);
    w := Step(w, all[5], max);
    assert all[..6] == all;
  }

  lemma StartReaches(max: nat)
    ensures Reaches([], Start(), max)
  {}

  lemma FirstRow(a: Activity, redact: string -> string, now: string)
    ensures Append(Fresh(), a, None, redact, now)
            == Outbox(map[1 := Row(Redacted(a, redact), Pending, 0, None, now)], 2, map[], [])
    ensures Redacted(a, redact).id == a.id
  {}

  lemma OneRowDrained(o: Outbox, row: Row)
    requires o.rows == map[1 := row] && o.next == 2 && row.state == Pending
    ensures Chosen(o, 1, Always()) == [1]
    ensures RecordsOf(o, Chosen(o, 1, Always())) == [Record(1, row.activity, row.attempts)]
    ensures Drain(o, 1, Always()) == o.(rows := map[1 := row.(state := Inflight)])
    ensures Open(Drain(o, 1, Always())) == o
  {
    assert Oldest(o, 1, 1, Ready(Always())) == [1];
  }
}
