/**
 The durable outbox: one table of captured activities, the source checkpoints, and the quarantine of
 raw envelopes. Every operation is one transaction, so one function from table to table.
 */
module Outbox {
  import opened Sequences

  /** A captured activity. An id and a content hash stand for the digests they are: equal exactly
      when the texts they are taken from are equal. */
  datatype Activity = Activity(
    id: string, host: string, kind: string, session: string, text: Option<string>, contentHash: Option<string>)

  datatype RowState = Pending | Inflight | Acked | Dead

  datatype Row = Row(activity: Activity, state: RowState, attempts: nat, readyAt: Option<string>, enqueuedAt: string)

  datatype Checkpoint = Checkpoint(filePath: string, offset: nat)

  datatype Quarantined = Quarantined(host: string, raw: string, reason: string)

  /** `rows` is keyed by the sequence number; `next` is the next one, never reused. */
  datatype Outbox = Outbox(rows: map<nat, Row>, next: nat, checkpoints: map<string, Checkpoint>,
                           quarantine: seq<Quarantined>)

  function Fresh(): Outbox {
    Outbox(map[], 1, map[], [])
  }

  /** Sequence numbers are below `next` and no id has two rows. */
  ghost predicate Valid(o: Outbox) {
    && (forall q :: q in o.rows ==> q < o.next)
    && (forall p, q :: p in o.rows && q in o.rows && o.rows[p].activity.id == o.rows[q].activity.id ==> p == q)
  }

  ghost predicate HasRow(o: Outbox, id: string) {
    exists q :: q in o.rows && o.rows[q].activity.id == id
  }

  // ---------------------------------------------------------------- durability

  /** The credential policy rewrites the text and, with it, the content hash. The id stays. */
  function Redacted(a: Activity, redact: string -> string): Activity {
    if a.text.None? || redact(a.text.value) == a.text.value then a
    else a.(text := Some(redact(a.text.value)), contentHash := Some(redact(a.text.value)))
  }

  /** The row of `id` if there is one, searched from `q` down. */
  function SeqOf(o: Outbox, id: string, q: nat): (r: Option<nat>)
    ensures r.Some? ==> r.value < q && r.value in o.rows && o.rows[r.value].activity.id == id
    ensures r.None? ==> forall p :: p in o.rows && p < q ==> o.rows[p].activity.id != id
  {
    if q == 0 then None
    else if q - 1 in o.rows && o.rows[q - 1].activity.id == id then Some(q - 1)
    else SeqOf(o, id, q - 1)
  }

  /** Insert or ignore, and advance the source checkpoint, together. */
  function Append(o: Outbox, a: Activity, source: Option<(string, Checkpoint)>, redact: string -> string,
                  now: string): Outbox {
    var points := if source.Some? then o.checkpoints[source.value.0 := source.value.1] else o.checkpoints;
    if SeqOf(o, a.id, o.next).Some? then o.(checkpoints := points)
    else o.(rows := o.rows[o.next := Row(Redacted(a, redact), Pending, 0, None, now)], next := o.next + 1,
            checkpoints := points)
  }

  function Quarantine(o: Outbox, entry: Quarantined): Outbox {
    o.(quarantine := o.quarantine + [entry])
  }

  // ---------------------------------------------------------------- delivery

  /** The first `limit` sequence numbers from `q` up whose row is wanted: ORDER BY seq LIMIT. */
  function Oldest(o: Outbox, q: nat, limit: nat, want: (nat, Row) -> bool): (r: seq<nat>)
    decreases o.next - q
  {
    if q >= o.next || limit == 0 then []
    else if q in o.rows && want(q, o.rows[q]) then [q] + Oldest(o, q + 1, limit - 1, want)
    else Oldest(o, q + 1, limit, want)
  }

  function Marked(rows: map<nat, Row>, seqs: set<nat>, state: RowState): map<nat, Row> {
    map q | q in rows :: if q in seqs then rows[q].(state := state) else rows[q]
  }

  /** A row is eligible when it is pending and past its backoff; `ready` says which rows are. */
  function Ready(ready: nat -> bool): (nat, Row) -> bool {
    (q: nat, row: Row) => row.state == Pending && ready(q)
  }

  datatype Record = Record(seqNo: nat, activity: Activity, attempts: nat)

  function RecordsOf(o: Outbox, seqs: seq<nat>): (r: seq<Record>)
    requires forall q :: q in seqs ==> q in o.rows
    ensures |r| == |seqs|
  {
    seq(|seqs|, i requires 0 <= i < |seqs| => Record(seqs[i], o.rows[seqs[i]].activity, o.rows[seqs[i]].attempts))
  }

  function Chosen(o: Outbox, batchSize: nat, ready: nat -> bool): (r: seq<nat>)
    ensures forall q :: q in r ==> q in o.rows
  {
    OldestAreRows(o, 0, batchSize, Ready(ready));
    Oldest(o, 0, batchSize, Ready(ready))
  }

  lemma OldestAreRows(o: Outbox, q: nat, limit: nat, want: (nat, Row) -> bool)
    ensures forall p :: p in Oldest(o, q, limit, want) ==> p in o.rows
    decreases o.next - q
  {
    if q < o.next && limit > 0 {
      OldestAreRows(o, q + 1, if q in o.rows && want(q, o.rows[q]) then limit - 1 else limit, want);
    }
  }

  function Drain(o: Outbox, batchSize: nat, ready: nat -> bool): Outbox {
    o.(rows := Marked(o.rows, ToSet(Chosen(o, batchSize, ready)), Inflight))
  }

  function Ack(o: Outbox, seqs: set<nat>): Outbox {
    o.(rows := Marked(o.rows, seqs, Acked))
  }

  function RetryLater(o: Outbox, q: nat, readyAt: string): Outbox {
    if q !in o.rows then o
    else o.(rows := o.rows[q := o.rows[q].(state := Pending, attempts := o.rows[q].attempts + 1,
                                           readyAt := Some(readyAt))])
  }

  function DeadLetter(o: Outbox, q: nat): Outbox {
    if q !in o.rows then o else o.(rows := o.rows[q := o.rows[q].(state := Dead)])
  }

  function IsDead(): (nat, Row) -> bool {
    (q: nat, row: Row) => row.state == Dead
  }

  /** Up to `limit` dead rows go back to pending, oldest first. Their attempts stay as they were. */
  function Redrive(o: Outbox, limit: nat): Outbox {
    var seqs := ToSet(Oldest(o, 0, limit, IsDead()));
    o.(rows := map q | q in o.rows :: if q in seqs then o.rows[q].(state := Pending, readyAt := None) else o.rows[q])
  }

  /** Crash recovery on open: nothing is in flight any more. */
  function Open(o: Outbox): Outbox {
    o.(rows := map q | q in o.rows :: if o.rows[q].state == Inflight then o.rows[q].(state := Pending) else o.rows[q])
  }

  // ---------------------------------------------------------------- retention

  /** `expired` says which rows were enqueued before the cutoff. */
  function PurgeAcked(o: Outbox, expired: nat -> bool): Outbox {
    o.(rows := map q | q in o.rows && !(o.rows[q].state == Acked && expired(q)) :: o.rows[q])
  }

  function DeleteByHash(o: Outbox, hash: string): Outbox {
    o.(rows := map q | q in o.rows && !(o.rows[q].activity.contentHash == Some(hash)
                                        && (o.rows[q].state == Acked || o.rows[q].state == Dead)) :: o.rows[q])
  }

  // ---------------------------------------------------------------- what the operations mean

  /** What the credential policy leaves: no text but the redacted one is kept, the content hash is of the
      text that is kept whenever that is not the one captured, and everything else, the id first, stays. */
  lemma RedactionMeaning(a: Activity, redact: string -> string)
    ensures var kept := Redacted(a, redact);
            && kept.id == a.id && kept.host == a.host && kept.kind == a.kind && kept.session == a.session
            && (a.text.None? ==> kept == a)
            && (a.text.Some? ==> kept.text == Some(redact(a.text.value)))
            && (a.text.Some? && redact(a.text.value) == a.text.value ==> kept == a)
            && (a.text.Some? && redact(a.text.value) != a.text.value ==> kept.contentHash == Some(redact(a.text.value)))
  {}

  /** Opening returns exactly the rows in flight to pending, attempts and all, and touches no other. */
  lemma OpenMeaning(o: Outbox)
    ensures var t := Open(o);
            && t.rows.Keys == o.rows.Keys && t == o.(rows := t.rows)
            && (forall q :: q in o.rows && o.rows[q].state == Inflight ==> t.rows[q] == o.rows[q].(state := Pending))
            && (forall q :: q in o.rows && o.rows[q].state != Inflight ==> t.rows[q] == o.rows[q])
  {}

  /** ORDER BY seq LIMIT: ascending, only wanted rows, and a wanted row is passed over only when the
      limit is used up by older ones. */
  lemma {:induction false} OldestMeaning(o: Outbox, q: nat, limit: nat, want: (nat, Row) -> bool)
    ensures var r := Oldest(o, q, limit, want);
            && |r| <= limit
            && (forall i, j :: 0 <= i < j < |r| ==> r[i] < r[j])
            && (forall p :: p in r ==> q <= p < o.next && p in o.rows && want(p, o.rows[p]))
            && (forall p :: q <= p < o.next && p in o.rows && want(p, o.rows[p]) && p !in r ==>
                  |r| == limit && forall x :: x in r ==> x < p)
    decreases o.next - q
  {
    if q < o.next && limit > 0 {
      if q in o.rows && want(q, o.rows[q]) {
        OldestMeaning(o, q + 1, limit - 1, want);
        var rest := Oldest(o, q + 1, limit - 1, want);
        forall j | 0 <= j < |rest|
          ensures q < rest[j]
        {
          assert rest[j] in rest;
        }
      } else {
        OldestMeaning(o, q + 1, limit, want);
      }
    }
  }

  /** A drain claims exactly the oldest eligible rows and leaves every other row as it was. */
  lemma DrainMeaning(o: Outbox, batchSize: nat, ready: nat -> bool)
    requires Valid(o)
    ensures var seqs, t := Chosen(o, batchSize, ready), Drain(o, batchSize, ready);
            && t.rows.Keys == o.rows.Keys
            && (forall q :: q in seqs ==>
                o.rows[q].state == Pending && ready(q) && t.rows[q] == o.rows[q].(state := Inflight))
            && (forall q :: q in o.rows && q !in seqs ==> t.rows[q] == o.rows[q])
            && (forall q :: q in o.rows && o.rows[q].state == Pending && ready(q) && q !in seqs ==>
                  |seqs| == batchSize && forall x :: x in seqs ==> x < q)
            && (forall i, j :: 0 <= i < j < |seqs| ==> seqs[i] < seqs[j])
  {
    OldestMeaning(o, 0, batchSize, Ready(ready));
  }

  /** A redelivered activity changes no row; a new one gets exactly one. Either way the checkpoint
      and the row are there together. */
  lemma AppendMeaning(o: Outbox, a: Activity, source: Option<(string, Checkpoint)>, redact: string -> string,
                      now: string)
    requires Valid(o)
    ensures var t := Append(o, a, source, redact, now);
            && Valid(t) && HasRow(t, a.id)
            && (HasRow(o, a.id) <==> t.rows == o.rows)
            && (forall q :: q in o.rows ==> q in t.rows && t.rows[q] == o.rows[q])
            && (forall q :: q in t.rows && q !in o.rows ==>
                t.rows[q] == Row(Redacted(a, redact), Pending, 0, None, now))
            && (forall s :: s in t.checkpoints <==> s in o.checkpoints || (source.Some? && source.value.0 == s))
            && (source.Some? ==> t.checkpoints[source.value.0] == source.value.1)
  {
    var t := Append(o, a, source, redact, now);
    var found := SeqOf(o, a.id, o.next);
    if found.Some? {
      assert t.rows[found.value].activity.id == a.id;
    } else {
      assert t.rows[o.next].activity.id == a.id;
      assert o.next !in o.rows;
    }
  }

  /** A redrive moves exactly the oldest dead rows, keeps their attempts, and touches nothing else. */
  lemma RedriveMeaning(o: Outbox, limit: nat)
    requires Valid(o)
    ensures var moved, t := Oldest(o, 0, limit, IsDead()), Redrive(o, limit);
            && t.rows.Keys == o.rows.Keys && |moved| <= limit
            && (forall q :: q in moved ==>
                q in o.rows && o.rows[q].state == Dead && t.rows[q] == o.rows[q].(state := Pending, readyAt := None))
            && (forall q :: q in o.rows && q !in moved ==> t.rows[q] == o.rows[q])
            && (forall q :: q in o.rows && t.rows[q].state == Dead ==> |moved| == limit && forall x :: x in moved ==>
                x < q)
  {
    OldestMeaning(o, 0, limit, IsDead());
  }

  /** Neither retention nor a targeted delete ever removes a row that is still to be delivered, and a
      dead row goes only when its content was named. */
  lemma RetentionSparesTheUndelivered(o: Outbox, expired: nat -> bool, hash: string, q: nat)
    requires q in o.rows
    ensures o.rows[q].state == Pending || o.rows[q].state == Inflight ==>
              q in PurgeAcked(o, expired).rows && q in DeleteByHash(o, hash).rows
    ensures o.rows[q].state == Dead ==>
              q in PurgeAcked(o, expired).rows
                  && (q in DeleteByHash(o, hash).rows <==> o.rows[q].activity.contentHash != Some(hash))
    ensures o.rows[q].state == Acked ==>
              (q in PurgeAcked(o, expired).rows <==> !expired(q))
              && (q in DeleteByHash(o, hash).rows <==> o.rows[q].activity.contentHash != Some(hash))
  {
    assert q in PurgeAcked(o, expired).rows <==> !(o.rows[q].state == Acked && expired(q));
  }
}
