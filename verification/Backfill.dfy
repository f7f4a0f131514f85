/**
 Backfilling one growing file into the outbox as a machine of interleaved steps: the file grows, runs
 load the checkpoint, read a tail, append its activities one by one and may crash between any two
 steps, and several runs may be under way at once.
 */
module Backfill {
  import opened Sequences
  import opened Outbox
  import opened OutboxStore
  import opened Tailing

  /** Where one run is. */
  datatype Run =
    | Loaded(since: nat)
    | Appending(since: nat, read: seq<Activity>, end: nat, done: nat)

  /** `file` and `point` are the file and this source's saved checkpoint. `stored` is history: the ids
      of this source's activities that were ever appended. `reader` does not change. */
  datatype World = World(file: seq<byte>, point: Option<nat>, stored: set<string>, runs: map<nat, Run>)

  datatype Event =
    | Grows(more: seq<byte>)
    | Loads(run: nat)
    | Reads(run: nat)
    | AppendsNext(run: nat)
    | Stops(run: nat)

  function Start(file: seq<byte>): World {
    World(file, None, {}, map[])
  }

  function PointOf(w: World): nat {
    if w.point.Some? then w.point.value else 0
  }

  predicate Enabled(w: World, e: Event) {
    match e
    case Grows(_) => true
    case Loads(run) => run !in w.runs
    case Reads(run) => run in w.runs && w.runs[run].Loaded?
    case AppendsNext(run) => run in w.runs && w.runs[run].Appending? && w.runs[run].done < |w.runs[run].read|
    case Stops(run) => run in w.runs
  }

  /** A drifted tail ends its run with nothing appended. The checkpoint moves with the last append. */
  function Step(w: World, e: Event, reader: Reader): World
    requires Enabled(w, e)
  {
    match e
    case Grows(more) => w.(file := w.file + more)
    case Loads(run) => w.(runs := w.runs[run := Loaded(PointOf(w))])
    case Reads(run) =>
      (match TailOf(w.file, w.runs[run].since, reader)
       case Drift => w.(runs := w.runs - {run})
       case Tail(acts, end, _) => w.(runs := w.runs[run := Appending(w.runs[run].since, acts, end, 0)]))
    case AppendsNext(run) =>
      var r := w.runs[run];
      w.(stored := w.stored + {r.read[r.done].id},
         point := if r.done == |r.read| - 1 then Some(r.end) else w.point,
         runs := w.runs[run := r.(done := r.done + 1)])
    case Stops(run) => w.(runs := w.runs - {run})
  }

  ghost predicate Reaches(events: seq<Event>, w: World, file: seq<byte>, reader: Reader)
    decreases |events|
  {
    if events == [] then w == Start(file)
    else
      var e := events[|events| - 1];
      exists before: World ::
        Reaches(events[..|events| - 1], before, file, reader) && Enabled(before, e) && w == Step(before, e, reader)
  }

  // ---------------------------------------------------------------- ids of a stretch of the file

  function IdsOf(acts: seq<Activity>): set<string> {
    set a | a in acts :: a.id
  }

  /** The ids one tail of the whole of `raw` gives. */
  function OneShot(raw: seq<byte>, reader: Reader): set<string> {
    var t := TailOf(raw, 0, reader);
    if t.Tail? then IdsOf(t.activities) else {}
  }

  /** Up to the boundary `b` the file reads without drift and every id it gives is stored. */
  ghost predicate Covered(w: World, b: nat, reader: Reader) {
    && Boundary(w.file, b) && b <= |w.file|
    && TailOf(w.file[..b], 0, reader).Tail?
    && OneShot(w.file[..b], reader) <= w.stored
  }

  /** A run's reading is still what the file says, and what it did so far is stored. */
  ghost predicate RunInv(w: World, r: Run, reader: Reader) {
    && Covered(w, r.since, reader)
    && (r.Appending? ==>
          && r.since <= r.end <= |w.file| && Boundary(w.file, r.end)
          && TailOf(w.file[..r.end], r.since, reader).Tail?
          && TailOf(w.file[..r.end], r.since, reader).activities == r.read
          && r.done <= |r.read|
          && IdsOf(r.read[..r.done]) <= w.stored)
  }

  /** Nothing is stored that the file does not say. */
  ghost predicate FromTheFile(w: World, reader: Reader) {
    forall id :: id in w.stored ==>
        exists b: nat :: Boundary(w.file, b) && b <= |w.file| && id in OneShot(w.file[..b], reader)
  }

  ghost predicate Inv(w: World, reader: Reader) {
    && Covered(w, PointOf(w), reader)
    && (forall run :: run in w.runs ==> RunInv(w, w.runs[run], reader))
    && FromTheFile(w, reader)
  }

  // ---------------------------------------------------------------- what every step keeps

  lemma CoveredLater(w: World, t: World, b: nat, reader: Reader)
    requires Covered(w, b, reader) && |w.file| <= |t.file| && t.file[..|w.file|] == w.file && w.stored <= t.stored
    ensures Covered(t, b, reader)
  {
    SamePrefix(w.file, t.file, b);
  }

  lemma SamePrefix(file: seq<byte>, more: seq<byte>, b: nat)
    requires b <= |file| <= |more| && more[..|file|] == file
    ensures more[..b] == file[..b] && (Boundary(file, b) ==> Boundary(more, b))
  {
    assert more[..b] == more[..|file|][..b];
    if b > 0 { assert more[b - 1] == more[..|file|][b - 1]; }
  }

  lemma RunLater(w: World, t: World, r: Run, reader: Reader)
    requires RunInv(w, r, reader) && |w.file| <= |t.file| && t.file[..|w.file|] == w.file && w.stored <= t.stored
    ensures RunInv(t, r, reader)
  {
    hide Covered, TailOf;
    CoveredLater(w, t, r.since, reader);
    if r.Appending? { SamePrefix(w.file, t.file, r.end); }
  }

  lemma FromTheFileLater(w: World, t: World, reader: Reader)
    requires FromTheFile(w, reader) && |w.file| <= |t.file| && t.file[..|w.file|] == w.file && t.stored == w.stored
    ensures FromTheFile(t, reader)
  {
    hide OneShot;
    forall id | id in t.stored
      ensures exists b: nat :: Boundary(t.file, b) && b <= |t.file| && id in OneShot(t.file[..b], reader)
    {
      var b: nat :| Boundary(w.file, b) && b <= |w.file| && id in OneShot(w.file[..b], reader);
      SamePrefix(w.file, t.file, b);
    }
  }

  lemma GrowthKeepsInv(w: World, e: Event, reader: Reader)
    requires Inv(w, reader) && e.Grows?
    ensures Inv(Step(w, e, reader), reader)
  {
    hide Covered, RunInv, FromTheFile, TailOf;
    var t := Step(w, e, reader);
    assert t.file[..|w.file|] == w.file;
    CoveredLater(w, t, PointOf(w), reader);
    forall run | run in t.runs
      ensures RunInv(t, t.runs[run], reader)
    {
      RunLater(w, t, t.runs[run], reader);
    }
    FromTheFileLater(w, t, reader);
  }

  lemma LoadKeepsInv(w: World, e: Event, reader: Reader)
    requires Inv(w, reader) && (e.Loads? || e.Stops?) && Enabled(w, e)
    ensures Inv(Step(w, e, reader), reader)
  {
    hide Covered, FromTheFile, TailOf;
    OthersKept(w, Step(w, e, reader), e.run, reader);
    CoveredLater(w, Step(w, e, reader), PointOf(w), reader);
    FromTheFileLater(w, Step(w, e, reader), reader);
  }

  /** Every other run's invariant survives a step that only adds stored ids. */
  lemma OthersKept(w: World, t: World, run: nat, reader: Reader)
    requires Inv(w, reader) && t.file == w.file && w.stored <= t.stored
    requires forall r :: r != run && r in t.runs ==> r in w.runs && t.runs[r] == w.runs[r]
    ensures forall r :: r != run && r in t.runs ==> RunInv(t, t.runs[r], reader)
  {
    hide Covered, RunInv, FromTheFile, TailOf;
    assert t.file[..|w.file|] == w.file;
    forall r | r != run && r in t.runs
      ensures RunInv(t, t.runs[r], reader)
    {
      RunLater(w, t, t.runs[r], reader);
    }
  }

  lemma ReadKeepsInv(w: World, e: Event, reader: Reader)
    requires Inv(w, reader) && e.Reads? && Enabled(w, e)
    ensures Inv(Step(w, e, reader), reader)
  {
    hide FromTheFile, TailOf, OneShot;
    var t := Step(w, e, reader);
    OthersKept(w, t, e.run, reader);
    CoveredLater(w, t, PointOf(w), reader);
    FromTheFileLater(w, t, reader);
    var since := w.runs[e.run].since;
    assert RunInv(w, w.runs[e.run], reader);
    CoveredLater(w, t, since, reader);
    if TailOf(w.file, since, reader).Tail? {
      TailEndsAtBoundary(w.file, since, reader);
      TailIsAppendStable(w.file, [], since, reader);
      assert w.file + [] == w.file;
    }
  }

  /** The ids up to `end` are the ids up to `since` and those of the stretch between. */
  lemma StretchIds(file: seq<byte>, since: nat, end: nat, reader: Reader)
    requires Boundary(file, since) && Boundary(file, end) && since <= end <= |file|
    requires TailOf(file[..since], 0, reader).Tail? && TailOf(file[..end], since, reader).Tail?
    ensures TailOf(file[..end], 0, reader).Tail?
    ensures OneShot(file[..end], reader)
            == OneShot(file[..since], reader) + IdsOf(TailOf(file[..end], since, reader).activities)
  {
    hide TailOf;
    SamePrefix(file[..end], file, since);
    assert file[..end][..since] == file[..since];
    assert Boundary(file[..end], since);
    TailSplits(file[..end], 0, since, reader);
  }

  lemma AppendKeepsInv(w: World, e: Event, reader: Reader)
    requires Inv(w, reader) && e.AppendsNext? && Enabled(w, e)
    ensures Inv(Step(w, e, reader), reader)
  {
    hide FromTheFile, TailOf, OneShot, IdsOf, Covered;
    var t := Step(w, e, reader);
    var r := w.runs[e.run];
    OthersKept(w, t, e.run, reader);
    assert t.file[..|w.file|] == w.file;
    assert RunInv(w, r, reader);
    CoveredLater(w, t, r.since, reader);
    OneMoreId(r.read, r.done);
    NextIdIsFromTheFile(w, r, reader);
    AddedFromTheFile(w, t, r, reader);
    if r.done == |r.read| - 1 {
      assert r.read[..r.done + 1] == r.read;
      CoveredIds(w, r.since, reader);
      StretchIds(w.file, r.since, r.end, reader);
      CoveredMeans(t, r.end, reader);
    } else {
      CoveredLater(w, t, PointOf(w), reader);
    }
  }

  lemma CoveredMeans(w: World, b: nat, reader: Reader)
    requires Boundary(w.file, b) && b <= |w.file| && TailOf(w.file[..b], 0, reader).Tail?
             && OneShot(w.file[..b], reader) <= w.stored
    ensures Covered(w, b, reader)
  {}

  lemma CoveredIds(w: World, b: nat, reader: Reader)
    requires Covered(w, b, reader)
    ensures Boundary(w.file, b) && b <= |w.file| && TailOf(w.file[..b], 0, reader).Tail?
            && OneShot(w.file[..b], reader) <= w.stored
  {}

  lemma OneMoreId(acts: seq<Activity>, n: nat)
    requires n < |acts|
    ensures IdsOf(acts[..n + 1]) == IdsOf(acts[..n]) + {acts[n].id}
  {
    assert acts[..n + 1] == acts[..n] + [acts[n]];
  }

  lemma NextIdIsFromTheFile(w: World, r: Run, reader: Reader)
    requires RunInv(w, r, reader) && r.Appending? && r.done < |r.read|
    ensures r.read[r.done].id in OneShot(w.file[..r.end], reader)
  {
    hide TailOf, OneShot;
    StretchIds(w.file, r.since, r.end, reader);
    assert r.read[r.done] in r.read;
  }

  lemma AddedFromTheFile(w: World, t: World, r: Run, reader: Reader)
    requires FromTheFile(w, reader) && t.file == w.file && r.Appending? && r.done < |r.read|
    requires t.stored == w.stored + {r.read[r.done].id}
    requires Boundary(w.file, r.end) && r.end <= |w.file| && r.read[r.done].id in OneShot(w.file[..r.end], reader)
    ensures FromTheFile(t, reader)
  {
    hide TailOf, OneShot;
  }

  lemma StepKeepsInv(w: World, e: Event, reader: Reader)
    requires Inv(w, reader) && Enabled(w, e)
    ensures Inv(Step(w, e, reader), reader)
  {
    hide Inv, Step, TailOf;
    match e
    case Grows(_) => GrowthKeepsInv(w, e, reader);
    case Loads(_) => LoadKeepsInv(w, e, reader);
    case Reads(_) => ReadKeepsInv(w, e, reader);
    case AppendsNext(_) => AppendKeepsInv(w, e, reader);
    case Stops(_) => LoadKeepsInv(w, e, reader);
  }

  lemma {:induction false} EveryRunKeepsInv(events: seq<Event>, w: World, file: seq<byte>, reader: Reader)
    requires Reaches(events, w, file, reader)
    ensures Inv(w, reader)
    decreases |events|
  {
    hide Inv, Step, Enabled, TailOf;
    if events == [] {
      StartIsSound(file, reader);
    } else {
      var e := events[|events| - 1];
      var before: World :|
        Reaches(events[..|events| - 1], before, file, reader) && Enabled(before, e) && w == Step(before, e, reader);
      EveryRunKeepsInv(events[..|events| - 1], before, file, reader);
      StepKeepsInv(before, e, reader);
    }
  }

  lemma StartIsSound(file: seq<byte>, reader: Reader)
    ensures Inv(Start(file), reader)
  {
    assert file[..0] == [];
    assert TailOf([], 0, reader) == Tail([], 0, 0);
  }

  // ---------------------------------------------------------------- main results

  /** However the file grew and wherever runs crashed, a saved checkpoint is a line boundary and every
      activity before it is stored. */
  lemma CheckpointsAreSafe(events: seq<Event>, w: World, file: seq<byte>, reader: Reader)
    requires Reaches(events, w, file, reader) && w.point.Some?
    ensures Boundary(w.file, w.point.value) && w.point.value <= |w.file|
    ensures TailOf(w.file[..w.point.value], 0, reader).Tail? && OneShot(w.file[..w.point.value], reader) <= w.stored
  {
    hide Reaches, TailOf, OneShot;
    EveryRunKeepsInv(events, w, file, reader);
  }

  /** A run that appended everything it read from a file whose complete lines it had all seen leaves
      exactly the ids of one tail of the file. */
  lemma CompletedBackfillEqualsOneTail(events: seq<Event>, w: World, file: seq<byte>, reader: Reader, run: nat)
    requires Reaches(events, w, file, reader) && run in w.runs
    requires var r := w.runs[run]; r.Appending? && r.done == |r.read| && NoMoreLines(w.file, r.end)
    ensures TailOf(w.file, 0, reader).Tail? && w.stored == OneShot(w.file, reader)
  {
    hide Reaches, TailOf, OneShot, FromTheFile, IdsOf, Covered;
    EveryRunKeepsInv(events, w, file, reader);
    var r := w.runs[run];
    assert RunInv(w, r, reader);
    assert r.read[..r.done] == r.read;
    CoveredIds(w, r.since, reader);
    StretchIds(w.file, r.since, r.end, reader);
    WholeFile(w.file, r.end, reader);
    forall id | id in w.stored
      ensures id in OneShot(w.file, reader)
    {
      StoredIsInTheFile(w, id, reader);
    }
  }

  /** The same for a rollout whose session lines agree: the ids are those of one tail by the rollout
      tailer itself, which carries its session along. */
  lemma CompletedRolloutBackfillEqualsOneTail(events: seq<Event>, w: World, file: seq<byte>, parse: RolloutParser,
                                              explicit: Option<string>, session: string, run: nat)
    requires Reaches(events, w, file, RolloutReader(parse, session))
             && SessionsAgree(w.file, 0, parse, explicit, session)
    requires run in w.runs
    requires var r := w.runs[run]; r.Appending? && r.done == |r.read| && NoMoreLines(w.file, r.end)
    ensures var t := RolloutTail(w.file, 0, parse, explicit, session); t.Tail? && w.stored == IdsOf(t.activities)
  {
    hide Reaches, TailOf, RolloutTail, SessionsAgree, IdsOf;
    CompletedBackfillEqualsOneTail(events, w, file, RolloutReader(parse, session), run);
    RolloutTailIsStateless(w.file, 0, parse, explicit, session);
  }

  /** After `end` there is no further newline. */
  predicate NoMoreLines(file: seq<byte>, end: nat) {
    end <= |file| && Find(file, end) == |file|
  }

  lemma WholeFile(file: seq<byte>, end: nat, reader: Reader)
    requires Boundary(file, end) && NoMoreLines(file, end) && TailOf(file[..end], 0, reader).Tail?
    ensures TailOf(file, 0, reader).Tail? && OneShot(file, reader) == OneShot(file[..end], reader)
  {
    TailSplits(file, 0, end, reader);
    var head := TailOf(file[..end], 0, reader);
    assert TailOf(file, end, reader) == Tail([], end, 0);
    assert head.activities + [] == head.activities;
  }

  lemma StoredIsInTheFile(w: World, id: string, reader: Reader)
    requires FromTheFile(w, reader) && id in w.stored && TailOf(w.file, 0, reader).Tail?
    ensures id in OneShot(w.file, reader)
  {
    hide TailOf;
    var b: nat :| Boundary(w.file, b) && b <= |w.file| && id in OneShot(w.file[..b], reader);
    TailSplits(w.file, 0, b, reader);
  }

  // ---------------------------------------------------------------- one run against the outbox

  /** Where a run's activities come from and go: the source key, the path, and what appending needs. */
  datatype Source = Source(key: string, path: string, redact: string -> string, now: string)

  datatype BackfillResult = BackfillResult(appended: nat, end: nat, since: nat, halted: bool)

  /** Appending `acts[i..]` in order, the checkpoint moving with the last one. */
  function AppendFrom(o: Outbox, acts: seq<Activity>, i: nat, end: nat, src: Source): Outbox
    requires i <= |acts|
    decreases |acts| - i
  {
    if i == |acts| then o
    else AppendFrom(Append(o, acts[i], PointAt(i, acts, end, src), src.redact, src.now), acts, i + 1, end, src)
  }

  function PointAt(i: nat, acts: seq<Activity>, end: nat, src: Source): Option<(string, Checkpoint)> {
    if i == |acts| - 1 then Some((src.key, Checkpoint(src.path, end))) else None
  }

  function SinceOf(o: Outbox, src: Source): nat {
    if src.key in o.checkpoints then o.checkpoints[src.key].offset else 0
  }

  /** A finished run: every activity has a row, rows that were there are untouched, and the checkpoint
      moved to the end of what was read, unless nothing was. */
  lemma {:induction false} AppendFromMeaning(o: Outbox, acts: seq<Activity>, i: nat, end: nat, src: Source)
    requires Valid(o) && i <= |acts|
    ensures var t := AppendFrom(o, acts, i, end, src);
            && Valid(t)
            && (forall q :: q in o.rows ==> q in t.rows && t.rows[q] == o.rows[q])
            && (forall k :: i <= k < |acts| ==> HasRow(t, acts[k].id))
            && t.checkpoints == if i < |acts| then o.checkpoints[src.key := Checkpoint(src.path, end)]
               else o.checkpoints
    decreases |acts| - i
  {
    hide Append, HasRow, Valid;
    if i < |acts| {
      var next := Append(o, acts[i], PointAt(i, acts, end, src), src.redact, src.now);
      AppendMeaning(o, acts[i], PointAt(i, acts, end, src), src.redact, src.now);
      AppendFromMeaning(next, acts, i + 1, end, src);
      RowStays(next, AppendFrom(next, acts, i + 1, end, src), acts[i].id);
      OnlyThatPoint(o, acts[i], PointAt(i, acts, end, src), src);
    }
  }

  lemma RowStays(o: Outbox, t: Outbox, id: string)
    requires HasRow(o, id) && forall q :: q in o.rows ==> q in t.rows && t.rows[q] == o.rows[q]
    ensures HasRow(t, id)
  {
    var q :| q in o.rows && o.rows[q].activity.id == id;
    assert t.rows[q].activity.id == id;
  }

  lemma OnlyThatPoint(o: Outbox, a: Activity, point: Option<(string, Checkpoint)>, src: Source)
    ensures Append(o, a, point, src.redact, src.now).checkpoints
            == if point.Some? then o.checkpoints[point.value.0 := point.value.1] else o.checkpoints
  {}

  /** One backfill of the file as it stands: load the checkpoint, read the tail, append. A drifted file
      halts the source and changes nothing. */
  method BackfillThinking(box: SqliteOutbox, raw: seq<byte>, read: Reader, src: Source) returns (result: BackfillResult)
    requires box.isOpen && Valid(box.Model())
    modifies box`rows, box`next, box`checkpoints
    ensures Valid(box.Model()) && result.since == SinceOf(old(box.Model()), src)
    ensures result.since == if src.key in old(box.checkpoints) then old(box.checkpoints)[src.key].offset else 0
    ensures match TailOf(raw, result.since, read)
            case Drift => result.halted && result.appended == 0 && result.end == result.since
                && box.Model() == old(box.Model())
            case Tail(acts, end, _) =>
              && !result.halted && result.appended == |acts| && result.end == end
              && box.Model() == AppendFrom(old(box.Model()), acts, 0, end, src)
  {
    hide Valid, Append, TailOf, HasRow;
    var point := box.LoadCheckpoint(src.key);
    var since := if point.Some? then point.value.offset else 0;
    var tail := ReadTranscript(raw, since, read);
    if tail.Drift? { return BackfillResult(0, since, since, true); }
    for i := 0 to |tail.activities|
      invariant box.isOpen && Valid(box.Model())
      invariant AppendFrom(box.Model(), tail.activities, i, tail.end, src)
                == AppendFrom(old(box.Model()), tail.activities, 0, tail.end, src)
    {
      var update := if i == |tail.activities| - 1 then Some((src.key, Checkpoint(src.path, tail.end))) else None;
      var _, _, _ := box.AppendActivity(tail.activities[i], update, src.redact, src.now);
    }
    result := BackfillResult(|tail.activities|, tail.end, since, false);
  }
}
