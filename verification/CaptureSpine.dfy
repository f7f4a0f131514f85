/**
 Capture end to end, as one machine over one outbox: hooks, a late daemon and replays put records in,
 a backfill of a growing file appends its activities, and workers, operators, retention and other
 processes' opens work on the same rows. Steps of all three fall in any order.
 */
module CaptureSpine {
  import opened Sequences
  import opened Outbox
  import opened ActivityKeys
  import opened CaptureHook
  import opened Tailing
  import Channels = CaptureChannels
  import Workers = OutboxWorkers
  import Backfill

  /** `src.key` is the checkpoint key of the file that is backfilled. */
  datatype Setup = Setup(cfg: Config, max: nat, reader: Reader, src: Backfill.Source)

  datatype Spine = Spine(channels: Channels.World, fill: Backfill.World, work: Workers.World)

  datatype Event =
    | Captures(c: Channels.Event)
    | Fills(f: Backfill.Event)
    | Works(w: Workers.Event)

  function Start(file: seq<byte>): Spine {
    Spine(Channels.Start(), Backfill.Start(file), Workers.Start())
  }

  /** Appends for other sources move other checkpoints. */
  predicate Enabled(u: Setup, s: Spine, e: Event) {
    match e
    case Captures(c) => Channels.Enabled(u.cfg, s.channels, c)
    case Fills(f) => Backfill.Enabled(s.fill, f)
    case Works(w) => Workers.Enabled(s.work, w) && (w.Appends? && w.source.Some? ==> w.source.value.0 != u.src.key)
  }

  function IdsIn(o: Outbox): set<string> {
    set q | q in o.rows :: o.rows[q].activity.id
  }

  /** The append a backfill's next step makes. */
  function NextAppend(u: Setup, s: Spine, f: Backfill.Event): Workers.Event
    requires Backfill.Enabled(s.fill, f) && f.AppendsNext?
  {
    var r := s.fill.runs[f.run];
    Workers.Appends(r.read[r.done], Backfill.PointAt(r.done, r.read, r.end, u.src), u.src.redact, u.src.now)
  }

  function Shown(s: Spine, work: Workers.World): Spine {
    s.(work := work, channels := s.channels.(d := s.channels.d.(o := work.o)))
  }

  function Step(u: Setup, s: Spine, e: Event): Spine
    requires Enabled(u, s, e)
  {
    match e
    case Captures(c) =>
      var t := Channels.Step(u.cfg, s.channels, c);
      s.(channels := t, work := s.work.(o := t.d.o, appended := s.work.appended + IdsIn(t.d.o)))
    case Fills(f) =>
      var t := s.(fill := Backfill.Step(s.fill, f, u.reader));
      if f.AppendsNext? then Shown(t, Workers.Step(s.work, NextAppend(u, s, f), u.max)) else t
    case Works(w) => Shown(s, Workers.Step(s.work, w, u.max))
  }

  ghost predicate Reaches(u: Setup, events: seq<Event>, s: Spine, file: seq<byte>)
    decreases |events|
  {
    if events == [] then s == Start(file)
    else
      var e := events[|events| - 1];
      exists before: Spine ::
          Reaches(u, events[..|events| - 1], before, file) && Enabled(u, before, e) && s == Step(u, before, e)
  }

  // ---------------------------------------------------------------- what every step keeps

  /** The record, or what its spool file reads as, was appended at some time. */
  predicate WasAppended(cfg: Config, appended: set<string>, c: Capture) {
    ActivityOf(cfg, c).Some? && ActivityOf(cfg, c).value.id in appended
  }

  ghost predicate Held(cfg: Config, d: Disk, appended: set<string>, c: Capture) {
    || WasAppended(cfg, appended, c)
    || Channels.InQuarantine(d.o, c)
    || Channels.InSpool(d.spool, c)
    || WasAppended(cfg, appended, Unspooled(Spooled(c)))
  }

  ghost predicate ChannelsInv(cfg: Config, w: Channels.World, appended: set<string>) {
    && IdsIn(w.d.o) <= appended
    && (forall c :: c in w.captured ==> Held(cfg, w.d, appended, c))
    && (forall f :: f in w.appended && f in w.d.spool ==> WasAppended(cfg, appended, Unspooled(w.d.spool[f])))
  }

  /** The checkpoint in the outbox is the one the backfill saved last. */
  predicate SamePoint(o: Outbox, src: Backfill.Source, point: Option<nat>) {
    if src.key in o.checkpoints then point == Some(o.checkpoints[src.key].offset) else point == None
  }

  ghost predicate Inv(u: Setup, s: Spine) {
    && s.channels.d.o == s.work.o
    && Workers.Inv(s.work, u.max)
    && Backfill.Inv(s.fill, u.reader)
    && ChannelsInv(u.cfg, s.channels, s.work.appended)
    && s.fill.stored <= s.work.appended
    && SamePoint(s.work.o, u.src, s.fill.point)
  }

  lemma HeldLater(cfg: Config, d: Disk, t: Disk, appended: set<string>, more: set<string>, c: Capture)
    requires Held(cfg, d, appended, c) && appended <= more
    requires forall x :: x in d.o.quarantine ==> x in t.o.quarantine
    requires forall f :: f in d.spool ==>
             (f in t.spool && t.spool[f] == d.spool[f]) || WasAppended(cfg, more, Unspooled(d.spool[f]))
    ensures Held(cfg, t, more, c)
  {
    hide ActivityOf, Spooled, Unspooled;
    if Channels.InSpool(d.spool, c) {
      var f :| f in d.spool && d.spool[f] == Spooled(c);
      if f in t.spool && t.spool[f] == d.spool[f] { assert Channels.InSpool(t.spool, c); }
    }
  }

  // ---------------------------------------------------------------- captures only append

  ghost predicate Extends(o: Outbox, t: Outbox) {
    Workers.AppendsOnly(o, t) && t.checkpoints == o.checkpoints && forall x :: x in o.quarantine ==> x in t.quarantine
  }

  lemma ExtendsTwice(o: Outbox, t: Outbox, v: Outbox)
    requires Extends(o, t) && Extends(t, v)
    ensures Extends(o, v)
  {
    hide Valid;
  }

  lemma ExtendsSame(o: Outbox)
    requires Valid(o)
    ensures Extends(o, o)
  {}

  lemma AppendExtends(cfg: Config, o: Outbox, a: Activity)
    requires Valid(o)
    ensures Extends(o, Append(o, a, None, cfg.redact, cfg.now))
  {
    Workers.AppendGrows(o, a, None, cfg.redact, cfg.now);
    hide Valid, Workers.AppendsOnly, Redacted;
  }

  lemma HandleExtends(cfg: Config, o: Outbox, server: Server, c: Capture)
    requires Valid(o)
    ensures Extends(o, Handle(cfg, o, server, c).0)
  {
    hide Append, ActivityOf, Extends;
    ExtendsSame(o);
    QuarantineExtends(o, Quarantined(HostValue(c.host), c.raw.text, "schema_drift"));
    if ActivityOf(cfg, c).Some? { AppendExtends(cfg, o, ActivityOf(cfg, c).value); }
  }

  lemma QuarantineExtends(o: Outbox, entry: Quarantined)
    requires Valid(o)
    ensures Extends(o, Quarantine(o, entry))
  {}

  lemma CaptureExtends(cfg: Config, d: Disk, c: Capture, link: Link, write: Write, file: nat)
    requires Valid(d.o)
    ensures Extends(d.o, CaptureOnce(cfg, d, c, link, write, file).o)
  {
    hide Append, Handle, ActivityOf, Extends, Spooled, Valid;
    var (o, accepted) := TryDaemon(cfg, d.o, link, c);
    ExtendsSame(d.o);
    if link.ReplyLost? || link.Reply? { HandleExtends(cfg, d.o, link.server, c); }
    ExtendedIsValid(d.o, o);
    ExtendsSame(o);
    if ActivityOf(cfg, c).Some? { AppendExtends(cfg, o, ActivityOf(cfg, c).value); }
    ExtendsTwice(d.o, o, CaptureOnce(cfg, d, c, link, write, file).o);
  }

  lemma ExtendedIsValid(o: Outbox, t: Outbox)
    requires Extends(o, t)
    ensures Valid(t) && t.checkpoints == o.checkpoints
    ensures forall x :: x in o.quarantine ==> x in t.quarantine
  {
    hide Valid;
  }

  lemma CapturesExtend(cfg: Config, w: Channels.World, e: Channels.Event)
    requires Valid(w.d.o) && Channels.Enabled(cfg, w, e)
    ensures Extends(w.d.o, Channels.Step(cfg, w, e).d.o)
  {
    hide Append, Handle, CaptureOnce, ActivityOf, Extends, Valid, Spooled, Unspooled;
    ExtendsSame(w.d.o);
    match e
    case Hook(c, link, write, file) => CaptureExtends(cfg, w.d, c, link, write, file);
    case LateDaemon(c, server) => HandleExtends(cfg, w.d.o, server, c);
    case ReplayAppends(file) => AppendExtends(cfg, w.d.o, ActivityOf(cfg, Unspooled(w.d.spool[file])).value);
    case ReplayUnlinks(_) =>
    case ReplayDies =>
  }

  /** A record with a row was appended. */
  lemma RowMeansAppended(cfg: Config, o: Outbox, appended: set<string>, c: Capture)
    requires IdsIn(o) <= appended
    ensures Channels.InOutbox(cfg, o, c) ==> WasAppended(cfg, appended, c)
  {
    hide ActivityOf;
  }

  lemma KeptIsHeld(cfg: Config, d: Disk, appended: set<string>, c: Capture)
    requires Channels.Kept(cfg, d, c) && IdsIn(d.o) <= appended
    ensures Held(cfg, d, appended, c)
  {
    hide ActivityOf, Spooled, Unspooled, IdsIn;
    RowMeansAppended(cfg, d.o, appended, c);
    RowMeansAppended(cfg, d.o, appended, Unspooled(Spooled(c)));
  }

  lemma CapturesKeepChannels(cfg: Config, w: Channels.World, e: Channels.Event, appended: set<string>)
    requires Valid(w.d.o) && ChannelsInv(cfg, w, appended) && Channels.Enabled(cfg, w, e)
    ensures var t := Channels.Step(cfg, w, e); ChannelsInv(cfg, t, appended + IdsIn(t.d.o))
  {
    hide Append, Handle, CaptureOnce, ActivityOf, Channels.Kept, Held, Extends, Valid, Spooled, Unspooled, IdsIn,
         WasAppended;
    var t := Channels.Step(cfg, w, e);
    var more := appended + IdsIn(t.d.o);
    CapturesExtend(cfg, w, e);
    ExtendedIsValid(w.d.o, t.d.o);
    SpoolAfter(cfg, w, e, appended);
    forall c | c in t.captured
      ensures Held(cfg, t.d, more, c)
    {
      if c in w.captured { HeldLater(cfg, w.d, t.d, appended, more, c); } else { CapturedNow(cfg, w, e, c, more); }
    }
  }

  lemma CapturedNow(cfg: Config, w: Channels.World, e: Channels.Event, c: Capture, appended: set<string>)
    requires Valid(w.d.o) && Channels.Enabled(cfg, w, e) && c !in w.captured && c in Channels.Step(cfg, w, e).captured
    requires IdsIn(Channels.Step(cfg, w, e).d.o) <= appended
    ensures Held(cfg, Channels.Step(cfg, w, e).d, appended, c)
  {
    hide Append, Handle, CaptureOnce, ActivityOf, Channels.Kept, Held, Valid, Channels.OnlyGrows, IdsIn, Unspooled;
    Channels.HookKeeps(cfg, w.d, c, e.link, e.write, e.file);
    KeptIsHeld(cfg, Channels.Step(cfg, w, e).d, appended, c);
  }

  /** Files leave the spool only after their record was appended. */
  lemma SpoolAfter(cfg: Config, w: Channels.World, e: Channels.Event, appended: set<string>)
    requires Valid(w.d.o) && ChannelsInv(cfg, w, appended) && Channels.Enabled(cfg, w, e)
    ensures var t := Channels.Step(cfg, w, e);
            var more := appended + IdsIn(t.d.o);
            && (forall f :: f in w.d.spool ==>
                  (f in t.d.spool && t.d.spool[f] == w.d.spool[f]) || WasAppended(cfg, more, Unspooled(w.d.spool[f])))
            && (forall f :: f in t.appended && f in t.d.spool ==> WasAppended(cfg, more, Unspooled(t.d.spool[f])))
  {
    hide Append, Handle, CaptureOnce, ActivityOf, Channels.Kept, Held, Valid, Channels.OnlyGrows, IdsIn, Unspooled,
         Spooled;
    var t := Channels.Step(cfg, w, e);
    if e.Hook? { Channels.HookKeeps(cfg, w.d, e.c, e.link, e.write, e.file); }
    if e.ReplayAppends? {
      Channels.AppendGrows(cfg, w.d.o, ActivityOf(cfg, Unspooled(w.d.spool[e.file])).value);
      Channels.NowInOutbox(cfg, t.d.o, Unspooled(w.d.spool[e.file]));
      RowMeansAppended(cfg, t.d.o, appended + IdsIn(t.d.o), Unspooled(w.d.spool[e.file]));
    }
  }

  lemma CapturesKeepInv(u: Setup, s: Spine, e: Event)
    requires Inv(u, s) && e.Captures? && Enabled(u, s, e)
    ensures Inv(u, Step(u, s, e))
  {
    hide Workers.Inv, Backfill.Inv, ChannelsInv, Channels.Step, Channels.Enabled, Extends, IdsIn;
    var t := Channels.Step(u.cfg, s.channels, e.c);
    Workers.InvIsValid(s.work, u.max);
    CapturesExtend(u.cfg, s.channels, e.c);
    ExtendedIsValid(s.work.o, t.d.o);
    CapturesKeepChannels(u.cfg, s.channels, e.c, s.work.appended);
    ExtendedKeepsWork(s.work, t.d.o, u.max);
  }

  lemma ExtendedKeepsWork(w: Workers.World, t: Outbox, max: nat)
    requires Workers.Inv(w, max) && Extends(w.o, t)
    ensures Workers.Inv(w.(o := t, appended := w.appended + IdsIn(t)), max)
  {
    hide Workers.Inv, Workers.AppendsOnly;
    Workers.GrowthKeepsInv(w, t, IdsIn(t), max);
  }

  // ---------------------------------------------------------------- the workers' side

  /** No worker, operator or retention brings a row with an id that was not appended, touches the
      quarantine, or moves a checkpoint. */
  lemma WorkBringsNothing(w: Workers.World, e: Workers.Event, max: nat)
    requires Workers.Inv(w, max) && Workers.Enabled(w, e) && IdsIn(w.o) <= w.appended
    ensures var t := Workers.Step(w, e, max);
            && IdsIn(t.o) <= t.appended && w.appended <= t.appended && t.o.quarantine == w.o.quarantine
            && t.o.checkpoints == if e.Appends?
               && e.source.Some? then w.o.checkpoints[e.source.value.0 := e.source.value.1]
                                  else w.o.checkpoints
  {
    hide Workers.Inv, Oldest, Chosen, Append, RecordsOf, Workers.UnsettledIds, Workers.HeldIds, Workers.DroppedIds,
         Workers.DeadWith;
    var t := Workers.Step(w, e, max);
    Workers.InvIsValid(w, max);
    if e.Appends? { AppendBrings(w.o, e.activity, e.source, e.redact, e.now); }
    if e.Settles? { SettleBringsNothing(w.o, w.batches[e.worker].records[0], w.batches[e.worker].result.value, max,
                                        e.readyAt); }
    if !e.Appends? {
      forall q | q in t.o.rows
        ensures t.o.rows[q].activity.id in IdsIn(w.o)
      {
        assert q in w.o.rows && t.o.rows[q].activity == w.o.rows[q].activity;
      }
    }
  }

  lemma SettleBringsNothing(o: Outbox, r: Record, outcome: Workers.Outcome, max: nat, at: string)
    ensures var t := Workers.Settled(o, r, outcome, max, at);
            && t == o.(rows := t.rows) && forall q :: q in t.rows ==>
               q in o.rows && t.rows[q].activity == o.rows[q].activity
  {}

  lemma AppendBrings(o: Outbox, a: Activity, source: Option<(string, Checkpoint)>, redact: string -> string,
                     now: string)
    requires Valid(o)
    ensures var t := Append(o, a, source, redact, now);
            && IdsIn(t) <= IdsIn(o) + {a.id} && t.quarantine == o.quarantine
            && t.checkpoints == if source.Some? then o.checkpoints[source.value.0 := source.value.1] else o.checkpoints
  {
    hide Valid;
    AppendMeaning(o, a, source, redact, now);
  }

  lemma WorkKeepsChannels(cfg: Config, w: Channels.World, o: Outbox, appended: set<string>, more: set<string>)
    requires ChannelsInv(cfg, w, appended) && appended <= more && IdsIn(o) <= more && o.quarantine == w.d.o.quarantine
    ensures ChannelsInv(cfg, w.(d := w.d.(o := o)), more)
  {
    hide ActivityOf, Held, IdsIn, Spooled, Unspooled;
    var t := w.(d := w.d.(o := o));
    forall c | c in t.captured
      ensures Held(cfg, t.d, more, c)
    {
      HeldLater(cfg, w.d, t.d, appended, more, c);
    }
  }

  /** One step of the workers' machine, with the backfill's checkpoint where it then stands. */
  lemma WorkKeepsInv(u: Setup, s: Spine, e: Workers.Event, fill: Backfill.World)
    requires Inv(u, s) && Workers.Enabled(s.work, e)
    requires var work := Workers.Step(s.work, e, u.max);
             Backfill.Inv(fill, u.reader) && fill.stored <= work.appended && SamePoint(work.o, u.src, fill.point)
    ensures Inv(u, Shown(s.(fill := fill), Workers.Step(s.work, e, u.max)))
  {
    hide Workers.Inv, Backfill.Inv, ChannelsInv, Workers.Step, Workers.Enabled, IdsIn, SamePoint;
    var work := Workers.Step(s.work, e, u.max);
    IdsWereAppended(u, s);
    WorkBringsNothing(s.work, e, u.max);
    Workers.StepKeepsInv(s.work, e, u.max);
    WorkKeepsChannels(u.cfg, s.channels, work.o, s.work.appended, work.appended);
  }

  lemma IdsWereAppended(u: Setup, s: Spine)
    requires Inv(u, s)
    ensures IdsIn(s.work.o) <= s.work.appended
  {
    hide Workers.Inv, Backfill.Inv, Held, IdsIn, WasAppended;
  }

  lemma WorksKeepInv(u: Setup, s: Spine, e: Event)
    requires Inv(u, s) && e.Works? && Enabled(u, s, e)
    ensures Inv(u, Step(u, s, e))
  {
    hide Workers.Inv, Backfill.Inv, ChannelsInv, Workers.Step, IdsIn;
    IdsWereAppended(u, s);
    WorkBringsNothing(s.work, e.w, u.max);
    WorkKeepsInv(u, s, e.w, s.fill);
  }

  // ---------------------------------------------------------------- the backfill's side

  lemma FillsKeepInv(u: Setup, s: Spine, e: Event)
    requires Inv(u, s) && e.Fills? && Enabled(u, s, e)
    ensures Inv(u, Step(u, s, e))
  {
    hide Workers.Inv, Backfill.Inv, ChannelsInv, Workers.Step, Backfill.Step, IdsIn, NextAppend;
    Backfill.StepKeepsInv(s.fill, e.f, u.reader);
    var fill := Backfill.Step(s.fill, e.f, u.reader);
    if e.f.AppendsNext? {
      var append := NextAppend(u, s, e.f);
      AppendStores(u, s, e.f);
      WorkKeepsInv(u, s, append, fill);
    } else {
      NothingStored(s.fill, e.f, u.reader);
    }
  }

  lemma NothingStored(w: Backfill.World, e: Backfill.Event, reader: Reader)
    requires Backfill.Enabled(w, e) && !e.AppendsNext?
    ensures Backfill.Step(w, e, reader).stored == w.stored && Backfill.Step(w, e, reader).point == w.point
  {
    hide TailOf;
  }

  /** The backfill's append is an append to the outbox, and its checkpoint is the outbox's. */
  lemma AppendStores(u: Setup, s: Spine, f: Backfill.Event)
    requires Inv(u, s) && Backfill.Enabled(s.fill, f) && f.AppendsNext?
    ensures var append, fill := NextAppend(u, s, f), Backfill.Step(s.fill, f, u.reader);
            var work := Workers.Step(s.work, append, u.max);
            && Workers.Enabled(s.work, append)
            && fill.stored <= work.appended && SamePoint(work.o, u.src, fill.point)
  {
    hide Workers.Inv, Backfill.Inv, ChannelsInv, IdsIn, Append, TailOf;
    var append := NextAppend(u, s, f);
    Workers.InvIsValid(s.work, u.max);
    AppendBrings(s.work.o, append.activity, append.source, append.redact, append.now);
  }

  // ---------------------------------------------------------------- every run

  lemma StepKeepsInv(u: Setup, s: Spine, e: Event)
    requires Inv(u, s) && Enabled(u, s, e)
    ensures Inv(u, Step(u, s, e))
  {
    hide Inv, Step, Enabled;
    match e
    case Captures(_) => CapturesKeepInv(u, s, e);
    case Fills(_) => FillsKeepInv(u, s, e);
    case Works(_) => WorksKeepInv(u, s, e);
  }

  lemma {:induction false} EveryRunKeepsInv(u: Setup, events: seq<Event>, s: Spine, file: seq<byte>)
    requires Reaches(u, events, s, file)
    ensures Inv(u, s)
    decreases |events|
  {
    hide Inv, Step, Enabled;
    if events == [] {
      StartIsSound(u, file);
    } else {
      var e := events[|events| - 1];
      var before: Spine :| Reaches(u, events[..|events| - 1], before, file) && Enabled(u, before, e)
          && s == Step(u, before, e);
      EveryRunKeepsInv(u, events[..|events| - 1], before, file);
      StepKeepsInv(u, before, e);
    }
  }

  lemma StartIsSound(u: Setup, file: seq<byte>)
    ensures Inv(u, Start(file))
  {
    hide Workers.Inv, Backfill.Inv;
    Workers.StartIsSound(u.max);
    Backfill.StartIsSound(file, u.reader);
  }

  // ---------------------------------------------------------------- main results

  /** What becomes of an id that was appended: a row, a delivery, or a deletion by content hash. */
  ghost predicate AccountedFor(w: Workers.World, id: string) {
    HasRow(w.o, id) || id in w.delivered || id in w.forgotten
  }

  ghost predicate Delivered(cfg: Config, w: Workers.World, c: Capture) {
    ActivityOf(cfg, c).Some? && AccountedFor(w, ActivityOf(cfg, c).value.id)
  }

  /** Capture end to end, over every run: a record whose hook returned is in quarantine or in the spool,
      or it has a row until an ingest returned for it or skipped it or its dead row was deleted by
      content hash; the same of what its spool file reads as. */
  lemma CapturedUntilDelivered(u: Setup, events: seq<Event>, s: Spine, file: seq<byte>, c: Capture)
    requires Reaches(u, events, s, file) && c in s.channels.captured
    ensures || Delivered(u.cfg, s.work, c)
            || Channels.InQuarantine(s.work.o, c)
            || Channels.InSpool(s.channels.d.spool, c)
            || Delivered(u.cfg, s.work, Unspooled(Spooled(c)))
  {
    hide Reaches, ActivityOf, Spooled, Unspooled, HasRow, Workers.TableInv, Workers.BatchInv, Workers.Exclusive,
         Backfill.Inv;
    EveryRunKeepsInv(u, events, s, file);
    assert Held(u.cfg, s.channels.d, s.work.appended, c);
  }

  /** The file's checkpoint in the outbox never runs ahead, over every run: it is a line boundary, the
      file reads without drift up to it, and every activity before it has a row, was delivered, or was
      deleted by content hash. */
  lemma CheckpointsNeverSkip(u: Setup, events: seq<Event>, s: Spine, file: seq<byte>, id: string)
    requires Reaches(u, events, s, file) && u.src.key in s.work.o.checkpoints
    ensures var b := s.work.o.checkpoints[u.src.key].offset;
            && Boundary(s.fill.file, b) && b <= |s.fill.file| && TailOf(s.fill.file[..b], 0, u.reader).Tail?
            && (id in Backfill.OneShot(s.fill.file[..b], u.reader) ==> AccountedFor(s.work, id))
  {
    hide Reaches, TailOf, Backfill.OneShot, ChannelsInv, HasRow, Workers.TableInv, Workers.BatchInv, Workers.Exclusive,
         Backfill.RunInv, Backfill.FromTheFile;
    EveryRunKeepsInv(u, events, s, file);
  }
}
