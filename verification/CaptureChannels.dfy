/**
 The three capture channels as one machine: hooks, a daemon that may carry out a request long after its
 hook gave up on it, and replays that may die between the append and the unlink.
 */
module CaptureChannels {
  import opened Sequences
  import opened ActivityKeys
  import opened Outbox
  import opened CaptureHook

  /** `offered` and `captured` are history: records a hook sent out, and records whose hook returned.
      `appended` are the spool files whose record a live replay has appended and not yet unlinked. */
  datatype World = World(d: Disk, offered: set<Capture>, captured: set<Capture>, appended: set<nat>)

  datatype Event =
    | Hook(c: Capture, link: Link, write: Write, file: nat)
    | LateDaemon(c: Capture, server: Server)
    | ReplayAppends(file: nat)
    | ReplayUnlinks(file: nat)
    | ReplayDies

  predicate Enabled(cfg: Config, w: World, e: Event) {
    match e
    case Hook(_, _, _, file) => file !in w.d.spool && file !in w.appended
    case LateDaemon(c, _) => c in w.offered
    case ReplayAppends(file) => file in w.d.spool && ActivityOf(cfg, Unspooled(w.d.spool[file])).Some?
    case ReplayUnlinks(file) => file in w.appended && file in w.d.spool
    case ReplayDies => true
  }

  function Step(cfg: Config, w: World, e: Event): World
    requires Enabled(cfg, w, e)
  {
    match e
    case Hook(c, link, write, file) =>
      World(CaptureOnce(cfg, w.d, c, link, write, file), w.offered + {c}, w.captured + {c}, w.appended)
    case LateDaemon(c, server) => w.(d := w.d.(o := Handle(cfg, w.d.o, server, c).0))
    case ReplayAppends(file) =>
      w.(d := w.d.(o := Append(w.d.o, ActivityOf(cfg, Unspooled(w.d.spool[file])).value, None, cfg.redact, cfg.now)),
         appended := w.appended + {file})
    case ReplayUnlinks(file) => w.(d := w.d.(spool := w.d.spool - {file}), appended := w.appended - {file})
    case ReplayDies => w.(appended := {})
  }

  function Start(): World {
    World(Disk(Fresh(), map[]), {}, {}, {})
  }

  ghost predicate Reaches(cfg: Config, events: seq<Event>, w: World)
    decreases |events|
  {
    if events == [] then w == Start()
    else
      var e := events[|events| - 1];
      exists before: World ::
          Reaches(cfg, events[..|events| - 1], before) && Enabled(cfg, before, e) && w == Step(cfg, before, e)
  }

  // ---------------------------------------------------------------- where a record can be

  ghost predicate InOutbox(cfg: Config, o: Outbox, c: Capture) {
    ActivityOf(cfg, c).Some? && HasRow(o, ActivityOf(cfg, c).value.id)
  }

  predicate InQuarantine(o: Outbox, c: Capture) {
    Quarantined(HostValue(c.host), c.raw.text, "schema_drift") in o.quarantine
  }

  ghost predicate InSpool(spool: map<nat, Envelope>, c: Capture) {
    exists f :: f in spool && spool[f] == Spooled(c)
  }

  /** The record is in the outbox, in quarantine or in the spool, or its spool file was replayed. */
  ghost predicate Kept(cfg: Config, d: Disk, c: Capture) {
    || InOutbox(cfg, d.o, c)
    || InQuarantine(d.o, c)
    || InSpool(d.spool, c)
    || InOutbox(cfg, d.o, Unspooled(Spooled(c)))
  }

  ghost predicate Inv(cfg: Config, w: World) {
    && Valid(w.d.o)
    && (forall c :: c in w.captured ==> Kept(cfg, w.d, c))
    && (forall f :: f in w.appended && f in w.d.spool ==> InOutbox(cfg, w.d.o, Unspooled(w.d.spool[f])))
  }

  /** Ids with a row keep one, and the quarantine only grows. */
  ghost predicate OnlyGrows(o: Outbox, t: Outbox) {
    && Valid(t)
    && (forall q :: q in o.rows ==> q in t.rows && t.rows[q].activity.id == o.rows[q].activity.id)
    && (forall x :: x in o.quarantine ==> x in t.quarantine)
  }

  lemma InOutboxLater(cfg: Config, o: Outbox, t: Outbox, c: Capture)
    requires InOutbox(cfg, o, c) && OnlyGrows(o, t)
    ensures InOutbox(cfg, t, c)
  {
    var q :| q in o.rows && o.rows[q].activity.id == ActivityOf(cfg, c).value.id;
    assert t.rows[q].activity.id == ActivityOf(cfg, c).value.id;
  }

  /** A kept record stays kept when the outbox grows and only replayed files leave the spool. */
  lemma KeptLater(cfg: Config, d: Disk, t: Disk, c: Capture)
    requires Kept(cfg, d, c) && OnlyGrows(d.o, t.o)
    requires forall f :: f in d.spool ==>
             (f in t.spool && t.spool[f] == d.spool[f]) || InOutbox(cfg, t.o, Unspooled(d.spool[f]))
    ensures Kept(cfg, t, c)
  {
    hide ActivityOf, Spooled, Unspooled, Valid;
    if InOutbox(cfg, d.o, c) {
      InOutboxLater(cfg, d.o, t.o, c);
    } else if InOutbox(cfg, d.o, Unspooled(Spooled(c))) {
      InOutboxLater(cfg, d.o, t.o, Unspooled(Spooled(c)));
    } else if InSpool(d.spool, c) {
      var f :| f in d.spool && d.spool[f] == Spooled(c);
      if f in t.spool && t.spool[f] == d.spool[f] { assert InSpool(t.spool, c); }
    }
  }

  lemma AppendGrows(cfg: Config, o: Outbox, a: Activity)
    requires Valid(o)
    ensures OnlyGrows(o, Append(o, a, None, cfg.redact, cfg.now))
            && HasRow(Append(o, a, None, cfg.redact, cfg.now), a.id)
    ensures Append(o, a, None, cfg.redact, cfg.now).quarantine == o.quarantine
  {
    AppendMeaning(o, a, None, cfg.redact, cfg.now);
  }

  /** The daemon's reply of 200 or 422 is never sent without the record in its outbox or quarantine. */
  lemma HandleGrows(cfg: Config, o: Outbox, server: Server, c: Capture)
    requires Valid(o)
    ensures var (t, status) := Handle(cfg, o, server, c);
            && OnlyGrows(o, t)
            && (Accepted(status) ==> InOutbox(cfg, t, c) || InQuarantine(t, c))
  {
    hide Append;
    if ActivityOf(cfg, c).Some? {
      AppendGrows(cfg, o, ActivityOf(cfg, c).value);
    } else {
      var entry := Quarantined(HostValue(c.host), c.raw.text, "schema_drift");
      assert (o.quarantine + [entry])[|o.quarantine|] == entry;
    }
  }

  lemma HookKeeps(cfg: Config, d: Disk, c: Capture, link: Link, write: Write, file: nat)
    requires Valid(d.o) && file !in d.spool
    ensures var t := CaptureOnce(cfg, d, c, link, write, file);
            && OnlyGrows(d.o, t.o) && Kept(cfg, t, c)
            && (forall f :: f in d.spool ==> f in t.spool && t.spool[f] == d.spool[f])
            && t.spool.Keys <= d.spool.Keys + {file}
  {
    hide Append, Handle, ActivityOf, Spooled, Unspooled, Accepted;
    var (o, accepted) := TryDaemon(cfg, d.o, link, c);
    if link.ReplyLost? || link.Reply? { HandleGrows(cfg, d.o, link.server, c); }
    assert OnlyGrows(d.o, o);
    if !accepted {
      var t := CaptureOnce(cfg, d, c, link, write, file);
      if ActivityOf(cfg, c).Some? { AppendGrows(cfg, o, ActivityOf(cfg, c).value); }
      if ActivityOf(cfg, c).None? || !write.Done? {
        assert t.spool[file] == Spooled(c);
        assert InSpool(t.spool, c);
      }
    }
  }

  lemma StepKeepsInv(cfg: Config, w: World, e: Event)
    requires Inv(cfg, w) && Enabled(cfg, w, e)
    ensures Inv(cfg, Step(cfg, w, e))
  {
    hide Append, Handle, CaptureOnce, ActivityOf, Kept, InOutbox, OnlyGrows, Spooled, Unspooled, Valid;
    var t := Step(cfg, w, e);
    match e {
      case Hook(c, link, write, file) =>
        HookKeeps(cfg, w.d, c, link, write, file);
        GrownIsValid(w.d.o, t.d.o);
      case LateDaemon(c, server) =>
        HandleGrows(cfg, w.d.o, server, c);
        GrownIsValid(w.d.o, t.d.o);
      case ReplayAppends(file) =>
        AppendGrows(cfg, w.d.o, ActivityOf(cfg, Unspooled(w.d.spool[file])).value);
        GrownIsValid(w.d.o, t.d.o);
        NowInOutbox(cfg, t.d.o, Unspooled(w.d.spool[file]));
      case ReplayUnlinks(file) => SameGrows(w.d.o);
      case ReplayDies => SameGrows(w.d.o);
    }
    forall c | c in w.captured
      ensures Kept(cfg, t.d, c)
    {
      KeptLater(cfg, w.d, t.d, c);
    }
    forall f | f in t.appended && f in t.d.spool
      ensures InOutbox(cfg, t.d.o, Unspooled(t.d.spool[f]))
    {
      if f in w.appended { InOutboxLater(cfg, w.d.o, t.d.o, Unspooled(w.d.spool[f])); }
    }
  }

  lemma GrownIsValid(o: Outbox, t: Outbox)
    requires OnlyGrows(o, t)
    ensures Valid(t)
  {}

  lemma SameGrows(o: Outbox)
    requires Valid(o)
    ensures OnlyGrows(o, o)
  {}

  lemma NowInOutbox(cfg: Config, o: Outbox, c: Capture)
    requires ActivityOf(cfg, c).Some? && HasRow(o, ActivityOf(cfg, c).value.id)
    ensures InOutbox(cfg, o, c)
  {}

  lemma {:induction false} EveryRunKeepsInv(cfg: Config, events: seq<Event>, w: World)
    requires Reaches(cfg, events, w)
    ensures Inv(cfg, w)
    decreases |events|
  {
    hide Inv, Step, Enabled;
    if events == [] {
      StartIsSound(cfg);
    } else {
      var e := events[|events| - 1];
      var before: World :| Reaches(cfg, events[..|events| - 1], before) && Enabled(cfg, before, e)
          && w == Step(cfg, before, e);
      EveryRunKeepsInv(cfg, events[..|events| - 1], before);
      StepKeepsInv(cfg, before, e);
    }
  }

  lemma StartIsSound(cfg: Config)
    ensures Inv(cfg, Start())
  {}

  // ---------------------------------------------------------------- what the rows say

  /** The row holds what some record came to, under the credential policy. */
  ghost predicate FromARecord(cfg: Config, a: Activity) {
    exists c :: ActivityOf(cfg, c).Some? && a == Redacted(ActivityOf(cfg, c).value, cfg.redact)
  }

  ghost predicate RowsFromRecords(cfg: Config, o: Outbox) {
    Valid(o) && forall q :: q in o.rows ==> FromARecord(cfg, o.rows[q].activity)
  }

  lemma AppendFromRecord(cfg: Config, o: Outbox, c: Capture)
    requires RowsFromRecords(cfg, o) && ActivityOf(cfg, c).Some?
    ensures RowsFromRecords(cfg, Append(o, ActivityOf(cfg, c).value, None, cfg.redact, cfg.now))
  {
    hide ActivityOf, Append, Redacted;
    AppendMeaning(o, ActivityOf(cfg, c).value, None, cfg.redact, cfg.now);
  }

  lemma HandleFromRecord(cfg: Config, o: Outbox, server: Server, c: Capture)
    requires RowsFromRecords(cfg, o)
    ensures RowsFromRecords(cfg, Handle(cfg, o, server, c).0)
  {
    hide ActivityOf, Append, FromARecord;
    if ActivityOf(cfg, c).Some? { AppendFromRecord(cfg, o, c); }
  }

  lemma HookFromRecord(cfg: Config, d: Disk, c: Capture, link: Link, write: Write, file: nat)
    requires RowsFromRecords(cfg, d.o)
    ensures RowsFromRecords(cfg, CaptureOnce(cfg, d, c, link, write, file).o)
  {
    hide ActivityOf, Append, Handle, RowsFromRecords, Accepted, Spooled;
    var (o, accepted) := TryDaemon(cfg, d.o, link, c);
    if link.ReplyLost? || link.Reply? { HandleFromRecord(cfg, d.o, link.server, c); }
    if ActivityOf(cfg, c).Some? { AppendFromRecord(cfg, o, c); }
  }

  lemma {:induction false} EveryRowIsFromARecord(cfg: Config, events: seq<Event>, w: World)
    requires Reaches(cfg, events, w)
    ensures RowsFromRecords(cfg, w.d.o)
    decreases |events|
  {
    hide ActivityOf, Append, Handle, CaptureOnce, FromARecord, Spooled, Unspooled;
    if events != [] {
      var e := events[|events| - 1];
      var before: World :| Reaches(cfg, events[..|events| - 1], before) && Enabled(cfg, before, e)
          && w == Step(cfg, before, e);
      EveryRowIsFromARecord(cfg, events[..|events| - 1], before);
      match e
      case Hook(c, link, write, file) => HookFromRecord(cfg, before.d, c, link, write, file);
      case LateDaemon(c, server) => HandleFromRecord(cfg, before.d.o, server, c);
      case ReplayAppends(file) => AppendFromRecord(cfg, before.d.o, Unspooled(before.d.spool[file]));
      case ReplayUnlinks(_) =>
      case ReplayDies =>
    }
  }

  // ---------------------------------------------------------------- main results

  /** Over every run, whichever channel brought a record first, the row that carries it says what its
      parser read in it: its session, its kind, its host, and its text under the credential policy. */
  lemma RowsSayWhatWasCaptured(cfg: Config, events: seq<Event>, w: World, c: Capture, q: nat)
    requires Digests(cfg) && Reaches(cfg, events, w) && cfg.parse(c.host, c.raw.text).Some?
    requires q in w.d.o.rows && ActivityOf(cfg, c).Some? && w.d.o.rows[q].activity.id == ActivityOf(cfg, c).value.id
    ensures var a, p := w.d.o.rows[q].activity, cfg.parse(c.host, c.raw.text).value;
            && a.session == p.session && a.kind == KindValue(p.kind) && a.host == HostValue(c.host)
            && a.text == (if p.text.None? then None else Some(cfg.redact(p.text.value)))
            && a.contentHash == a.text
  {
    EveryRowIsFromARecord(cfg, events, w);
    var a := w.d.o.rows[q].activity;
    assert FromARecord(cfg, a);
    var d :| ActivityOf(cfg, d).Some? && a == Redacted(ActivityOf(cfg, d).value, cfg.redact);
    hide Reaches, Digests;
    IdsNameRecords(cfg, d, c);
  }

  /** Whatever failed on the way, a record whose hook returned is in the outbox, the quarantine or the
      spool, or was replayed from the spool; and stays there over every later run. */
  lemma CapturedIsKept(cfg: Config, events: seq<Event>, w: World, c: Capture)
    requires Reaches(cfg, events, w) && c in w.captured
    ensures Kept(cfg, w.d, c)
  {
    hide Reaches, Kept, Valid;
    EveryRunKeepsInv(cfg, events, w);
  }

  /** A record in UTF-8 comes out of the spool as it went in, and no other record does. */
  lemma SpoolRoundTrip(c: Capture)
    ensures Unspooled(Spooled(c)) == c <==> c.raw.Utf8?
  {}

  /** The id names the record: records with equal ids are the same record. */
  lemma IdsNameRecords(cfg: Config, a: Capture, b: Capture)
    requires Digests(cfg) && ActivityOf(cfg, a).Some? && ActivityOf(cfg, b).Some?
    requires ActivityOf(cfg, a).value.id == ActivityOf(cfg, b).value.id
    ensures a == b
  {
    hide KeyText;
    var pa, pb := cfg.parse(a.host, a.raw.text).value, cfg.parse(b.host, b.raw.text).value;
    KeysAreUnambiguous(a.host, pa.session, cfg.digest(a.raw), pa.kind, b.host, pb.session, cfg.digest(b.raw), pb.kind);
  }

  /** However often a parseable UTF-8 record was sent, appended, spooled and replayed, at most one row
      of the outbox carries it, and no other record's row does. */
  lemma OneRowPerRecord(cfg: Config, events: seq<Event>, w: World, c: Capture, p: nat, q: nat)
    requires Digests(cfg) && Reaches(cfg, events, w) && c.raw.Utf8? && ActivityOf(cfg, c).Some?
    requires p in w.d.o.rows && w.d.o.rows[p].activity.id == ActivityOf(cfg, c).value.id
    requires q in w.d.o.rows
    ensures w.d.o.rows[q].activity.id == ActivityOf(cfg, Unspooled(Spooled(c))).value.id <==> p == q
    ensures forall other: Capture :: other != c && ActivityOf(cfg, other).Some? ==>
              w.d.o.rows[p].activity.id != ActivityOf(cfg, other).value.id
  {
    hide Reaches, ActivityOf, Kept, InOutbox, Digests, Spooled, Unspooled;
    EveryRunKeepsInv(cfg, events, w);
    SpoolRoundTrip(c);
    forall other: Capture | other != c && ActivityOf(cfg, other).Some?
      ensures w.d.o.rows[p].activity.id != ActivityOf(cfg, other).value.id
    {
      if ActivityOf(cfg, other).value.id == ActivityOf(cfg, c).value.id { IdsNameRecords(cfg, other, c); }
    }
  }

  /** In another encoding a record can have two rows: appended by a daemon whose reply was lost, and
      appended again when its spool file, read as UTF-8, is replayed. */
  lemma OtherEncodingsDouble(cfg: Config, d: Disk, c: Capture, file: nat)
    requires Digests(cfg) && Valid(d.o) && !c.raw.Utf8? && file !in d.spool
    requires ActivityOf(cfg, c).Some? && ActivityOf(cfg, Unspooled(Spooled(c))).Some?
    ensures var spooled := CaptureOnce(cfg, d, c, ReplyLost(Server(true, true, true, Done)), NotDone, file);
            file in spooled.spool &&
            var t := Replayed(cfg, spooled, file);
            exists p, q :: p in t.o.rows && q in t.o.rows && p != q
              && t.o.rows[p].activity.id == ActivityOf(cfg, c).value.id
              && t.o.rows[q].activity.id == ActivityOf(cfg, Unspooled(Spooled(c))).value.id
  {
    hide Append, ActivityOf, Digests;
    var twin := Unspooled(Spooled(c));
    var spooled := CaptureOnce(cfg, d, c, ReplyLost(Server(true, true, true, Done)), NotDone, file);
    AppendGrows(cfg, d.o, ActivityOf(cfg, c).value);
    AppendGrows(cfg, spooled.o, ActivityOf(cfg, twin).value);
    var t := Replayed(cfg, spooled, file);
    var p :| p in spooled.o.rows && spooled.o.rows[p].activity.id == ActivityOf(cfg, c).value.id;
    var q :| q in t.o.rows && t.o.rows[q].activity.id == ActivityOf(cfg, twin).value.id;
    if p == q { IdsNameRecords(cfg, c, twin); }
  }
}
