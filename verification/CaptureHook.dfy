/**
 One hook invocation hands its record to the daemon, or else appends it to the outbox itself, or else
 spools it; a replay later moves spooled records into the outbox. Whatever fails on the way, the record
 stays somewhere, and all three channels give it the same id.
 */
module CaptureHook {
  import opened Sequences
  import opened ActivityKeys
  import opened Outbox

  /** The bytes of a record: its text in UTF-8, or another encoding of it that reads as `lossy` when
      taken for UTF-8 with replacement characters. */
  datatype Raw = Utf8(text: string) | OtherEncoding(text: string, lossy: string)

  datatype Capture = Capture(host: HostKind, raw: Raw)

  datatype Parsed = Parsed(kind: ActivityKind, session: string, text: Option<string>)

  /** `parse` is `None` for a record no parser of its host recognises. `digest` names the bytes. */
  datatype Config = Config(parse: (HostKind, string) -> Option<Parsed>, digest: Raw -> string,
                           redact: string -> string, now: string)

  /** The digest tells records apart and holds no bar, as a hexadecimal SHA-256 does. */
  ghost predicate Digests(cfg: Config) {
    && (forall a, b :: cfg.digest(a) == cfg.digest(b) ==> a == b)
    && (forall a :: NoBar(cfg.digest(a)))
  }

  function ActivityOf(cfg: Config, c: Capture): Option<Activity> {
    match cfg.parse(c.host, c.raw.text)
    case None => None
    case Some(p) =>
      Some(Activity(KeyText(c.host, p.session, cfg.digest(c.raw), p.kind), HostValue(c.host), KindValue(p.kind),
                    p.session, p.text, p.text))
  }

  /** A spool file holds the host and the record read as UTF-8. */
  datatype Envelope = Envelope(host: HostKind, text: string)

  function Spooled(c: Capture): Envelope {
    Envelope(c.host, match c.raw case Utf8(text) => text case OtherEncoding(_, lossy) => lossy)
  }

  /** The record a replay reads back from a spool file. */
  function Unspooled(e: Envelope): Capture {
    Capture(e.host, Utf8(e.text))
  }

  // ---------------------------------------------------------------- the daemon's side

  /** What becomes of one write: done, not done, or done although an error was raised. */
  datatype Write = Done | NotDone | DoneButRaised

  /** How the server meets the request, in the order it checks. */
  datatype Server = Server(peerIsSelf: bool, accepting: bool, fits: bool, write: Write)

  function RouteCapture(cfg: Config, o: Outbox, c: Capture): (Outbox, nat) {
    match ActivityOf(cfg, c)
    case None => (Quarantine(o, Quarantined(HostValue(c.host), c.raw.text, "schema_drift")), 422)
    case Some(a) => (Append(o, a, None, cfg.redact, cfg.now), 200)
  }

  function Handle(cfg: Config, o: Outbox, server: Server, c: Capture): (Outbox, nat) {
    if !server.peerIsSelf then (o, 401)
    else if !server.accepting then (o, 503)
    else if !server.fits then (o, 413)
    else match server.write
      case Done => RouteCapture(cfg, o, c)
      case NotDone => (o, 500)
      case DoneButRaised => (RouteCapture(cfg, o, c).0, 500)
  }

  /** The daemon's socket server, as far as captures go. */
  class IpcServer {
    var o: Outbox
    var accepting: bool

    constructor (o: Outbox)
      ensures this.o == o && accepting
    {
      this.o, accepting := o, true;
    }

    /** Ordered shutdown, step one. */
    method StopAccepting()
      modifies this`accepting
      ensures !accepting
    {
      accepting := false;
    }

    /** One capture request: every refusal is answered by name and leaves the outbox alone. */
    method HandleCapture(cfg: Config, peerIsSelf: bool, fits: bool, write: Write, c: Capture) returns (status: nat)
      modifies this`o
      ensures (o, status) == Handle(cfg, old(o), Server(peerIsSelf, accepting, fits, write), c)
      ensures status !in {200, 422} && write != DoneButRaised ==> o == old(o)
      ensures !accepting ==> o == old(o) && status in {401, 503}
      ensures status == 401 <==> !peerIsSelf
      ensures status == 503 <==> peerIsSelf && !accepting
      ensures status == 413 <==> peerIsSelf && accepting && !fits
      ensures status == 500 <==> peerIsSelf && accepting && fits && write != Done
      ensures status == 422 <==> peerIsSelf && accepting && fits && write == Done && cfg.parse(c.host, c.raw.text).None?
    {
      if !peerIsSelf { return 401; }
      if !accepting { return 503; }
      if !fits { return 413; }
      if write.NotDone? { return 500; }
      var activity := ActivityOf(cfg, c);
      if activity.None? {
        o := Quarantine(o, Quarantined(HostValue(c.host), c.raw.text, "schema_drift"));
        status := 422;
      } else {
        o := Append(o, activity.value, None, cfg.redact, cfg.now);
        status := 200;
      }
      if write.DoneButRaised? { status := 500; }
    }
  }

  // ---------------------------------------------------------------- the hook's side

  /** What becomes of the request and of its reply. */
  datatype Link = NoSocket | NoConnection | RequestLost | ReplyLost(server: Server) | Reply(server: Server)

  predicate Accepted(status: nat) {
    status == 200 || status == 422
  }

  /** The outbox after the exchange, and whether the daemon is known to hold the record. */
  function TryDaemon(cfg: Config, o: Outbox, link: Link, c: Capture): (Outbox, bool) {
    match link
    case ReplyLost(server) => (Handle(cfg, o, server, c).0, false)
    case Reply(server) => (Handle(cfg, o, server, c).0, Accepted(Handle(cfg, o, server, c).1))
    case _ => (o, false)
  }

  /** What is on disk: the outbox with its quarantine, and the spool. */
  datatype Disk = Disk(o: Outbox, spool: map<nat, Envelope>)

  function DirectAppendOrSpool(cfg: Config, d: Disk, c: Capture, write: Write, file: nat): Disk {
    var spooled := d.(spool := d.spool[file := Spooled(c)]);
    match ActivityOf(cfg, c)
    case None => spooled
    case Some(a) =>
      match write
      case Done => d.(o := Append(d.o, a, None, cfg.redact, cfg.now))
      case NotDone => spooled
      case DoneButRaised => spooled.(o := Append(d.o, a, None, cfg.redact, cfg.now))
  }

  function CaptureOnce(cfg: Config, d: Disk, c: Capture, link: Link, write: Write, file: nat): Disk {
    var (o, accepted) := TryDaemon(cfg, d.o, link, c);
    if accepted then d.(o := o) else DirectAppendOrSpool(cfg, d.(o := o), c, write, file)
  }

  /** The hook as it runs: early returns, then the fallbacks in order. */
  method RunHook(cfg: Config, d: Disk, c: Capture, link: Link, write: Write, file: nat) returns (after: Disk)
    ensures after == CaptureOnce(cfg, d, c, link, write, file)
  {
    after := d;
    if !link.NoSocket? && !link.NoConnection? && !link.RequestLost? {
      var (o, status) := Handle(cfg, d.o, link.server, c);
      after := after.(o := o);
      if link.Reply? && (status == 200 || status == 422) { return; }
    }
    var activity := ActivityOf(cfg, c);
    if activity.Some? && !write.NotDone? {
      after := after.(o := Append(after.o, activity.value, None, cfg.redact, cfg.now));
      if write.Done? { return; }
    }
    after := after.(spool := after.spool[file := Spooled(c)]);
  }

  // ---------------------------------------------------------------- replay

  /** Replaying one file: append, then unlink. A file that still drifts stays. */
  function Replayed(cfg: Config, d: Disk, file: nat): Disk
    requires file in d.spool
  {
    match ActivityOf(cfg, Unspooled(d.spool[file]))
    case None => d
    case Some(a) => Disk(Append(d.o, a, None, cfg.redact, cfg.now), d.spool - {file})
  }

  function ReplayFrom(cfg: Config, d: Disk, files: seq<nat>): Disk
    requires Distinct(files) && forall f :: f in files ==> f in d.spool
    decreases |files|
  {
    if files == [] then d
    else
      assert Distinct(files[1..]);
      assert forall f :: f in files[1..] ==> f in Replayed(cfg, d, files[0]).spool;
      ReplayFrom(cfg, Replayed(cfg, d, files[0]), files[1..])
  }

  /** Half-way through a replay, with the files in `rest` still to come. */
  ghost predicate Replaying(cfg: Config, d: Disk, now: Disk, rest: seq<nat>, replayed: nat) {
    && Distinct(rest) && (forall f :: f in rest ==> f in now.spool)
    && (forall f :: f in now.spool ==> f in d.spool && now.spool[f] == d.spool[f])
    && (forall f :: f in d.spool && f !in rest ==> (f in now.spool <==> ActivityOf(cfg, Unspooled(d.spool[f])).None?))
    && replayed + |now.spool| == |d.spool|
  }

  lemma ReplayStep(cfg: Config, d: Disk, now: Disk, rest: seq<nat>, replayed: nat)
    requires Replaying(cfg, d, now, rest, replayed) && rest != []
    ensures var activity := ActivityOf(cfg, Unspooled(now.spool[rest[0]]));
            Replaying(cfg, d, Replayed(cfg, now, rest[0]), rest[1..], replayed + (if activity.Some? then 1 else 0))
  {
    hide Append, ActivityOf;
    var next := Replayed(cfg, now, rest[0]);
    assert rest == [rest[0]] + rest[1..];
    DistinctTail(rest[0], rest[1..]);
    assert |now.spool - {rest[0]}| == |now.spool| - 1;
  }

  /** The replay loop: what no longer drifts leaves the spool, one file at a time. */
  method ReplaySpool(cfg: Config, d: Disk, files: seq<nat>) returns (after: Disk, replayed: nat)
    requires Distinct(files) && ToSet(files) == d.spool.Keys
    ensures after == ReplayFrom(cfg, d, files)
    ensures forall f :: f in after.spool <==> f in d.spool && ActivityOf(cfg, Unspooled(d.spool[f])).None?
    ensures replayed == |d.spool| - |after.spool|
  {
    hide Append, ActivityOf, Distinct, Unspooled;
    after, replayed := d, 0;
    var rest := files;
    while rest != []
      invariant Replaying(cfg, d, after, rest, replayed)
      invariant ReplayFrom(cfg, after, rest) == ReplayFrom(cfg, d, files)
      decreases |rest|
    {
      ReplayStep(cfg, d, after, rest, replayed);
      var activity := ActivityOf(cfg, Unspooled(after.spool[rest[0]]));
      if activity.Some? {
        after := Disk(Append(after.o, activity.value, None, cfg.redact, cfg.now), after.spool - {rest[0]});
        replayed := replayed + 1;
      }
      rest := rest[1..];
    }
  }
}
