/** Withdrawing an agent share: the local cut comes first, whatever the server does. */
module Consent {
  import opened Sequences
  import opened Timestamps
  import opened Tombstones

  /** A grant as the server reports it. Its id is never empty. */
  datatype Grant = Grant(grantId: string, issuedAt: Instant, active: bool)

  type GrantView = g: Grant | g.grantId != "" witness Grant("g", Fields(2000, 1, 1, 0, 0, 0, 0), true)

  /** What asking the server for the grant comes to: a grant, its 404, no answer from the server, or
      something that cannot be read (an issue instant without a zone included). */
  datatype Read = Granted(grant: GrantView) | NoGrant | Unreachable | Unreadable

  /** What the server's leg of a revoke comes to. */
  datatype Leg = Receipt | NothingLive | NotReached | Raised

  // ---------------------------------------------------------------- what the device shows

  /** `confirmed` is whether the server confirmed the cut, when there is one. */
  datatype Status = Status(grant: Option<GrantView>, locallyRevoked: bool, serverUnreachable: bool,
                           confirmed: Option<bool>, uncovering: Option<string>)
  {
    /** A local cut wins over a server that still says active. */
    predicate EffectivelyLive() {
      grant.Some? && grant.value.active && !locallyRevoked
    }
  }

  /** `None` when the answer cannot be read: that error goes to the caller. */
  ghost function Describe(t: Table, room: string, agent: string, read: Read): Option<Status> {
    match read
    case Unreadable => None
    case Unreachable => Some(Status(None, AnyCut(t, room, agent), true, AnyConfirmed(t, room, agent), None))
    case NoGrant => Some(Status(None, AnyCut(t, room, agent), false, AnyConfirmed(t, room, agent), None))
    case Granted(g) =>
      var issued := Iso(g.issuedAt);
      var cut := CutOf(t, room, agent, g.grantId, issued);
      Some(Status(Some(g), cut.Some?, false, if cut.Some? then Some(cut.value.confirmed) else None,
                  UncoveringBlanket(t, room, agent, issued)))
  }

  /** Whether any cut of the pair was confirmed, when there is one at all. */
  ghost function AnyConfirmed(t: Table, room: string, agent: string): Option<bool> {
    if !AnyCut(t, room, agent) then None
    else Some(exists k :: k in t && k.room == room && k.agent == agent && t[k].confirmed)
  }

  // ---------------------------------------------------------------- revoke

  datatype Outcome =
    | BadReason
    | NaiveClock
    | LegRaised
    | Revoked(grantId: string, cutAt: Instant, serverConfirmed: bool, serverFailed: bool)

  /** The grant read, or the blanket sentinel when none was. */
  function CutKey(room: string, agent: string, read: Read): Key {
    Key(room, agent, if read.Granted? then read.grant.grantId else BLANKET)
  }

  function CutFor(room: string, agent: string, read: Read, at: Instant, reason: Option<string>): Cut {
    Cut(CutKey(room, agent, read), Iso(at), reason, false)
  }

  predicate Confirms(leg: Leg) {
    leg == Receipt || leg == NothingLive
  }

  function RevokedTable(t: Table, room: string, agent: string, read: Read, at: Instant, reason: Option<string>,
                        leg: Leg): Table {
    var cut := CutFor(room, agent, read, at, reason);
    if Confirms(leg) then Record(Record(t, cut), cut.(confirmed := true)) else Record(t, cut)
  }

  /** The revoke as it runs. `named` says whether the reason is a name, which is checked first. */
  method Revoke(store: GrantTombstones, room: string, agent: string, reason: Option<string>, named: bool,
                read: Read, clock: Moment, leg: Leg) returns (outcome: Outcome)
    modifies store
    ensures outcome.BadReason? <==> !named
    ensures outcome.NaiveClock? <==> named && clock.Naive?
    ensures outcome.Revoked? ==>
              && (outcome.serverConfirmed <==> leg == Receipt || leg == NothingLive)
              && (outcome.serverFailed <==> leg == NotReached)
              && outcome.grantId == if read.Granted? then read.grant.grantId else ""
    ensures store.rows == if named
            && clock.Aware? then RevokedTable(old(store.rows), room, agent, read, clock.utc, reason, leg)
                          else old(store.rows)
    ensures named && clock.Aware? ==>
              outcome == if leg == Raised then LegRaised
                         else Revoked(CutKey(room, agent, read).grant, clock.utc, Confirms(leg), leg == NotReached)
  {
    hide Less, Iso, Record;
    if !named { return BadReason; }
    var grant: Option<GrantView> := None;
    var readFailed := false;
    match read {
      case Granted(g) => grant := Some(g);
      case NoGrant =>
      case Unreachable => readFailed := true;
      case Unreadable => readFailed := true;
    }
    var grantId := if grant.Some? then grant.value.grantId else BLANKET;
    var key := Key(room, agent, grantId);
    var written := store.RecordCut(key, clock, reason, false);
    if !written { return NaiveClock; }
    var serverConfirmed, serverFailed := false, readFailed;
    match leg {
      case Receipt => serverConfirmed, serverFailed := true, false;
      case NothingLive => serverConfirmed, serverFailed := true, false;
      case NotReached => serverFailed := true;
      case Raised => return LegRaised;
    }
    if serverConfirmed {
      var _ := store.RecordCut(key, clock, reason, true);
    }
    outcome := Revoked(grantId, clock.utc, serverConfirmed, serverFailed);
  }

  /** What a finished revoke leaves behind: one row, of the grant it read or of the pair as a whole, at the
      later of its own instant and the one on file and with the reason of that; confirmed when a receipt or
      the news that nothing was live came back, or when it already was. */
  lemma RevokeLeavesOneRow(t: Table, room: string, agent: string, read: Read, at: Instant, reason: Option<string>,
                           leg: Leg)
    ensures var u := RevokedTable(t, room, agent, read, at, reason, leg);
            var key := Key(room, agent, if read.Granted? then read.grant.grantId else "");
            && u.Keys == t.Keys + {key}
            && (forall k :: k in t && k != key ==> u[k] == t[k])
            && (u[key].confirmed <==> leg == Receipt || leg == NothingLive || (key in t && t[key].confirmed))
            && (key !in t || Less(t[key].revokedAt, Iso(at)) ==>
                  u[key].revokedAt == Iso(at) && u[key].reason == reason)
            && (key in t && !Less(t[key].revokedAt, Iso(at)) ==>
                  u[key].revokedAt == t[key].revokedAt && u[key].reason == t[key].reason)
  {
    hide Less, Iso;
    LessIrreflexive(Iso(at));
  }

  // ---------------------------------------------------------------- what a cut promises

  /** The grants a revoke's first write reaches. */
  predicate Reaches(read: Read, at: Instant, g: GrantView) {
    if read.Granted? then g.grantId == read.grant.grantId else !Before(at, g.issuedAt)
  }

  lemma ReachesCovers(room: string, agent: string, read: Read, at: Instant, reason: Option<string>, g: GrantView)
    requires Reaches(read, at, g)
    ensures Covers(CutFor(room, agent, read, at, reason), room, agent, g.grantId, Iso(g.issuedAt))
  {
    hide Less, Iso, Before;
    TextOrderIsTimeOrder(at, g.issuedAt);
  }

  lemma {:induction false} CutStays(t: Table, later: seq<Cut>, room: string, agent: string, grant: string,
                                    issued: string)
    requires CutOf(t, room, agent, grant, issued).Some?
    ensures CutOf(RecordAll(t, later), room, agent, grant, issued).Some?
  {
    hide Less, CutOf, Record;
    if later != [] {
      CutStays(t, later[..|later| - 1], room, agent, grant, issued);
      CutExactlyWhenCovered(RecordAll(t, later[..|later| - 1]), later[|later| - 1], room, agent, grant, issued);
    }
  }

  /** Main result. From a revoke's first write on, whatever the server's leg comes to and whatever is
      recorded later, a grant the cut reaches is never shown as live, however the server answers. */
  lemma NeverShownLiveAgain(t: Table, room: string, agent: string, read: Read, at: Instant, reason: Option<string>,
                            later: seq<Cut>, g: GrantView)
    requires Reaches(read, at, g)
    ensures var after := RecordAll(Record(t, CutFor(room, agent, read, at, reason)), later);
            var status := Describe(after, room, agent, Granted(g));
            status.Some? && status.value.locallyRevoked && !status.value.EffectivelyLive()
  {
    hide Less, Iso, Before, CutOf, Record, RecordAll;
    var cut := CutFor(room, agent, read, at, reason);
    ReachesCovers(room, agent, read, at, reason, g);
    CutExactlyWhenCovered(t, cut, room, agent, g.grantId, Iso(g.issuedAt));
    CutStays(Record(t, cut), later, room, agent, g.grantId, Iso(g.issuedAt));
  }

  /** The finished revoke is that first write and, when the server confirmed, one more. */
  lemma RevokeStartsWithTheCut(t: Table, room: string, agent: string, read: Read, at: Instant, reason: Option<string>,
                               leg: Leg)
    ensures var cut := CutFor(room, agent, read, at, reason);
            RevokedTable(t, room, agent, read, at, reason, leg)
            == RecordAll(Record(t, cut), if Confirms(leg) then [cut.(confirmed := true)] else [])
  {
    hide Less, Iso, Record;
    var cut := CutFor(room, agent, read, at, reason);
    assert [cut.(confirmed := true)][..0] == [];
  }

  /** A later share is not swallowed: a grant the device had not cut and this revoke does not reach is
      shown live exactly when the server says it is; after a cut of the whole pair the ambiguity is told. */
  lemma ReShareStaysLive(t: Table, room: string, agent: string, read: Read, at: Instant, reason: Option<string>,
                         leg: Leg, g: GrantView)
    requires !Reaches(read, at, g)
    requires CutOf(t, room, agent, g.grantId, Iso(g.issuedAt)).None?
    ensures var status := Describe(RevokedTable(t, room, agent, read, at, reason, leg), room, agent, Granted(g));
            && status.Some? && (status.value.EffectivelyLive() <==> g.active)
            && (!read.Granted? ==> status.value.uncovering.Some?)
  {
    RevokeLeavesOneRow(t, room, agent, read, at, reason, leg);
    NoCutNoBlanket(RevokedTable(t, room, agent, read, at, reason, leg), room, agent, g.grantId, Iso(g.issuedAt));
    hide Less, Iso, Before, CutOf, Record, UncoveringBlanket;
    var cut := CutFor(room, agent, read, at, reason);
    TextOrderIsTimeOrder(at, g.issuedAt);
    CutExactlyWhenCovered(t, cut, room, agent, g.grantId, Iso(g.issuedAt));
    CutExactlyWhenCovered(Record(t, cut), cut.(confirmed := true), room, agent, g.grantId, Iso(g.issuedAt));
  }

  lemma NoCutNoBlanket(t: Table, room: string, agent: string, grant: string, issued: string)
    ensures CutOf(t, room, agent, grant, issued).None? && Key(room, agent, BLANKET) in t ==>
              UncoveringBlanket(t, room, agent, issued).Some?
  {}

  /** When the server cannot be asked, or has no grant, the device answers from its own record: it shows a
      withdrawal exactly when one of the pair was recorded, and as confirmed exactly when the server confirmed
      one of them. */
  lemma OfflineReadsRememberTheCut(cuts: seq<Cut>, room: string, agent: string, read: Read)
    requires read == NoGrant || read == Unreachable
    ensures var status := Describe(RecordAll(map[], cuts), room, agent, read);
            && status.Some? && status.value.grant.None? && !status.value.EffectivelyLive()
            && (status.value.serverUnreachable <==> read == Unreachable)
            && (status.value.locallyRevoked <==> exists c :: c in cuts && OfPair(c, room, agent))
            && (status.value.confirmed.Some? <==> status.value.locallyRevoked)
            && (status.value.confirmed == Some(true) <==>
                exists c :: c in cuts && OfPair(c, room, agent) && c.confirmed)
  {
    hide Less, RecordAll;
    var t := RecordAll(map[], cuts);
    forall k
      ensures k in t <==> exists c :: c in cuts && c.key == k
      ensures k in t ==> (t[k].confirmed <==> exists c :: c in cuts && c.key == k && c.confirmed)
    {
      RowMeaning(cuts, k);
    }
    forall c | c in cuts && OfPair(c, room, agent)
      ensures c.key in t && AnyCut(t, room, agent)
    {}
  }

  predicate OfPair(c: Cut, room: string, agent: string) {
    c.key.room == room && c.key.agent == agent
  }
}
