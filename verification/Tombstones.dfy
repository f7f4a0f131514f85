/** The durable local record of withdrawn agent shares: a max-merge table and the rule that reads it. */
module Tombstones {
  import opened Sequences
  import opened Timestamps

  /** An empty grant id marks a blanket cut of the pair. */
  datatype Key = Key(room: string, agent: string, grant: string)

  const BLANKET := ""

  datatype Row = Row(revokedAt: string, reason: Option<string>, confirmed: bool)

  /** One withdrawal as it reaches the table: its instant is already UTC text. */
  datatype Cut = Cut(key: Key, revokedAt: string, reason: Option<string>, confirmed: bool)

  type Table = map<Key, Row>

  /** Insert, or merge: the later instant with its reason, and confirmation never taken back. */
  function Record(t: Table, c: Cut): Table {
    if c.key !in t then t[c.key := Row(c.revokedAt, c.reason, c.confirmed)]
    else
      var was := t[c.key];
      t[c.key := Row(Later(was.revokedAt, c.revokedAt),
                     if Less(was.revokedAt, c.revokedAt) then c.reason else was.reason,
                     was.confirmed || c.confirmed)]
  }

  function RecordAll(t: Table, cuts: seq<Cut>): Table {
    if cuts == [] then t else Record(RecordAll(t, cuts[..|cuts| - 1]), cuts[|cuts| - 1])
  }

  // ---------------------------------------------------------------- reading it back

  datatype LocalCut = LocalCut(revokedAt: string, confirmed: bool)

  predicate BlanketCovers(t: Table, room: string, agent: string, issued: string) {
    Key(room, agent, BLANKET) in t && !Less(t[Key(room, agent, BLANKET)].revokedAt, issued)
  }

  /** The covering cut of a grant: its own row, or a blanket cut recorded at or after it was issued. */
  function CutOf(t: Table, room: string, agent: string, grant: string, issued: string): Option<LocalCut> {
    var named, blanket := Key(room, agent, grant), Key(room, agent, BLANKET);
    var covers := BlanketCovers(t, room, agent, issued);
    if named in t && covers then
      Some(LocalCut(Later(t[named].revokedAt, t[blanket].revokedAt), t[named].confirmed || t[blanket].confirmed))
    else if named in t then Some(LocalCut(t[named].revokedAt, t[named].confirmed))
    else if covers then Some(LocalCut(t[blanket].revokedAt, t[blanket].confirmed))
    else None
  }

  /** A blanket cut of the pair that does not cover a grant issued then: the ambiguous case. */
  function UncoveringBlanket(t: Table, room: string, agent: string, issued: string): Option<string> {
    var blanket := Key(room, agent, BLANKET);
    if blanket !in t || !Less(t[blanket].revokedAt, issued) then None else Some(t[blanket].revokedAt)
  }

  /** Whether there is any cut of the pair at all. */
  predicate AnyCut(t: Table, room: string, agent: string) {
    exists k :: k in t && k.room == room && k.agent == agent
  }

  // ---------------------------------------------------------------- recording is a join

  /** Recording the same withdrawal again changes nothing, the reason included. */
  lemma RecordIsIdempotent(t: Table, c: Cut)
    ensures Record(Record(t, c), c) == Record(t, c)
  {
    LessIrreflexive(c.revokedAt);
    if c.key in t { LessTotal(t[c.key].revokedAt, c.revokedAt); }
  }

  /** What a row holds after any sequence of withdrawals into an empty table. */
  lemma {:induction false} RowMeaning(cuts: seq<Cut>, key: Key)
    ensures var t := RecordAll(map[], cuts);
            && (key in t <==> exists c :: c in cuts && c.key == key)
            && (key in t ==>
                  && (exists c :: c in cuts && c.key == key && c.revokedAt == t[key].revokedAt)
                  && (forall c :: c in cuts && c.key == key ==> !Less(t[key].revokedAt, c.revokedAt))
                  && (t[key].confirmed <==> exists c :: c in cuts && c.key == key && c.confirmed))
  {
    hide Less;
    if cuts != [] {
      var front, last := cuts[..|cuts| - 1], cuts[|cuts| - 1];
      RowMeaning(front, key);
      assert cuts == front + [last];
      assert forall c :: c in cuts <==> c in front || c == last;
      var before := RecordAll(map[], front);
      if last.key == key {
        LessIrreflexive(last.revokedAt);
        if key in before { StillUpper(before[key].revokedAt, last.revokedAt, front, key); }
      }
    }
  }

  lemma StillUpper(upper: string, at: string, cuts: seq<Cut>, key: Key)
    requires forall c :: c in cuts && c.key == key ==> !Less(upper, c.revokedAt)
    ensures forall c :: c in cuts && c.key == key ==> !Less(Later(upper, at), c.revokedAt)
    ensures !Less(Later(upper, at), at)
  {
    hide Less;
    LessIrreflexive(at);
    forall c | c in cuts && c.key == key
      ensures !Less(Later(upper, at), c.revokedAt)
    {
      if Less(upper, at) && Less(at, c.revokedAt) { LessTransitive(upper, at, c.revokedAt); }
    }
  }

  /** Instants and confirmations depend on which withdrawals were recorded, not on their order or on
      how often each arrived. */
  lemma OrderDoesNotMatter(cuts: seq<Cut>, other: seq<Cut>, key: Key)
    requires forall c :: c in cuts <==> c in other
    ensures var t, u := RecordAll(map[], cuts), RecordAll(map[], other);
            && (key in t <==> key in u)
            && (key in t ==> t[key].revokedAt == u[key].revokedAt && t[key].confirmed == u[key].confirmed)
  {
    hide RecordAll, Less;
    RowMeaning(cuts, key);
    RowMeaning(other, key);
    var t, u := RecordAll(map[], cuts), RecordAll(map[], other);
    if key in t { LessTotal(t[key].revokedAt, u[key].revokedAt); }
  }

  /** The reason is not part of the join: at equal instants the first one recorded stays. */
  lemma ReasonDependsOnOrder(key: Key, at: string)
    ensures var a, b := Cut(key, at, Some("a"), false), Cut(key, at, Some("b"), false);
            RecordAll(map[], [a, b])[key].reason != RecordAll(map[], [b, a])[key].reason
  {
    LessIrreflexive(at);
    var a, b := Cut(key, at, Some("a"), false), Cut(key, at, Some("b"), false);
    assert [a, b][..1] == [a] && [b, a][..1] == [b] && [a][..0] == [] && [b][..0] == [];
    assert RecordAll(map[], [a]) == Record(map[], a) && RecordAll(map[], [b]) == Record(map[], b);
  }

  /** Which reason a row holds, exactly: that of the first withdrawal recorded with the latest instant. */
  lemma {:induction false} ReasonOfTheFirstLatest(cuts: seq<Cut>, key: Key)
    requires key in RecordAll(map[], cuts)
    ensures var row := RecordAll(map[], cuts)[key];
            exists i :: 0 <= i < |cuts| && FirstLatest(cuts, key, i)
                        && cuts[i].revokedAt == row.revokedAt && cuts[i].reason == row.reason
  {
    hide Less, FirstLatest;
    var front, last := cuts[..|cuts| - 1], cuts[|cuts| - 1];
    var before := RecordAll(map[], front);
    assert cuts == front + [last];
    RowMeaning(front, key);
    if last.key == key && (key !in before || Less(before[key].revokedAt, last.revokedAt)) {
      NewestIsFirstLatest(front, last, key);
    } else {
      ReasonOfTheFirstLatest(front, key);
      var i :| 0 <= i < |front| && FirstLatest(front, key, i) && front[i].revokedAt == before[key].revokedAt
               && front[i].reason == before[key].reason;
      StillFirstLatest(front, last, key, i);
    }
  }

  lemma NewestIsFirstLatest(front: seq<Cut>, last: Cut, key: Key)
    requires last.key == key
    requires key !in RecordAll(map[], front) || Less(RecordAll(map[], front)[key].revokedAt, last.revokedAt)
    ensures FirstLatest(front + [last], key, |front|)
  {
    hide Less, RecordAll;
    RowMeaning(front, key);
    forall j | 0 <= j < |front| && front[j].key == key
      ensures Less(front[j].revokedAt, last.revokedAt)
    {
      assert front[j] in front;
      BelowUpper(front[j].revokedAt, RecordAll(map[], front)[key].revokedAt, last.revokedAt);
    }
  }

  lemma StillFirstLatest(front: seq<Cut>, last: Cut, key: Key, i: nat)
    requires i < |front| && FirstLatest(front, key, i)
    requires last.key == key ==> !Less(front[i].revokedAt, last.revokedAt)
    ensures FirstLatest(front + [last], key, i)
  {
    hide Less;
  }

  /** `cuts[i]` is into `key`'s row, every earlier one is older, and no later one is newer. */
  ghost predicate FirstLatest(cuts: seq<Cut>, key: Key, i: nat)
    requires i < |cuts|
  {
    && cuts[i].key == key
    && (forall j :: 0 <= j < i && cuts[j].key == key ==> Less(cuts[j].revokedAt, cuts[i].revokedAt))
    && (forall j :: i < j < |cuts| && cuts[j].key == key ==> !Less(cuts[i].revokedAt, cuts[j].revokedAt))
  }

  lemma BelowUpper(a: string, upper: string, b: string)
    requires !Less(upper, a) && Less(upper, b)
    ensures Less(a, b)
  {
    LessTotal(a, upper);
    if a != upper { LessTransitive(a, upper, b); }
  }

  /** Whether the server confirmed a withdrawal that reaches the grant: what a reader is told of. */
  ghost predicate CoveringCutConfirmed(cuts: seq<Cut>, room: string, agent: string, grant: string, issued: string) {
    exists c :: c in cuts && c.confirmed && Covers(c, room, agent, grant, issued)
  }

  /** The blanket row covers, and a blanket cut from before the grant was issued had been confirmed. */
  ghost predicate ConfirmedBefore(cuts: seq<Cut>, room: string, agent: string, issued: string) {
    && BlanketCovers(RecordAll(map[], cuts), room, agent, issued)
    && exists c :: c in cuts && c.confirmed && c.key == Key(room, agent, BLANKET) && Less(c.revokedAt, issued)
  }

  /** What `confirmed` means, exactly: a covering cut was confirmed, or the blanket row covers and carries
      the confirmation of a cut from before the grant was issued. */
  lemma ConfirmedMeaning(cuts: seq<Cut>, room: string, agent: string, grant: string, issued: string)
    ensures var read := CutOf(RecordAll(map[], cuts), room, agent, grant, issued);
            read.Some? ==>
              (read.value.confirmed <==>
                 CoveringCutConfirmed(cuts, room, agent, grant, issued) || ConfirmedBefore(cuts, room, agent, issued))
  {
    hide Less, Later, RecordAll;
    var named, blanket := Key(room, agent, grant), Key(room, agent, BLANKET);
    RowMeaning(cuts, named);
    RowMeaning(cuts, blanket);
    var t := RecordAll(map[], cuts);
    forall c | c in cuts && c.confirmed && Covers(c, room, agent, grant, issued)
      ensures c.key == named || (c.key == blanket && BlanketCovers(t, room, agent, issued))
    {
      if c.key == blanket && c.key != named { UpperCovers(t[blanket].revokedAt, c.revokedAt, issued); }
    }
  }

  lemma UpperCovers(upper: string, at: string, issued: string)
    requires !Less(upper, at) && !Less(at, issued)
    ensures !Less(upper, issued)
  {
    hide Less;
    NotEarlier(issued, at, upper);
  }

  /** That it can be the second alone: a blanket cut the server never confirmed reads as confirmed when an
      earlier one of the pair was. */
  lemma ConfirmationOutlivesItsCut(room: string, agent: string, grant: string, first: string, second: string,
                                   reason: Option<string>)
    requires grant != BLANKET && Less(first, second)
    ensures var key := Key(room, agent, BLANKET);
            var cuts := [Cut(key, first, reason, true), Cut(key, second, reason, false)];
            && CutOf(RecordAll(map[], cuts), room, agent, grant, second) == Some(LocalCut(second, true))
            && !CoveringCutConfirmed(cuts, room, agent, grant, second)
  {
    var key := Key(room, agent, BLANKET);
    var a, b := Cut(key, first, reason, true), Cut(key, second, reason, false);
    LessIrreflexive(second);
    assert [a, b][..1] == [a] && [a][..0] == [];
    assert RecordAll(map[], [a]) == Record(map[], a);
    assert RecordAll(map[], [a, b]) == Record(Record(map[], a), b);
  }

  // ---------------------------------------------------------------- withdrawal is never undone

  /** Whether this withdrawal reaches that grant. */
  predicate Covers(c: Cut, room: string, agent: string, grant: string, issued: string) {
    c.key.room == room && c.key.agent == agent
    && (c.key.grant == grant || (c.key.grant == BLANKET && !Less(c.revokedAt, issued)))
  }

  /** A grant is cut exactly when it was before or the new withdrawal covers it: a later re-share that
      no withdrawal covers stays live. */
  lemma CutExactlyWhenCovered(t: Table, c: Cut, room: string, agent: string, grant: string, issued: string)
    ensures CutOf(Record(t, c), room, agent, grant, issued).Some?
            <==> CutOf(t, room, agent, grant, issued).Some? || Covers(c, room, agent, grant, issued)
  {
    hide Less;
    var blanket := Key(room, agent, BLANKET);
    if c.key == blanket && blanket in t { LaterReaches(t[blanket].revokedAt, c.revokedAt, issued); }
  }

  lemma LaterReaches(a: string, b: string, issued: string)
    ensures !Less(Later(a, b), issued) <==> !Less(a, issued) || !Less(b, issued)
  {
    hide Less;
    if Less(a, b) {
      if Less(b, issued) { LessTransitive(a, b, issued); }
    } else {
      LessTotal(a, b);
      if Less(a, issued) && a != b { LessTransitive(b, a, issued); }
    }
  }

  /** Once a grant is cut it stays cut, its instant never goes back and a confirmation stays. */
  lemma CutOnlyGrows(t: Table, c: Cut, room: string, agent: string, grant: string, issued: string)
    requires CutOf(t, room, agent, grant, issued).Some?
    ensures var before, after := CutOf(t, room, agent, grant, issued), CutOf(Record(t, c), room, agent, grant, issued);
            after.Some? && !Less(after.value.revokedAt, before.value.revokedAt)
            && (before.value.confirmed ==> after.value.confirmed)
  {
    hide Less, Later;
    CutExactlyWhenCovered(t, c, room, agent, grant, issued);
    var named, blanket := Key(room, agent, grant), Key(room, agent, BLANKET);
    var u := Record(t, c);
    assert named in t ==>
        named in u && (u[named].revokedAt == t[named].revokedAt
                       || u[named].revokedAt == Later(t[named].revokedAt, c.revokedAt));
    assert blanket in t ==>
        blanket in u && (u[blanket].revokedAt == t[blanket].revokedAt
                         || u[blanket].revokedAt == Later(t[blanket].revokedAt, c.revokedAt));
    if named in t { LaterIsUpper(t[named].revokedAt, c.revokedAt); LessIrreflexive(t[named].revokedAt); }
    if blanket in t { LaterIsUpper(t[blanket].revokedAt, c.revokedAt); LessIrreflexive(t[blanket].revokedAt); }
    CutOfIsUpper(t, room, agent, grant, issued);
    CutOfIsUpper(u, room, agent, grant, issued);
    if BlanketCovers(t, room, agent, issued) { BlanketStillCovers(t, c, room, agent, issued); }
    var before, after := CutOf(t, room, agent, grant, issued).value, CutOf(u, room, agent, grant, issued).value;
    var source := if named in t && before.revokedAt == t[named].revokedAt then named else blanket;
    NotEarlier(before.revokedAt, u[source].revokedAt, after.revokedAt);
  }

  lemma BlanketStillCovers(t: Table, c: Cut, room: string, agent: string, issued: string)
    requires BlanketCovers(t, room, agent, issued)
    ensures BlanketCovers(Record(t, c), room, agent, issued)
  {
    hide Less;
    LaterReaches(t[Key(room, agent, BLANKET)].revokedAt, c.revokedAt, issued);
  }

  lemma LaterIsUpper(a: string, b: string)
    ensures !Less(Later(a, b), a) && !Less(Later(a, b), b)
  {
    hide Less;
    LessIrreflexive(a);
    LessIrreflexive(b);
    if Less(a, b) && Less(b, a) { LessTransitive(a, b, a); }
  }

  lemma NotEarlier(a: string, b: string, c: string)
    requires !Less(b, a) && !Less(c, b)
    ensures !Less(c, a)
  {
    hide Less;
    LessTotal(a, b);
    LessTotal(b, c);
    if Less(c, a) {
      if a == b {} else if b == c {} else { LessTransitive(b, c, a); }
    }
  }

  /** The reported instant is a covering row's and no covering row has a later one. */
  lemma CutOfIsUpper(t: Table, room: string, agent: string, grant: string, issued: string)
    requires CutOf(t, room, agent, grant, issued).Some?
    ensures var at := CutOf(t, room, agent, grant, issued).value.revokedAt;
            var named, blanket := Key(room, agent, grant), Key(room, agent, BLANKET);
            && (named in t ==> !Less(at, t[named].revokedAt))
            && (BlanketCovers(t, room, agent, issued) ==> !Less(at, t[blanket].revokedAt))
            && ((named in t && at == t[named].revokedAt)
                || (BlanketCovers(t, room, agent, issued) && at == t[blanket].revokedAt))
  {
    hide Less;
    var named, blanket := Key(room, agent, grant), Key(room, agent, BLANKET);
    if named in t { LessIrreflexive(t[named].revokedAt); }
    if blanket in t { LessIrreflexive(t[blanket].revokedAt); }
    if named in t && blanket in t { LaterIsUpper(t[named].revokedAt, t[blanket].revokedAt); }
  }

  /** A blanket cut either covers a grant or is reported as not covering it. */
  lemma BlanketIsNeverSilent(t: Table, room: string, agent: string, issued: string)
    requires Key(room, agent, BLANKET) in t
    ensures BlanketCovers(t, room, agent, issued) <==> UncoveringBlanket(t, room, agent, issued).None?
    ensures UncoveringBlanket(t, room, agent, issued).Some? ==>
              UncoveringBlanket(t, room, agent, issued).value == t[Key(room, agent, BLANKET)].revokedAt
  {}

  /** In time: a blanket cut at one instant covers a grant issued at another unless it came before. */
  lemma BlanketCoversInTime(t: Table, room: string, agent: string, cut: Instant, issued: Instant)
    requires Key(room, agent, BLANKET) in t && t[Key(room, agent, BLANKET)].revokedAt == Iso(cut)
    ensures BlanketCovers(t, room, agent, Iso(issued)) <==> !Before(cut, issued)
  {
    hide Less, Iso, Before;
    TextOrderIsTimeOrder(cut, issued);
  }

  // ---------------------------------------------------------------- the store

  class GrantTombstones {
    var rows: Table

    constructor ()
      ensures rows == map[]
    {
      rows := map[];
    }

    /** Refuses a datetime without a zone before anything is written. */
    method RecordCut(key: Key, revokedAt: Moment, reason: Option<string>, confirmed: bool) returns (written: bool)
      modifies this
      ensures written <==> revokedAt.Aware?
      ensures rows == if written then Record(old(rows), Cut(key, Iso(revokedAt.utc), reason, confirmed)) else old(rows)
    {
      hide Less, Iso;
      var at := UtcText(revokedAt);
      if at.None? { return false; }
      if key in rows {
        var row := rows[key];
        var newer := Less(row.revokedAt, at.value);
        rows := rows[key := Row(if newer then at.value else row.revokedAt, if newer then reason else row.reason,
                                row.confirmed || confirmed)];
      } else {
        rows := rows[key := Row(at.value, reason, confirmed)];
      }
      written := true;
    }

    method IsCut(room: string, agent: string, grant: string, issued: Instant) returns (cut: bool)
      ensures cut <==> CutOf(rows, room, agent, grant, Iso(issued)).Some?
    {
      cut := Key(room, agent, grant) in rows || BlanketCovers(rows, room, agent, Iso(issued));
    }
  }
}
