/**
 The sweep lease across processes. A row per user prefix names the holding process and when its window
 ends; acquiring and renewing read the clock in one step and write the row in a later one, and holders
 may stall or crash anywhere.
 */
module Lease {
  import opened Sequences

  datatype LeaseRow = LeaseRow(pid: nat, expires: int)

  /** An acquire before its transaction, or holding a window that ends at `until`, with the expiry a
      renewal under way is about to write. */
  datatype Phase = Trying(now: int) | Holding(until: int, renewal: Option<int>)

  /** `began` and `renewing` are history: the clock when the acquire or renewal was begun that the window
      was last written for, and when the renewal under way was begun. */
  datatype Acquirer = Acquirer(pid: nat, prefix: string, phase: Phase, began: int, renewing: int)

  /** `written` is history: the clock at the last write to each prefix's row. */
  datatype Leases = Leases(clock: int, rows: map<string, LeaseRow>, acquirers: map<nat, Acquirer>,
                           written: map<string, int>)

  datatype Event =
    | Tick(seconds: nat)
    | Begins(id: nat, pid: nat, prefix: string)
    | Tries(id: nat)
    | BeginsRenewal(id: nat)
    | Renews(id: nat)
    | Releases(id: nat)
    | Crashes(id: nat)

  // ---------------------------------------------------------------- the three transactions

  predicate Busy(rows: map<string, LeaseRow>, prefix: string, now: int) {
    prefix in rows && rows[prefix].expires >= now
  }

  function Acquire(rows: map<string, LeaseRow>, prefix: string, pid: nat, now: int, ttl: nat): map<string, LeaseRow> {
    if Busy(rows, prefix, now) then rows else rows[prefix := LeaseRow(pid, now + ttl)]
  }

  predicate Owned(rows: map<string, LeaseRow>, prefix: string, pid: nat) {
    prefix in rows && rows[prefix].pid == pid
  }

  function Renew(rows: map<string, LeaseRow>, prefix: string, pid: nat, expires: int): map<string, LeaseRow> {
    if Owned(rows, prefix, pid) then rows[prefix := LeaseRow(pid, expires)] else rows
  }

  function Release(rows: map<string, LeaseRow>, prefix: string, pid: nat): map<string, LeaseRow> {
    if Owned(rows, prefix, pid) then rows - {prefix} else rows
  }

  // ---------------------------------------------------------------- steps

  /** One live acquire per process and prefix. */
  predicate Alone(s: Leases, pid: nat, prefix: string) {
    forall i :: i in s.acquirers ==> s.acquirers[i].pid != pid || s.acquirers[i].prefix != prefix
  }

  predicate Enabled(s: Leases, e: Event) {
    match e
    case Tick(_) => true
    case Begins(id, pid, prefix) => id !in s.acquirers && Alone(s, pid, prefix)
    case Tries(id) => id in s.acquirers && s.acquirers[id].phase.Trying?
    case BeginsRenewal(id) => id in s.acquirers && s.acquirers[id].phase.Holding? && s.acquirers[id].phase.renewal.None?
    case Renews(id) => id in s.acquirers && s.acquirers[id].phase.Holding? && s.acquirers[id].phase.renewal.Some?
    case Releases(id) => id in s.acquirers && s.acquirers[id].phase.Holding?
    case Crashes(id) => id in s.acquirers
  }

  predicate Possible(s: Leases, e: Event) {
    match e
    case Tick(_) => true
    case Begins(_, _, _) => true
    case Tries(id) => id in s.acquirers && s.acquirers[id].phase.Trying?
    case BeginsRenewal(id) => id in s.acquirers && s.acquirers[id].phase.Holding?
    case Renews(id) => id in s.acquirers && s.acquirers[id].phase.Holding? && s.acquirers[id].phase.renewal.Some?
    case Releases(id) => id in s.acquirers
    case Crashes(id) => id in s.acquirers
  }

  function Step(s: Leases, e: Event, ttl: nat): Leases
    requires Possible(s, e)
  {
    match e
    case Tick(seconds) => s.(clock := s.clock + seconds)
    case Begins(id, pid,
                prefix) => s.(acquirers := s.acquirers[id := Acquirer(pid, prefix, Trying(s.clock), s.clock, s.clock)])
    case Tries(id) =>
      var a := s.acquirers[id];
      if Busy(s.rows, a.prefix, a.phase.now) then s.(acquirers := s.acquirers - {id})
      else s.(rows := Acquire(s.rows, a.prefix, a.pid, a.phase.now, ttl), written := s.written[a.prefix := s.clock],
              acquirers := s.acquirers[id := a.(phase := Holding(a.phase.now + ttl, None))])
    case BeginsRenewal(id) =>
      var a := s.acquirers[id];
      s.(acquirers := s.acquirers[id := a.(phase := a.phase.(renewal := Some(s.clock + ttl)), renewing := s.clock)])
    case Renews(id) =>
      var a := s.acquirers[id];
      var expires := a.phase.renewal.value;
      if Owned(s.rows, a.prefix, a.pid) then
        s.(rows := Renew(s.rows, a.prefix, a.pid, expires), written := s.written[a.prefix := s.clock],
           acquirers := s.acquirers[id := a.(phase := Holding(expires, None), began := a.renewing)])
      else s.(acquirers := s.acquirers[id := a.(phase := a.phase.(renewal := None))])
    case Releases(id) =>
      var a := s.acquirers[id];
      s.(rows := Release(s.rows, a.prefix, a.pid), acquirers := s.acquirers - {id})
    case Crashes(id) => s.(acquirers := s.acquirers - {id})
  }

  function Start(clock: int): Leases {
    Leases(clock, map[], map[], map[])
  }

  ghost predicate Reaches(events: seq<Event>, s: Leases, clock: int, ttl: nat)
    decreases |events|
  {
    if events == [] then s == Start(clock)
    else
      var e := events[|events| - 1];
      exists before: Leases ::
          Reaches(events[..|events| - 1], before, clock, ttl) && Enabled(before, e) && s == Step(before, e, ttl)
  }

  // ---------------------------------------------------------------- what every step keeps

  /** The acquirer's window has not ended. */
  predicate Live(s: Leases, a: Acquirer) {
    a.phase.Holding? && a.phase.until >= s.clock
  }

  /** A live window is written in its prefix's row, under its holder's name. */
  ghost predicate Backed(s: Leases, a: Acquirer) {
    Live(s, a) ==> a.prefix in s.rows && s.rows[a.prefix] == LeaseRow(a.pid, a.phase.until)
  }

  /** Clock readings an acquirer carries are not from the future, and a renewal never shortens. */
  predicate Timely(s: Leases, a: Acquirer, ttl: nat) {
    match a.phase
    case Trying(now) => now <= s.clock
    case Holding(until, renewal) =>
      && until <= s.clock + ttl
      && (renewal.Some? ==> until <= renewal.value <= s.clock + ttl)
  }

  /** A window lasts exactly the limit from when what wrote it was begun. */
  predicate Lasting(a: Acquirer, ttl: nat) {
    match a.phase
    case Trying(now) => now == a.began
    case Holding(until, renewal) => until == a.began + ttl && (renewal.Some? ==> renewal.value == a.renewing + ttl)
  }

  ghost predicate Distinguished(s: Leases) {
    forall i, j :: i in s.acquirers && j in s.acquirers && i != j ==>
      s.acquirers[i].pid != s.acquirers[j].pid || s.acquirers[i].prefix != s.acquirers[j].prefix
  }

  ghost predicate Inv(s: Leases, ttl: nat) {
    && (forall i :: i in s.acquirers ==> Backed(s, s.acquirers[i]) && Timely(s, s.acquirers[i], ttl))
    && (forall i :: i in s.acquirers ==> Lasting(s.acquirers[i], ttl))
    && Distinguished(s)
    && (forall p :: p in s.rows ==>
        p in s.written && s.rows[p].expires <= s.written[p] + ttl && s.written[p] <= s.clock)
  }

  lemma StepKeepsInv(s: Leases, e: Event, ttl: nat)
    requires Inv(s, ttl) && Enabled(s, e)
    ensures Inv(Step(s, e, ttl), ttl)
  {
    hide Backed, Distinguished;
    StepKeepsWindows(s, e, ttl);
    StepKeepsApart(s, e, ttl);
    var t := Step(s, e, ttl);
    forall i | i in t.acquirers
      ensures Timely(t, t.acquirers[i], ttl)
    {
      if i in s.acquirers { assert Timely(s, s.acquirers[i], ttl); }
    }
    StepKeepsLasting(s, e, ttl);
  }

  lemma StepKeepsLasting(s: Leases, e: Event, ttl: nat)
    requires (forall i :: i in s.acquirers ==> Lasting(s.acquirers[i], ttl)) && Enabled(s, e)
    ensures var t := Step(s, e, ttl); forall i :: i in t.acquirers ==> Lasting(t.acquirers[i], ttl)
  {
    var t := Step(s, e, ttl);
    forall i | i in t.acquirers
      ensures Lasting(t.acquirers[i], ttl)
    {
      if i in s.acquirers { assert Lasting(s.acquirers[i], ttl); }
    }
  }

  lemma StepKeepsWindows(s: Leases, e: Event, ttl: nat)
    requires Inv(s, ttl) && Enabled(s, e)
    ensures var t := Step(s, e, ttl); forall i :: i in t.acquirers ==> Backed(t, t.acquirers[i])
  {
    var t := Step(s, e, ttl);
    forall i | i in t.acquirers
      ensures Backed(t, t.acquirers[i])
    {
      if i in s.acquirers { assert Backed(s, s.acquirers[i]) && Timely(s, s.acquirers[i], ttl); }
    }
  }

  lemma StepKeepsApart(s: Leases, e: Event, ttl: nat)
    requires Distinguished(s) && Enabled(s, e)
    ensures Distinguished(Step(s, e, ttl))
  {}

  lemma {:induction false} EveryRunKeepsInv(events: seq<Event>, s: Leases, clock: int, ttl: nat)
    requires Reaches(events, s, clock, ttl)
    ensures Inv(s, ttl)
    decreases |events|
  {
    hide Inv, Step;
    if events == [] {
      StartIsSound(clock, ttl);
    } else {
      var e := events[|events| - 1];
      var before: Leases :| Reaches(events[..|events| - 1], before, clock, ttl) && Enabled(before, e)
          && s == Step(before, e, ttl);
      EveryRunKeepsInv(events[..|events| - 1], before, clock, ttl);
      StepKeepsInv(before, e, ttl);
    }
  }

  lemma StartIsSound(clock: int, ttl: nat)
    ensures Inv(Start(clock), ttl)
  {}

  // ---------------------------------------------------------------- main results

  /** Mutual exclusion over every run: two unexpired windows for one prefix are one and the same. */
  lemma WindowsDoNotOverlap(events: seq<Event>, s: Leases, clock: int, ttl: nat, i: nat, j: nat)
    requires Reaches(events, s, clock, ttl) && i in s.acquirers && j in s.acquirers
    requires Live(s, s.acquirers[i]) && Live(s, s.acquirers[j]) && s.acquirers[i].prefix == s.acquirers[j].prefix
    ensures i == j
  {
    hide Reaches;
    EveryRunKeepsInv(events, s, clock, ttl);
    assert Backed(s, s.acquirers[i]) && Backed(s, s.acquirers[j]);
  }

  /** A holder that lapsed never touches a successor's row, by renewing late or by releasing late. */
  lemma LateHoldersAreHarmless(events: seq<Event>, s: Leases, clock: int, ttl: nat, late: nat, holder: nat)
    requires Reaches(events, s, clock, ttl) && late in s.acquirers && holder in s.acquirers && late != holder
    requires Live(s, s.acquirers[holder]) && s.acquirers[late].prefix == s.acquirers[holder].prefix
    requires s.acquirers[late].phase.Holding?
    ensures var p := s.acquirers[holder].prefix;
            && p in s.rows
            && Release(s.rows, p, s.acquirers[late].pid) == s.rows
            && forall expires :: Renew(s.rows, p, s.acquirers[late].pid, expires) == s.rows
    ensures Step(s, Releases(late), ttl).rows == s.rows
  {
    hide Reaches;
    EveryRunKeepsInv(events, s, clock, ttl);
    assert Backed(s, s.acquirers[holder]);
  }

  /** A heartbeat in time keeps the lease: the window only gets longer, and until it ends every other
      acquire is turned away. */
  lemma HeartbeatKeepsTheLease(events: seq<Event>, s: Leases, clock: int, ttl: nat, id: nat, other: nat)
    requires Reaches(events, s, clock, ttl) && Enabled(s, Renews(id)) && Live(s, s.acquirers[id])
    requires other in s.acquirers && other != id && s.acquirers[other].phase.Trying?
    requires s.acquirers[other].prefix == s.acquirers[id].prefix
    ensures var t := Step(s, Renews(id), ttl);
            && Live(t, t.acquirers[id]) && t.acquirers[id].phase.until >= s.acquirers[id].phase.until
            && other !in Step(t, Tries(other), ttl).acquirers && Step(t, Tries(other), ttl).rows == t.rows
  {
    hide Reaches;
    EveryRunKeepsInv(events, s, clock, ttl);
    assert Backed(s, s.acquirers[id]) && Timely(s, s.acquirers[id], ttl) && Timely(s, s.acquirers[other], ttl);
  }

  /** A renewal that is written while the holder is live moves row and window to exactly the limit after the
      clock it was begun at, however long the writing took. */
  lemma RenewalExtendsToTheLimit(events: seq<Event>, s: Leases, clock: int, ttl: nat, id: nat, passed: nat)
    requires Reaches(events, s, clock, ttl) && Enabled(s, BeginsRenewal(id))
    requires s.clock + passed <= s.acquirers[id].phase.until
    ensures var later := Step(Step(s, BeginsRenewal(id), ttl), Tick(passed), ttl);
            var t := Step(later, Renews(id), ttl);
            var p := s.acquirers[id].prefix;
            && Live(later, later.acquirers[id]) && t.acquirers[id].phase == Holding(s.clock + ttl, None)
            && p in t.rows && t.rows[p] == LeaseRow(s.acquirers[id].pid, s.clock + ttl)
  {
    hide Reaches;
    EveryRunKeepsInv(events, s, clock, ttl);
    assert Backed(s, s.acquirers[id]);
  }

  /** Heartbeats keep the lease, over every run: a holder whose acquire, or whose last written renewal, was
      begun at most the limit ago is live; its row ends exactly the limit after that; and every other
      acquire that reads the clock by then is turned away. */
  lemma HeartbeatsHoldOthersOff(events: seq<Event>, s: Leases, clock: int, ttl: nat, id: nat, other: nat)
    requires Reaches(events, s, clock, ttl) && id in s.acquirers && s.acquirers[id].phase.Holding?
    requires s.clock <= s.acquirers[id].began + ttl
    ensures Live(s, s.acquirers[id])
    ensures var p := s.acquirers[id].prefix;
            p in s.rows && s.rows[p] == LeaseRow(s.acquirers[id].pid, s.acquirers[id].began + ttl)
    ensures other in s.acquirers && s.acquirers[other].phase.Trying?
            && s.acquirers[other].prefix == s.acquirers[id].prefix ==>
              other !in Step(s, Tries(other), ttl).acquirers && Step(s, Tries(other), ttl).rows == s.rows
  {
    hide Reaches;
    EveryRunKeepsInv(events, s, clock, ttl);
    assert Backed(s, s.acquirers[id]) && Lasting(s.acquirers[id], ttl);
    if other in s.acquirers { assert Timely(s, s.acquirers[other], ttl); }
  }

  /** Progress: once nothing was written to the row for longer than the limit, an acquire that reads
      the clock then succeeds, whoever held the row and however it died. */
  lemma StaleLeaseIsTaken(events: seq<Event>, s: Leases, clock: int, ttl: nat, id: nat)
    requires Reaches(events, s, clock, ttl) && id in s.acquirers && s.acquirers[id].phase.Trying?
    requires var a := s.acquirers[id]; a.prefix in s.written ==> a.phase.now > s.written[a.prefix] + ttl
    ensures var a, t := s.acquirers[id], Step(s, Tries(id), ttl);
            id in t.acquirers && t.acquirers[id].phase == Holding(a.phase.now + ttl, None)
            && t.rows == s.rows[a.prefix := LeaseRow(a.pid, a.phase.now + ttl)]
  {
    hide Reaches;
    EveryRunKeepsInv(events, s, clock, ttl);
  }

  /** Without the rule of one live acquire per process and prefix. */
  predicate EnabledTwice(s: Leases, e: Event) {
    if e.Begins? then e.id !in s.acquirers else Enabled(s, e)
  }

  ghost predicate Leads(events: seq<Event>, s: Leases, clock: int, ttl: nat)
    decreases |events|
  {
    if events == [] then s == Start(clock)
    else
      var e := events[|events| - 1];
      exists before: Leases ::
          Leads(events[..|events| - 1], before, clock, ttl) && EnabledTwice(before, e) && s == Step(before, e, ttl)
  }

  /** A run can be followed one step further. */
  lemma LeadsOn(events: seq<Event>, n: nat, s: Leases, clock: int, ttl: nat)
    requires n < |events| && Leads(events[..n], s, clock, ttl) && EnabledTwice(s, events[n])
    ensures Leads(events[..n + 1], Step(s, events[n], ttl), clock, ttl)
  {
    hide Step, EnabledTwice;
    var longer := events[..n + 1];
    assert longer[..|longer| - 1] == events[..n] && longer[|longer| - 1] == events[n];
  }

  function SecondAcquireRun(prefix: string, pid: nat, other: nat, ttl: nat): seq<Event> {
    [Begins(0, pid, prefix), Tries(0), Tick(ttl + 1), Begins(1, pid, prefix), Tries(1), Releases(0),
     Begins(2, other, prefix), Tries(2)]
  }

  /** Why one live acquire per process and prefix matters: the row only knows the process. When a
      second acquire of the same process took over after the first lapsed, the first one's release
      deletes the second one's row, and another process gets a window over a live one. */
  lemma SameProcessTwiceOverlaps(prefix: string, pid: nat, other: nat, clock: int, ttl: nat)
    requires pid != other
    ensures exists t: Leases ::
              && Leads(SecondAcquireRun(prefix, pid, other, ttl), t, clock, ttl)
              && 1 in t.acquirers && 2 in t.acquirers
              && Live(t, t.acquirers[1]) && Live(t, t.acquirers[2])
              && t.acquirers[1].prefix == t.acquirers[2].prefix && t.acquirers[1].pid != t.acquirers[2].pid
  {
    hide Leads;
    var run := SecondAcquireRun(prefix, pid, other, ttl);
    StartLeads(clock, ttl);
    assert run[..0] == [];
    var s := Start(clock);
    LeadsOn(run, 0, s, clock, ttl);
    s := Step(s, run[0], ttl);
    LeadsOn(run, 1, s, clock, ttl);
    s := Step(s, run[1], ttl);
    LeadsOn(run, 2, s, clock, ttl);
    s := Step(s, run[2], ttl);
    LeadsOn(run, 3, s, clock, ttl);
    s := Step(s, run[3], ttl);
    LeadsOn(run, 4, s, clock, ttl);
    s := Step(s, run[4], ttl);
    LeadsOn(run, 5, s, clock, ttl);
    s := Step(s, run[5], ttl);
    LeadsOn(run, 6, s, clock, ttl);
    s := Step(s, run[6], ttl);
    LeadsOn(run, 7, s, clock, ttl);
    s := Step(s, run[7], ttl);
    assert run[..8] == run;
  }

  lemma StartLeads(clock: int, ttl: nat)
    ensures Leads([], Start(clock), clock, ttl)
  {}

  // ---------------------------------------------------------------- the table the program writes

  class LeaseTable {
    var rows: map<string, LeaseRow>

    constructor ()
      ensures rows == map[]
    {
      rows := map[];
    }

    /** The transaction of an acquire that read the clock at `now`. */
    method TryAcquire(prefix: string, pid: nat, now: int, ttl: nat) returns (acquired: bool)
      modifies this
      ensures rows == Acquire(old(rows), prefix, pid, now, ttl)
      ensures acquired <==> !Busy(old(rows), prefix, now)
    {
      if prefix in rows && rows[prefix].expires >= now { return false; }
      rows := rows[prefix := LeaseRow(pid, now + ttl)];
      acquired := true;
    }

    method RenewRow(prefix: string, pid: nat, expires: int) returns (renewed: bool)
      modifies this
      ensures rows == Renew(old(rows), prefix, pid, expires)
      ensures renewed <==> Owned(old(rows), prefix, pid)
    {
      if prefix !in rows || rows[prefix].pid != pid { return false; }
      rows := rows[prefix := rows[prefix].(expires := expires)];
      renewed := true;
    }

    /** Another process's row and every other prefix's row stay; a process's own row goes, and then any
        acquire of the prefix succeeds. */
    method ReleaseRow(prefix: string, pid: nat)
      modifies this
      ensures rows == Release(old(rows), prefix, pid)
      ensures prefix in old(rows) && old(rows)[prefix].pid != pid ==> rows == old(rows)
      ensures forall p :: p != prefix ==> (p in rows <==> p in old(rows)) && (p in rows ==> rows[p] == old(rows)[p])
      ensures Owned(old(rows), prefix, pid) ==> forall now :: !Busy(rows, prefix, now)
    {
      if prefix in rows && rows[prefix].pid == pid { rows := rows - {prefix}; }
    }
  }
}
