/**
 The coalescing of background re-warms. A refresh loop per key is scheduled by events, waits its turn,
 reads, and on its way out looks once whether anything arrived meanwhile. Steps of different loops and
 events interleave freely.
 */
module RefreshScheduler {
  import opened Sequences

  /** A loop between two of its awaits: not started yet, waiting for a slot to read in, or reading. */
  datatype Phase = Created | Waiting | Reading

  datatype Task = Task(key: string, phase: Phase)

  datatype Refreshes = Refreshes(
    inflight: set<string>, pending: set<string>, query: map<string, Option<string>>,
    tasks: map<nat, Task>, coalesced: nat, closed: bool)

  function Start(): Refreshes {
    Refreshes({}, {}, map[], map[], 0, false)
  }

  /** An event: start a loop (as task `id`), or fold the request into the one that runs. */
  function Schedule(s: Refreshes, key: string, query: Option<string>, id: nat): Refreshes {
    var asked := s.(query := s.query[key := query]);
    if key in s.inflight then asked.(pending := s.pending + {key}, coalesced := s.coalesced + 1)
    else asked.(inflight := s.inflight + {key}, tasks := s.tasks[id := Task(key, Created)])
  }

  /** A loop goes on: its first step, which enters what will release its key, or its read. */
  function Advance(s: Refreshes, id: nat, phase: Phase): Refreshes
    requires id in s.tasks
  {
    s.(tasks := s.tasks[id := Task(s.tasks[id].key, phase)])
  }

  /** The loop's exit: its key is released. */
  function Exit(s: Refreshes, id: nat): Refreshes
    requires id in s.tasks
  {
    var key := s.tasks[id].key;
    s.(inflight := s.inflight - {key}, query := s.query - {key}, tasks := s.tasks - {id})
  }

  /** The re-check after a read: once more when something is pending, else out. */
  function EndRead(s: Refreshes, id: nat): Refreshes
    requires id in s.tasks
  {
    var key := s.tasks[id].key;
    if key in s.pending then Advance(s.(pending := s.pending - {key}), id, Waiting)
    else Exit(s, id)
  }

  /** Cancelling a loop. One that has not taken its first step never enters what releases its key. */
  function Cancel(s: Refreshes, id: nat): Refreshes
    requires id in s.tasks
  {
    if s.tasks[id].phase == Created then s.(tasks := s.tasks - {id}) else Exit(s, id)
  }

  /** Shutdown unsubscribes first, so nothing is scheduled after it; then every loop is cancelled. */
  function Close(s: Refreshes): Refreshes {
    s.(pending := {}, closed := true)
  }

  // ---------------------------------------------------------------- steps with history

  datatype Event =
    | Scheduled(key: string, query: Option<string>, id: nat)
    | Enters(id: nat)
    | ReadBegins(id: nat)
    | ReadEnds(id: nat)
    | Closes
    | Cancelled(id: nat)

  /** `asked` and `began` count the events and the reads of each key; `lastAsked` and `lastBegan` say
      when the latest happened, in steps. `stranded` are the keys of loops that were cancelled before
      their first step. */
  datatype History = History(
    s: Refreshes, asked: map<string, nat>, began: map<string, nat>,
    lastAsked: map<string, nat>, lastBegan: map<string, nat>, stranded: set<string>, clock: nat)

  function CountOf(m: map<string, nat>, key: string): nat {
    if key in m then m[key] else 0
  }

  predicate Enabled(h: History, e: Event) {
    match e
    case Scheduled(_, _, id) => !h.s.closed && id !in h.s.tasks
    case Enters(id) => !h.s.closed && id in h.s.tasks && h.s.tasks[id].phase == Created
    case ReadBegins(id) => id in h.s.tasks && h.s.tasks[id].phase == Waiting
    case ReadEnds(id) => id in h.s.tasks && h.s.tasks[id].phase == Reading
    case Closes => true
    case Cancelled(id) => h.s.closed && id in h.s.tasks
  }

  function Step(h: History, e: Event): History
    requires Enabled(h, e)
  {
    var g := h.(clock := h.clock + 1);
    match e
    case Scheduled(key, query, id) =>
      g.(s := Schedule(h.s, key, query, id), asked := h.asked[key := CountOf(h.asked, key) + 1],
         lastAsked := h.lastAsked[key := h.clock])
    case Enters(id) => g.(s := Advance(h.s, id, Waiting))
    case ReadBegins(id) =>
      var key := h.s.tasks[id].key;
      g.(s := Advance(h.s, id, Reading), began := h.began[key := CountOf(h.began, key) + 1],
         lastBegan := h.lastBegan[key := h.clock])
    case ReadEnds(id) => g.(s := EndRead(h.s, id))
    case Closes => g.(s := Close(h.s))
    case Cancelled(id) => g.(s := Cancel(h.s, id), stranded := h.stranded + Stranding(h.s, id))
  }

  function Stranding(s: Refreshes, id: nat): set<string>
    requires id in s.tasks
  {
    if s.tasks[id].phase == Created then {s.tasks[id].key} else {}
  }

  function Begins(): History {
    History(Start(), map[], map[], map[], map[], {}, 1)
  }

  /** The histories of all runs. */
  ghost predicate Reaches(events: seq<Event>, h: History)
    decreases |events|
  {
    if events == [] then h == Begins()
    else
      var e := events[|events| - 1];
      exists before: History :: Reaches(events[..|events| - 1], before) && Enabled(before, e) && h == Step(before, e)
  }

  // ---------------------------------------------------------------- what every step keeps

  /** One loop per in-flight key that is not stranded, and nothing pending that is not in flight. */
  ghost predicate OneLoopPerKey(s: Refreshes, stranded: set<string>) {
    && (forall id :: id in s.tasks ==> s.tasks[id].key in s.inflight - stranded)
    && (forall i, j :: i in s.tasks && j in s.tasks && s.tasks[i].key == s.tasks[j].key ==> i == j)
    && (forall k :: k in s.inflight ==> HasLoop(s, k) || k in stranded)
    && s.pending <= s.inflight && s.query.Keys == s.inflight && stranded <= s.inflight
    && (s.closed ==> s.pending == {})
    && (!s.closed ==> stranded == {})
  }

  ghost predicate HasLoop(s: Refreshes, key: string) {
    exists id :: id in s.tasks && s.tasks[id].key == key
  }

  ghost predicate HasQueued(s: Refreshes, key: string) {
    exists id :: id in s.tasks && s.tasks[id].key == key && s.tasks[id].phase != Reading
  }

  /** How many reads the key's loop still has ahead of it. */
  ghost function Owed(s: Refreshes, key: string): nat {
    (if HasQueued(s, key) then 1 else 0) + (if key in s.pending then 1 else 0)
  }

  /** Before shutdown, the latest event of a key is either answered by a later read or still owed one;
      and no key is read more often than it was asked for. */
  ghost predicate NothingLost(h: History, key: string) {
    && CountOf(h.lastAsked, key) < h.clock && CountOf(h.lastBegan, key) < h.clock
    && (!h.s.closed && CountOf(h.lastAsked, key) > 0 && Owed(h.s, key) == 0 ==>
        CountOf(h.lastBegan, key) > CountOf(h.lastAsked, key))
    && (CountOf(h.began, key) + Owed(h.s, key) <= CountOf(h.asked, key))
  }

  ghost predicate Inv(h: History) {
    OneLoopPerKey(h.s, h.stranded) && h.clock > 0 && forall key :: NothingLost(h, key)
  }

  lemma ScheduleKeepsLoops(s: Refreshes, key: string, query: Option<string>, id: nat)
    requires OneLoopPerKey(s, {}) && !s.closed && id !in s.tasks
    ensures var t := Schedule(s, key, query, id);
            && OneLoopPerKey(t, {}) && t.closed == s.closed
            && Owed(t, key) >= 1 && Owed(t, key) <= Owed(s, key) + 1
            && forall k :: k != key ==> Owed(t, k) == Owed(s, k)
  {
    hide OneLoopPerKey, HasQueued;
    if key in s.inflight {
      ScheduleFolds(s, key, query, id);
    } else {
      ScheduleStarts(s, key, query, id);
    }
  }

  lemma ScheduleFolds(s: Refreshes, key: string, query: Option<string>, id: nat)
    requires OneLoopPerKey(s, {}) && key in s.inflight && !s.closed
    ensures var t := Schedule(s, key, query, id);
            OneLoopPerKey(t, {}) && t.tasks == s.tasks && forall k :: HasQueued(t, k) <==> HasQueued(s, k)
  {
    hide HasLoop, HasQueued;
    SameTasks(s, Schedule(s, key, query, id));
  }

  lemma SameTasks(s: Refreshes, t: Refreshes)
    requires t.tasks == s.tasks
    ensures forall k :: (HasLoop(t, k) <==> HasLoop(s, k)) && (HasQueued(t, k) <==> HasQueued(s, k))
  {}

  lemma ScheduleStarts(s: Refreshes, key: string, query: Option<string>, id: nat)
    requires OneLoopPerKey(s, {}) && key !in s.inflight && !s.closed && id !in s.tasks
    ensures var t := Schedule(s, key, query, id);
            && OneLoopPerKey(t, {}) && HasQueued(t, key)
            && forall k :: k != key ==> (HasQueued(t, k) <==> HasQueued(s, k))
  {
    hide HasLoop, HasQueued;
    var t := Schedule(s, key, query, id);
    NewTask(s.tasks, t, id, key);
    forall k | k != key
      ensures (HasLoop(t, k) <==> HasLoop(s, k)) && (HasQueued(t, k) <==> HasQueued(s, k))
    {
      NewTaskElsewhere(s, t, id, key, k);
    }
  }

  lemma NewTask(tasks: map<nat, Task>, t: Refreshes, id: nat, key: string)
    requires t.tasks == tasks[id := Task(key, Created)]
    ensures HasLoop(t, key) && HasQueued(t, key)
  {
    assert t.tasks[id] == Task(key, Created);
  }

  lemma NewTaskElsewhere(s: Refreshes, t: Refreshes, id: nat, key: string, k: string)
    requires t.tasks == s.tasks[id := Task(key, Created)] && id !in s.tasks && k != key
    ensures (HasLoop(t, k) <==> HasLoop(s, k)) && (HasQueued(t, k) <==> HasQueued(s, k))
  {
    if HasLoop(s, k) {
      var i :| i in s.tasks && s.tasks[i].key == k;
      assert t.tasks[i].key == k;
    }
    if HasQueued(s, k) {
      var i :| i in s.tasks && s.tasks[i].key == k && s.tasks[i].phase != Reading;
      assert t.tasks[i] == s.tasks[i];
    }
  }

  /** A loop's first step leaves what is owed; the start of its read takes one off. */
  lemma AdvanceKeepsLoops(s: Refreshes, id: nat, phase: Phase, stranded: set<string>)
    requires OneLoopPerKey(s, stranded) && id in s.tasks && s.tasks[id].phase != Reading
    ensures var t, key := Advance(s, id, phase), s.tasks[id].key;
            && OneLoopPerKey(t, stranded) && t.closed == s.closed
            && Owed(t, key) + (if phase == Reading then 1 else 0) == Owed(s, key)
            && forall k :: k != key ==> Owed(t, k) == Owed(s, k)
  {
    hide OneLoopPerKey, HasLoop, HasQueued;
    var t := Advance(s, id, phase);
    NewPhase(s, t, id, phase, stranded);
    OnlyQueue(s, id, stranded);
    OnlyQueue(t, id, stranded);
  }

  /** A loop that changes phase stays the only one of its key. */
  lemma NewPhase(s: Refreshes, t: Refreshes, id: nat, phase: Phase, stranded: set<string>)
    requires OneLoopPerKey(s, stranded) && id in s.tasks && t.tasks == s.tasks[id := Task(s.tasks[id].key, phase)]
    requires t.inflight == s.inflight && t.pending <= s.pending && t.closed == s.closed && t.query == s.query
    ensures OneLoopPerKey(t, stranded)
    ensures forall k :: k != s.tasks[id].key ==> (HasQueued(t, k) <==> HasQueued(s, k))
  {
    hide HasLoop, HasQueued;
    LoopsSurvive(s, t, id);
  }

  /** The only loop of its key is queued exactly when the key has a queued one. */
  lemma OnlyQueue(s: Refreshes, id: nat, stranded: set<string>)
    requires OneLoopPerKey(s, stranded) && id in s.tasks
    ensures HasQueued(s, s.tasks[id].key) <==> s.tasks[id].phase != Reading
  {
    hide HasLoop;
  }

  /** Only task `id` changed: everybody else's loop and queue are where they were. */
  lemma LoopsSurvive(s: Refreshes, t: Refreshes, id: nat)
    requires id in s.tasks
    requires forall i :: i != id ==> (i in t.tasks <==> i in s.tasks) && (i in s.tasks ==> t.tasks[i] == s.tasks[i])
    requires id in t.tasks ==> t.tasks[id].key == s.tasks[id].key
    ensures forall k :: k != s.tasks[id].key ==>
            (HasLoop(t, k) <==> HasLoop(s, k)) && (HasQueued(t, k) <==> HasQueued(s, k))
    ensures id in t.tasks ==> HasLoop(t, s.tasks[id].key)
  {
    forall k | k != s.tasks[id].key
      ensures (HasLoop(t, k) <==> HasLoop(s, k)) && (HasQueued(t, k) <==> HasQueued(s, k))
    {
      if HasLoop(s, k) {
        var i :| i in s.tasks && s.tasks[i].key == k;
        assert t.tasks[i].key == k;
      }
      if HasQueued(s, k) {
        var i :| i in s.tasks && s.tasks[i].key == k && s.tasks[i].phase != Reading;
        assert t.tasks[i] == s.tasks[i];
      }
    }
  }

  lemma ExitKeepsLoops(s: Refreshes, id: nat, stranded: set<string>)
    requires OneLoopPerKey(s, stranded) && id in s.tasks && s.tasks[id].key !in s.pending
    ensures var t, key := Exit(s, id), s.tasks[id].key;
            && OneLoopPerKey(t, stranded) && Owed(t, key) == 0
            && (s.tasks[id].phase == Reading ==> Owed(s, key) == 0)
            && forall k :: k != key ==> Owed(t, k) == Owed(s, k)
  {
    LoopsSurvive(s, Exit(s, id), id);
  }

  lemma EndReadKeepsLoops(s: Refreshes, id: nat, stranded: set<string>)
    requires OneLoopPerKey(s, stranded) && id in s.tasks && s.tasks[id].phase == Reading
    ensures var t := EndRead(s, id);
            && OneLoopPerKey(t, stranded) && t.closed == s.closed
            && forall k :: Owed(t, k) == Owed(s, k)
  {
    hide OneLoopPerKey, HasLoop, HasQueued;
    var t, key := EndRead(s, id), s.tasks[id].key;
    OnlyQueue(s, id, stranded);
    if key in s.pending {
      NewPhase(s, t, id, Waiting, stranded);
      OnlyQueue(t, id, stranded);
    } else {
      ExitKeepsLoops(s, id, stranded);
    }
  }

  /** A cancelled loop releases its key or strands it. */
  lemma CancelKeepsLoops(s: Refreshes, id: nat, stranded: set<string>)
    requires OneLoopPerKey(s, stranded) && id in s.tasks && s.closed
    ensures OneLoopPerKey(Cancel(s, id), stranded + Stranding(s, id)) && Cancel(s, id).closed
    ensures forall k :: Owed(Cancel(s, id), k) <= Owed(s, k)
  {
    hide OneLoopPerKey, HasLoop, HasQueued;
    ClosedHasNothingPending(s, stranded);
    assert stranded + {} == stranded;
    if s.tasks[id].phase == Created { StrandKeepsLoops(s, id, stranded); } else { ExitKeepsLoops(s, id, stranded); }
  }

  lemma ClosedHasNothingPending(s: Refreshes, stranded: set<string>)
    requires OneLoopPerKey(s, stranded) && s.closed
    ensures s.pending == {}
  {}

  lemma StrandKeepsLoops(s: Refreshes, id: nat, stranded: set<string>)
    requires OneLoopPerKey(s, stranded) && id in s.tasks && s.closed
    ensures var t, key := s.(tasks := s.tasks - {id}), s.tasks[id].key;
            OneLoopPerKey(t, stranded + {key}) && Owed(t, key) == 0 && forall k :: k != key ==> Owed(t, k) == Owed(s, k)
  {
    LoopsSurvive(s, s.(tasks := s.tasks - {id}), id);
  }

  lemma CloseKeepsLoops(s: Refreshes, stranded: set<string>)
    requires OneLoopPerKey(s, stranded)
    ensures OneLoopPerKey(Close(s), stranded)
    ensures forall k :: Owed(Close(s), k) <= Owed(s, k)
  {
    hide HasLoop, HasQueued;
    SameTasks(s, Close(s));
  }

  lemma StepKeepsInv(h: History, e: Event)
    requires Inv(h) && Enabled(h, e)
    ensures Inv(Step(h, e))
  {
    hide OneLoopPerKey, Owed, Schedule, Advance, EndRead, Exit, Cancel, Stranding;
    var g := Step(h, e);
    match e {
      case Scheduled(key, query, id) =>
        OpenStrandsNobody(h);
        ScheduleKeepsLoops(h.s, key, query, id);
      case Enters(id) => AdvanceKeepsLoops(h.s, id, Waiting, h.stranded);
      case ReadBegins(id) => AdvanceKeepsLoops(h.s, id, Reading, h.stranded);
      case ReadEnds(id) => EndReadKeepsLoops(h.s, id, h.stranded);
      case Closes => CloseKeepsLoops(h.s, h.stranded);
      case Cancelled(id) => CancelKeepsLoops(h.s, id, h.stranded);
    }
    forall key
      ensures NothingLost(g, key)
    {
      assert NothingLost(h, key);
    }
  }

  lemma OpenStrandsNobody(h: History)
    requires Inv(h) && !h.s.closed
    ensures h.stranded == {}
  {}

  lemma {:induction false} EveryRunKeepsInv(events: seq<Event>, h: History)
    requires Reaches(events, h)
    ensures Inv(h)
    decreases |events|
  {
    hide OneLoopPerKey, NothingLost, Enabled, Step;
    if events == [] {
      NothingAtTheStart();
    } else {
      var e := events[|events| - 1];
      var before: History :| Reaches(events[..|events| - 1], before) && Enabled(before, e) && h == Step(before, e);
      EveryRunKeepsInv(events[..|events| - 1], before);
      StepKeepsInv(before, e);
    }
  }

  lemma NothingAtTheStart()
    ensures Inv(Begins())
  {}

  // ---------------------------------------------------------------- main results

  /** No lost wakeup, over every run: until shutdown, an event is followed by a read that began after
      it, or one is still owed. */
  lemma NoLostWakeup(events: seq<Event>, h: History, key: string)
    requires Reaches(events, h) && !h.s.closed && CountOf(h.lastAsked, key) > 0
    ensures CountOf(h.lastBegan, key) > CountOf(h.lastAsked, key) || Owed(h.s, key) > 0
  {
    hide OneLoopPerKey, Reaches, Owed;
    EveryRunKeepsInv(events, h);
    assert NothingLost(h, key);
  }

  /** No key is read more often than it was asked for, reads still to come included. */
  lemma NoMoreReadsThanEvents(events: seq<Event>, h: History, key: string)
    requires Reaches(events, h)
    ensures CountOf(h.began, key) + Owed(h.s, key) <= CountOf(h.asked, key)
  {
    hide OneLoopPerKey, Reaches, Owed;
    EveryRunKeepsInv(events, h);
    assert NothingLost(h, key);
  }

  /** One loop per key at any time. Once the last loop is gone nothing is pending, and the keys left in
      flight, with their queries, are exactly those of loops cancelled before their first step: none
      before shutdown. */
  lemma LoopsLeaveExactlyTheStranded(events: seq<Event>, h: History)
    requires Reaches(events, h)
    ensures forall i, j :: i in h.s.tasks && j in h.s.tasks && h.s.tasks[i].key == h.s.tasks[j].key ==> i == j
    ensures h.s.tasks == map[] ==> h.s.pending == {} && h.s.inflight == h.s.query.Keys == h.stranded
    ensures h.s.tasks == map[] && !h.s.closed ==> h.s.inflight == {}
  {
    hide NothingLost, Reaches, HasLoop;
    EveryRunKeepsInv(events, h);
    if h.s.tasks == map[] { NoLoopsLeft(h.s, h.stranded); }
  }

  /** The run that leaves a key behind: an event, and shutdown before the loop has taken a step. */
  lemma ShutdownCanStrandAKey(key: string, query: Option<string>)
    ensures exists h: History ::
              Reaches([Scheduled(key, query, 0), Closes, Cancelled(0)], h) && h.s.tasks == map[] && h.s.closed
                  && h.s.inflight == {key}
  {
    hide Reaches;
    var events := [Scheduled(key, query, 0), Closes, Cancelled(0)];
    StartReaches();
    assert events[..0] == [];
    RunOn(events, 0, Begins());
    var h := Step(Begins(), events[0]);
    RunOn(events, 1, h);
    h := Step(h, events[1]);
    RunOn(events, 2, h);
    h := Step(h, events[2]);
    assert events[..3] == events;
  }

  lemma StartReaches()
    ensures Reaches([], Begins())
  {}

  /** A run can be followed one step further. */
  lemma RunOn(events: seq<Event>, n: nat, h: History)
    requires n < |events| && Reaches(events[..n], h) && Enabled(h, events[n])
    ensures Reaches(events[..n + 1], Step(h, events[n]))
  {
    hide Step, Enabled;
    var longer := events[..n + 1];
    assert longer[..|longer| - 1] == events[..n] && longer[|longer| - 1] == events[n];
  }

  /** A burst of events for one key. */
  function ScheduleAll(s: Refreshes, key: string, queries: seq<Option<string>>, id: nat): Refreshes
    decreases |queries|
  {
    if queries == [] then s else ScheduleAll(Schedule(s, key, queries[0], id), key, queries[1..], id)
  }

  lemma {:induction false} BurstFolds(s: Refreshes, key: string, queries: seq<Option<string>>, id: nat)
    requires key in s.inflight && queries != []
    ensures ScheduleAll(s, key, queries, id)
            == s.(pending := s.pending + {key}, coalesced := s.coalesced + |queries|,
                  query := s.query[key := queries[|queries| - 1]])
    decreases |queries|
  {
    var first := Schedule(s, key, queries[0], id);
    if |queries| > 1 {
      BurstFolds(first, key, queries[1..], id);
      assert first.query[key := queries[|queries| - 1]] == s.query[key := queries[|queries| - 1]];
    } else {
      assert ScheduleAll(first, key, queries[1..], id) == first;
    }
  }

  /** Any burst during one read costs exactly one more read, for the query asked last: the loop goes
      round once, then out. */
  lemma BurstCostsOneMore(s: Refreshes, id: nat, queries: seq<Option<string>>, other: nat, stranded: set<string>)
    requires OneLoopPerKey(s, stranded) && id in s.tasks && s.tasks[id].phase == Reading && queries != []
    ensures var key := s.tasks[id].key;
            var asked := ScheduleAll(s, key, queries, other);
            id in asked.tasks &&
            var again := EndRead(asked, id);
            && again.tasks == s.tasks[id := Task(key, Waiting)] && key !in again.pending
            && key in again.query && again.query[key] == queries[|queries| - 1]
            && EndRead(Advance(again, id, Reading), id).tasks == s.tasks - {id}
  {
    BurstFolds(s, s.tasks[id].key, queries, other);
  }

  // ---------------------------------------------------------------- the fields the program keeps

  class Scheduler {
    var inflight: set<string>
    var pending: set<string>
    var refreshQuery: map<string, Option<string>>
    var tasks: map<nat, Task>
    var coalescedCount: nat
    var closed: bool

    ghost function Model(): Refreshes
      reads this
    {
      Refreshes(inflight, pending, refreshQuery, tasks, coalescedCount, closed)
    }

    constructor ()
      ensures Model() == Start()
    {
      inflight, pending, refreshQuery, tasks, coalescedCount, closed := {}, {}, map[], map[], 0, false;
    }

    method ScheduleRefresh(key: string, query: Option<string>, id: nat) returns (started: bool)
      modifies this
      ensures Model() == Schedule(old(Model()), key, query, id)
      ensures started <==> key !in old(inflight)
    {
      refreshQuery := refreshQuery[key := query];
      if key in inflight {
        pending := pending + {key};
        coalescedCount := coalescedCount + 1;
        return false;
      }
      inflight := inflight + {key};
      tasks := tasks[id := Task(key, Created)];
      started := true;
    }

    /** The loop's first step: it will read for the latest query asked so far. */
    method Enter(id: nat) returns (query: Option<string>)
      requires id in tasks
      modifies this`tasks
      ensures Model() == Advance(old(Model()), id, Waiting)
      ensures query == if tasks[id].key in refreshQuery then refreshQuery[tasks[id].key] else None
    {
      var key := tasks[id].key;
      query := if key in refreshQuery then refreshQuery[key] else None;
      tasks := tasks[id := Task(key, Waiting)];
    }

    /** The loop gets a slot and reads. */
    method TakeSlot(id: nat)
      requires id in tasks
      modifies this`tasks
      ensures Model() == Advance(old(Model()), id, Reading)
    {
      tasks := tasks[id := Task(tasks[id].key, Reading)];
    }

    /** After a read: once more, for the latest query asked so far, or out. */
    method FinishTurn(id: nat) returns (again: bool, query: Option<string>)
      requires id in tasks
      modifies this
      ensures Model() == EndRead(old(Model()), id)
      ensures again <==> old(tasks)[id].key in old(pending)
      ensures again && old(tasks)[id].key in refreshQuery ==> query == refreshQuery[old(tasks)[id].key]
    {
      var key := tasks[id].key;
      query := None;
      if key in pending {
        pending := pending - {key};
        tasks := tasks[id := Task(key, Waiting)];
        if key in refreshQuery { query := refreshQuery[key]; }
        return true, query;
      }
      Release(id);
      again := false;
    }

    method Release(id: nat)
      requires id in tasks
      modifies this
      ensures Model() == Exit(old(Model()), id)
    {
      var key := tasks[id].key;
      inflight, refreshQuery, tasks := inflight - {key}, refreshQuery - {key}, tasks - {id};
    }

    method CancelLoop(id: nat)
      requires id in tasks
      modifies this
      ensures Model() == Cancel(old(Model()), id)
    {
      if tasks[id].phase == Created { tasks := tasks - {id}; } else { Release(id); }
    }

    /** Shutdown: nothing is pending any more, every loop is cancelled and collected, and what is left
        in flight are the keys of loops that had not taken their first step, besides those an earlier
        shutdown had stranded. */
    method ShutDown(ghost stranded: set<string>)
      requires OneLoopPerKey(Model(), stranded)
      modifies this
      ensures tasks == map[] && pending == {} && closed
      ensures inflight == refreshQuery.Keys == stranded + Unstepped(old(tasks))
    {
      hide OneLoopPerKey, Cancel, Stranding, Unstepped;
      CloseKeepsLoops(Model(), stranded);
      pending, closed := {}, true;
      ghost var left := stranded;
      while tasks != map[]
        invariant closed && OneLoopPerKey(Model(), left)
        invariant left + Unstepped(tasks) == stranded + Unstepped(old(tasks))
        decreases |tasks|
      {
        var id :| id in tasks;
        CancelKeepsLoops(Model(), id, left);
        OneLess(Model(), id);
        left := left + Stranding(Model(), id);
        CancelLoop(id);
      }
      NoLoopsLeft(Model(), left);
    }
  }

  lemma NoLoopsLeft(s: Refreshes, stranded: set<string>)
    requires OneLoopPerKey(s, stranded) && s.tasks == map[]
    ensures s.inflight == s.query.Keys == stranded && Unstepped(s.tasks) == {}
    ensures s.closed ==> s.pending == {}
    ensures !s.closed ==> stranded == {}
  {
    forall k | k in s.inflight
      ensures k in stranded
    {
      assert !HasLoop(s, k);
    }
  }

  /** The keys of loops that have not taken their first step. */
  function Unstepped(tasks: map<nat, Task>): set<string> {
    set id | id in tasks && tasks[id].phase == Created :: tasks[id].key
  }

  lemma OneLess(s: Refreshes, id: nat)
    requires id in s.tasks
    ensures Cancel(s, id).tasks == s.tasks - {id} && |s.tasks - {id}| < |s.tasks|
    ensures Unstepped(s.tasks) == Unstepped(s.tasks - {id}) + Stranding(s, id)
  {
    var rest := s.tasks - {id};
    forall k | k in Unstepped(s.tasks)
      ensures k in Unstepped(rest) || k in Stranding(s, id)
    {
      var i :| i in s.tasks && s.tasks[i].phase == Created && s.tasks[i].key == k;
      if i != id { assert i in rest && rest[i] == s.tasks[i]; }
    }
    forall k | k in Unstepped(rest)
      ensures k in Unstepped(s.tasks)
    {
      var i :| i in rest && rest[i].phase == Created && rest[i].key == k;
      assert i in s.tasks && s.tasks[i] == rest[i];
    }
    assert |s.tasks.Keys - {id}| < |s.tasks.Keys|;
  }
}
