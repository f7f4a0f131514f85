/**
 Reading a growing line file from a byte offset. A tail consumes complete lines only; what follows the
 last newline is left for the next one.
 */
module Tailing {
  import opened Sequences
  import opened Text
  import opened ActivityKeys
  import opened Outbox

  type byte = b: nat | b < 256

  const NEWLINE: byte := 10

  /** What one complete line comes to. */
  datatype Reading = Blank | Drifted | Parsed(activities: seq<Activity>)

  /** A line's reading depends on its bytes and on where it starts and ends in the file. */
  type Reader = (seq<byte>, nat, nat) -> Reading

  datatype Tail = Drift | Tail(activities: seq<Activity>, end: nat, scanned: nat)

  function Find(raw: seq<byte>, from: nat): (r: nat)
    requires from <= |raw|
    ensures from <= r <= |raw|
    ensures r < |raw| ==> raw[r] == NEWLINE
    ensures forall i :: from <= i < r ==> raw[i] != NEWLINE
    decreases |raw| - from
  {
    if from == |raw| || raw[from] == NEWLINE then from else Find(raw, from + 1)
  }

  /** The tail of `raw` from `since`: the readings of its complete lines, in order. */
  function TailOf(raw: seq<byte>, since: nat, read: Reader): Tail
    decreases |raw| - since
  {
    if since >= |raw| || Find(raw, since) == |raw| then Tail([], since, 0)
    else
      var nl := Find(raw, since);
      InFront(read(raw[since..nl], since, nl + 1), TailOf(raw, nl + 1, read))
  }

  /** A tail with one more line before it. Anything drifting drifts the whole tail. */
  function InFront(reading: Reading, t: Tail): Tail {
    match reading
    case Drifted => Drift
    case Blank => t
    case Parsed(acts) => Prefixed(acts, 1, t)
  }

  function Prefixed(acts: seq<Activity>, scanned: nat, t: Tail): Tail {
    match t
    case Drift => Drift
    case Tail(rest, end, n) => Tail(acts + rest, end, scanned + n)
  }

  /** `head` and then `rest`. */
  function Then(head: Tail, rest: Tail): Tail {
    if head.Drift? then Drift else Prefixed(head.activities, head.scanned, rest)
  }

  /** The start of the file or the byte after a newline. */
  predicate Boundary(raw: seq<byte>, b: nat) {
    b == 0 || (b <= |raw| && raw[b - 1] == NEWLINE)
  }

  // ---------------------------------------------------------------- the reading loops

  /** One round of the reading loop. */
  lemma TailStep(raw: seq<byte>, since: nat, read: Reader)
    ensures since >= |raw| || Find(raw, since) == |raw| ==> TailOf(raw, since, read) == Tail([], since, 0)
    ensures since < |raw| && Find(raw, since) < |raw| ==>
              var nl := Find(raw, since);
              TailOf(raw, since, read) == InFront(read(raw[since..nl], since, nl + 1), TailOf(raw, nl + 1, read))
  {}

  /** The transcript tailer's loop. */
  method ReadTranscript(raw: seq<byte>, since: nat, read: Reader) returns (t: Tail)
    ensures t == TailOf(raw, since, read)
  {
    hide TailOf, Find, Prefixed;
    var cursor, scanned := since, 0;
    var acts := [];
    NothingFirst(since, TailOf(raw, since, read));
    while cursor < |raw|
      invariant TailOf(raw, since, read) == Prefixed(acts, scanned, TailOf(raw, cursor, read))
      decreases |raw| - cursor
    {
      TailStep(raw, cursor, read);
      var nl := Find(raw, cursor);
      if nl == |raw| { break; }
      var reading := read(raw[cursor..nl], cursor, nl + 1);
      if reading.Drifted? {
        PrefixedEnds(acts, scanned, cursor);
        return Drift;
      }
      if reading.Parsed? {
        PrefixedTwice(acts, scanned, reading.activities, 1, TailOf(raw, nl + 1, read));
        acts, scanned := acts + reading.activities, scanned + 1;
      }
      cursor := nl + 1;
    }
    TailStep(raw, cursor, read);
    PrefixedEnds(acts, scanned, cursor);
    t := Tail(acts, cursor, scanned);
  }

  lemma PrefixedTwice(a: seq<Activity>, n: nat, b: seq<Activity>, m: nat, t: Tail)
    ensures Prefixed(a, n, Prefixed(b, m, t)) == Prefixed(a + b, n + m, t)
  {
    if t.Tail? { assert a + (b + t.activities) == (a + b) + t.activities; }
  }

  lemma PrefixedEnds(acts: seq<Activity>, n: nat, end: nat)
    ensures Prefixed(acts, n, Tail([], end, 0)) == Tail(acts, end, n) && Prefixed(acts, n, Drift) == Drift
  {
    assert acts + [] == acts;
  }

  // ---------------------------------------------------------------- rollouts carry a session along

  /** What one rollout line says: session data, something worth keeping, or neither. */
  datatype RolloutLine =
    | BlankLine
    | DriftedLine
    | Meta(session: Option<string>)
    | Item(kind: ActivityKind, text: string)
    | Other

  type RolloutParser = seq<byte> -> RolloutLine

  /** An explicit session wins over the one a session line names, and that over the one so far. */
  function SessionAfter(explicit: Option<string>, meta: Option<string>, sofar: string): string {
    if explicit.Some? && explicit.value != "" then explicit.value
    else if meta.Some? && meta.value != "" then meta.value
    else sofar
  }

  /** A rollout activity is keyed by the byte its line starts at. */
  function RolloutActivity(session: string, start: nat, kind: ActivityKind, text: string): Activity {
    Activity(KeyText(Codex, session, Decimal(start), kind), HostValue(Codex), KindValue(kind), session, Some(text),
             Some(text))
  }

  function RolloutTail(raw: seq<byte>, since: nat, parse: RolloutParser, explicit: Option<string>,
                       session: string): Tail
    decreases |raw| - since
  {
    if since >= |raw| || Find(raw, since) == |raw| then Tail([], since, 0)
    else
      var nl := Find(raw, since);
      match parse(raw[since..nl])
      case DriftedLine => Drift
      case BlankLine => RolloutTail(raw, nl + 1, parse, explicit, session)
      case Meta(meta) => Prefixed([], 1,
                                  RolloutTail(raw, nl + 1, parse, explicit, SessionAfter(explicit, meta, session)))
      case Other => Prefixed([], 1, RolloutTail(raw, nl + 1, parse, explicit, session))
      case Item(kind, text) =>
        Prefixed([RolloutActivity(session, since, kind, text)], 1, RolloutTail(raw, nl + 1, parse, explicit, session))
  }

  /** The rollout tailer's loop, with the session it has resolved so far. */
  method ReadRollout(raw: seq<byte>, since: nat, parse: RolloutParser, explicit: Option<string>, named: string)
    returns (t: Tail)
    ensures t == RolloutTail(raw, since, parse, explicit, named)
  {
    hide Find, RolloutActivity, SessionAfter, Prefixed;
    NothingFirst(since, RolloutTail(raw, since, parse, explicit, named));
    var cursor, scanned, session := since, 0, named;
    var acts := [];
    while cursor < |raw|
      invariant RolloutTail(raw, since, parse, explicit, named)
                == Prefixed(acts, scanned, RolloutTail(raw, cursor, parse, explicit, session))
      decreases |raw| - cursor
    {
      var nl := Find(raw, cursor);
      if nl == |raw| { break; }
      var line := parse(raw[cursor..nl]);
      if line.DriftedLine? {
        PrefixedEnds(acts, scanned, cursor);
        return Drift;
      }
      ghost var rest := RolloutTail(raw, nl + 1, parse, explicit,
                                    if line.Meta? then SessionAfter(explicit, line.session, session) else session);
      match line {
        case BlankLine =>
        case DriftedLine =>
        case Meta(meta) =>
          PrefixedTwice(acts, scanned, [], 1, rest);
          session := SessionAfter(explicit, meta, session);
          scanned := scanned + 1;
        case Other =>
          PrefixedTwice(acts, scanned, [], 1, rest);
          scanned := scanned + 1;
        case Item(kind, text) =>
          PrefixedTwice(acts, scanned, [RolloutActivity(session, cursor, kind, text)], 1, rest);
          acts, scanned := acts + [RolloutActivity(session, cursor, kind, text)], scanned + 1;
      }
      assert acts + [] == acts;
      cursor := nl + 1;
    }
    PrefixedEnds(acts, scanned, cursor);
    t := Tail(acts, cursor, scanned);
  }

  /** From `since` on, every session line of the file names `session`, unless an explicit one overrides. */
  predicate SessionsAgree(raw: seq<byte>, since: nat, parse: RolloutParser, explicit: Option<string>, session: string)
    decreases |raw| - since
  {
    since < |raw| && Find(raw, since) < |raw| ==>
      var line := parse(raw[since..Find(raw, since)]);
      && (line.Meta? ==> SessionAfter(explicit, line.session, session) == session)
      && SessionsAgree(raw, Find(raw, since) + 1, parse, explicit, session)
  }

  function RolloutReader(parse: RolloutParser, session: string): Reader {
    (line: seq<byte>, start: nat, end: nat) =>
      match parse(line)
      case BlankLine => Blank
      case DriftedLine => Drifted
      case Meta(_) => Parsed([])
      case Other => Parsed([])
      case Item(kind, text) => Parsed([RolloutActivity(session, start, kind, text)])
  }

  /** When the session lines agree with the name the tail starts from, where the tail starts does not
      change what a line is keyed by. */
  lemma {:induction false} RolloutTailIsStateless(raw: seq<byte>, since: nat, parse: RolloutParser,
                                                  explicit: Option<string>, session: string)
    requires SessionsAgree(raw, since, parse, explicit, session)
    ensures RolloutTail(raw, since, parse, explicit, session) == TailOf(raw, since, RolloutReader(parse, session))
    decreases |raw| - since
  {
    hide RolloutActivity, Find, SessionAfter;
    if since < |raw| && Find(raw, since) != |raw| {
      RolloutTailIsStateless(raw, Find(raw, since) + 1, parse, explicit, session);
    }
  }

  // ---------------------------------------------------------------- where a tail may be cut

  /** A tail stops at a line boundary, and never before it started. */
  lemma {:induction false} TailEndsAtBoundary(raw: seq<byte>, since: nat, read: Reader)
    requires TailOf(raw, since, read).Tail?
    ensures var end := TailOf(raw, since, read).end;
            since <= end && (Boundary(raw, since) ==> Boundary(raw, end)) && (since <= |raw| ==> end <= |raw|)
    decreases |raw| - since
  {
    if since < |raw| && Find(raw, since) != |raw| {
      TailEndsAtBoundary(raw, Find(raw, since) + 1, read);
    }
  }

  lemma FindInPrefix(raw: seq<byte>, b: nat, since: nat)
    requires Boundary(raw, b) && since < b <= |raw|
    ensures Find(raw[..b], since) == Find(raw, since) < b
    decreases b - since
  {
    if raw[since] != NEWLINE {
      FindInPrefix(raw, b, since + 1);
    }
  }

  lemma InFrontOfBoth(reading: Reading, head: Tail, rest: Tail)
    ensures InFront(reading, Then(head, rest)) == Then(InFront(reading, head), rest)
    ensures InFront(reading, head).Tail? ==> head.Tail? && InFront(reading, head).end == head.end
  {
    if reading.Parsed? && head.Tail? { PrefixedTwice(reading.activities, 1, head.activities, head.scanned, rest); }
  }

  /** A tail can be cut at any line boundary: it reads what the part before it reads, then what a tail
      from there reads. */
  lemma {:induction false} TailSplits(raw: seq<byte>, since: nat, b: nat, read: Reader)
    requires Boundary(raw, b) && since <= b <= |raw|
    ensures TailOf(raw, since, read) == Then(TailOf(raw[..b], since, read), TailOf(raw, b, read))
    ensures TailOf(raw[..b], since, read).Tail? ==> TailOf(raw[..b], since, read).end == b
    decreases b - since
  {
    hide InFront, Then, Prefixed, Find;
    if since < b {
      FindInPrefix(raw, b, since);
      var nl := Find(raw, since);
      assert raw[..b][since..nl] == raw[since..nl];
      TailSplits(raw, nl + 1, b, read);
      InFrontOfBoth(read(raw[since..nl], since, nl + 1), TailOf(raw[..b], nl + 1, read), TailOf(raw, b, read));
    } else {
      NothingFirst(b, TailOf(raw, b, read));
    }
  }

  lemma NothingFirst(b: nat, t: Tail)
    ensures Then(Tail([], b, 0), t) == t && Prefixed([], 0, t) == t
  {
    if t.Tail? { assert [] + t.activities == t.activities; }
  }

  /** What a tail read does not change when the file grows. */
  lemma TailIsAppendStable(raw: seq<byte>, more: seq<byte>, since: nat, read: Reader)
    requires Boundary(raw, since) && since <= |raw| && TailOf(raw, since, read).Tail?
    ensures var t := TailOf(raw, since, read);
            && t.end <= |raw| && TailOf((raw + more)[..t.end], since, read) == t
            && TailOf(raw + more, since, read) == Prefixed(t.activities, t.scanned, TailOf(raw + more, t.end, read))
  {
    var t := TailOf(raw, since, read);
    TailEndsAtBoundary(raw, since, read);
    assert (raw + more)[..t.end] == raw[..t.end];
    NothingAfterTheEnd(raw, since, read);
    TailSplits(raw, since, t.end, read);
    TailSplits(raw + more, since, t.end, read);
  }

  /** After the end of a tail no complete line is left. */
  lemma {:induction false} NothingAfterTheEnd(raw: seq<byte>, since: nat, read: Reader)
    requires TailOf(raw, since, read).Tail?
    ensures TailOf(raw, TailOf(raw, since, read).end, read) == Tail([], TailOf(raw, since, read).end, 0)
    decreases |raw| - since
  {
    if since < |raw| && Find(raw, since) != |raw| {
      NothingAfterTheEnd(raw, Find(raw, since) + 1, read);
    }
  }

  // ---------------------------------------------------------------- rollouts that grow

  lemma {:induction false} AgreeFromBoundary(raw: seq<byte>, since: nat, b: nat, parse: RolloutParser,
                                             explicit: Option<string>, session: string)
    requires SessionsAgree(raw, since, parse, explicit, session) && Boundary(raw, b) && since <= b <= |raw|
    ensures SessionsAgree(raw, b, parse, explicit, session)
    decreases b - since
  {
    hide SessionAfter;
    if since < b {
      FindInPrefix(raw, b, since);
      AgreeFromBoundary(raw, Find(raw, since) + 1, b, parse, explicit, session);
    }
  }

  lemma {:induction false} AgreeInPrefix(raw: seq<byte>, n: nat, since: nat, parse: RolloutParser,
                                         explicit: Option<string>, session: string)
    requires SessionsAgree(raw, since, parse, explicit, session) && n <= |raw|
    ensures SessionsAgree(raw[..n], since, parse, explicit, session)
    decreases |raw| - since
  {
    hide SessionAfter;
    if since < n && Find(raw[..n], since) < n {
      SameNewline(raw, n, since);
      var nl := Find(raw, since);
      assert raw[..n][since..nl] == raw[since..nl];
      AgreeInPrefix(raw, n, nl + 1, parse, explicit, session);
    }
  }

  lemma SameNewline(raw: seq<byte>, n: nat, since: nat)
    requires since < n <= |raw| && Find(raw[..n], since) < n
    ensures Find(raw, since) == Find(raw[..n], since)
  {
    var a := Find(raw[..n], since);
    assert raw[a] == NEWLINE;
    assert forall i :: since <= i < a ==> raw[i] == raw[..n][i];
  }

  /** However much of the file was there and at whichever line boundary a resumed tail starts, it keys
      lines as one tail of the whole file does. */
  lemma ResumedRolloutTailsAgree(raw: seq<byte>, n: nat, since: nat, parse: RolloutParser, explicit: Option<string>,
                                 session: string)
    requires SessionsAgree(raw, 0, parse, explicit, session)
    requires n <= |raw| && since <= n && Boundary(raw[..n], since)
    ensures RolloutTail(raw[..n], since, parse, explicit, session)
            == TailOf(raw[..n], since, RolloutReader(parse, session))
    ensures RolloutTail(raw, 0, parse, explicit, session) == TailOf(raw, 0, RolloutReader(parse, session))
  {
    hide SessionsAgree, RolloutTail, TailOf;
    AgreeInPrefix(raw, n, 0, parse, explicit, session);
    AgreeFromBoundary(raw[..n], 0, since, parse, explicit, session);
    RolloutTailIsStateless(raw[..n], since, parse, explicit, session);
    RolloutTailIsStateless(raw, 0, parse, explicit, session);
  }

  // ---------------------------------------------------------------- line by line

  /** A half-written line is left alone, and once it is complete it adds exactly its own reading: the line
      without its newline, keyed by where it starts and by where the next one does. */
  lemma TailReadsOneMoreLine(raw: seq<byte>, line: seq<byte>, since: nat, read: Reader)
    requires Boundary(raw, since) && since <= |raw| && Boundary(raw, |raw|) && NEWLINE !in line
    ensures var t, u := TailOf(raw, since, read), TailOf(raw + line + [NEWLINE], since, read);
            var end := |raw| + |line| + 1;
            && TailOf(raw + line, since, read) == t && (t.Tail? ==> t.end == |raw|)
            && match read(line, |raw|, end)
               case Drifted => u == Drift
               case Blank => u == if t.Drift? then Drift else Tail(t.activities, end, t.scanned)
               case Parsed(acts) => u == if t.Drift? then Drift else Tail(t.activities + acts, end, t.scanned + 1)
  {
    var half, whole := raw + line, raw + line + [NEWLINE];
    assert half[..|raw|] == raw && whole[..|raw|] == raw;
    TailSplits(raw, since, |raw|, read);
    TailSplits(half, since, |raw|, read);
    TailSplits(whole, since, |raw|, read);
    NoNewlineAhead(half, |raw|);
    OneLineAhead(raw, line, read);
    PrefixedNothing(TailOf(raw, since, read), |raw|);
  }

  lemma {:induction false} NoNewlineAhead(raw: seq<byte>, from: nat)
    requires from <= |raw| && NEWLINE !in raw[from..]
    ensures Find(raw, from) == |raw|
    decreases |raw| - from
  {
    if from < |raw| {
      assert raw[from] in raw[from..];
      NoNewlineAhead(raw, from + 1);
    }
  }

  lemma OneLineAhead(raw: seq<byte>, line: seq<byte>, read: Reader)
    requires NEWLINE !in line
    ensures var whole, end := raw + line + [NEWLINE], |raw| + |line| + 1;
            TailOf(whole, |raw|, read) == InFront(read(line, |raw|, end), Tail([], end, 0))
  {
    hide TailOf, InFront;
    var whole, nl := raw + line + [NEWLINE], |raw| + |line|;
    NewlineAhead(raw, line);
    TailStep(whole, |raw|, read);
    TailStep(whole, nl + 1, read);
  }

  lemma NewlineAhead(raw: seq<byte>, line: seq<byte>)
    requires NEWLINE !in line
    ensures var whole, nl := raw + line + [NEWLINE], |raw| + |line|;
            |whole| == nl + 1 && Find(whole, |raw|) == nl && whole[|raw|..nl] == line
  {
    var whole, nl := raw + line + [NEWLINE], |raw| + |line|;
    assert forall i :: |raw| <= i < nl ==> whole[i] == line[i - |raw|];
    assert whole[nl] == NEWLINE;
  }

  lemma PrefixedNothing(t: Tail, end: nat)
    requires t.Tail? ==> t.end == end
    ensures Then(t, Tail([], end, 0)) == t
  {
    if t.Tail? { assert t.activities + [] == t.activities; }
  }

  /** An explicit session is the session of everything, whatever the session lines of the file say. */
  lemma {:induction false} ExplicitSessionWins(raw: seq<byte>, since: nat, parse: RolloutParser, session: string)
    requires session != ""
    ensures SessionsAgree(raw, since, parse, Some(session), session)
    decreases |raw| - since
  {
    if since < |raw| && Find(raw, since) < |raw| {
      ExplicitSessionWins(raw, Find(raw, since) + 1, parse, session);
    }
  }

  /** Without one, a first session line that names a session names it for all that follows up to another
      name, whatever the file is called; a nameless one leaves the file's own. */
  lemma FirstLineNamesTheSession(raw: seq<byte>, parse: RolloutParser, explicit: Option<string>,
                                 meta: Option<string>, named: string)
    requires explicit == None || explicit == Some("")
    requires Find(raw, 0) < |raw| && parse(raw[0..Find(raw, 0)]) == Meta(meta)
    requires SessionsAgree(raw, Find(raw, 0) + 1, parse, explicit, NameIn(meta, named))
    ensures RolloutTail(raw, 0, parse, explicit, named)
            == Prefixed([], 1, TailOf(raw, Find(raw, 0) + 1, RolloutReader(parse, NameIn(meta, named))))
  {
    RolloutTailIsStateless(raw, Find(raw, 0) + 1, parse, explicit, NameIn(meta, named));
  }

  function NameIn(meta: Option<string>, named: string): string {
    if meta == None || meta == Some("") then named else meta.value
  }

  /** An activity of a rollout tail carries its line's text and kind under the tail's session. */
  ghost predicate FromLine(a: Activity, raw: seq<byte>, parse: RolloutParser, session: string, start: nat) {
    && start < |raw| && Find(raw, start) < |raw|
    && var line := parse(raw[start..Find(raw, start)]);
    && line.Item? && a.host == "codex" && a.session == session && a.kind == KindValue(line.kind)
    && a.text == Some(line.text) && a.contentHash == Some(line.text)
    && a.id == KeyText(Codex, session, Decimal(start), line.kind)
  }

  /** Where the lines start that have something worth keeping. */
  ghost function ItemStarts(raw: seq<byte>, since: nat, parse: RolloutParser): seq<nat>
    decreases |raw| - since
  {
    if since >= |raw| || Find(raw, since) == |raw| then []
    else
      var later := ItemStarts(raw, Find(raw, since) + 1, parse);
      if parse(raw[since..Find(raw, since)]).Item? then [since] + later else later
  }

  predicate Increases(starts: seq<nat>, since: nat) {
    && (forall i :: 0 <= i < |starts| ==> since <= starts[i])
    && (forall i, j :: 0 <= i < j < |starts| ==> starts[i] < starts[j])
  }

  lemma {:induction false} StartsIncrease(raw: seq<byte>, since: nat, parse: RolloutParser)
    ensures Increases(ItemStarts(raw, since, parse), since)
    decreases |raw| - since
  {
    if since < |raw| && Find(raw, since) < |raw| {
      StartsIncrease(raw, Find(raw, since) + 1, parse);
    }
  }

  ghost predicate FromLines(acts: seq<Activity>, raw: seq<byte>, parse: RolloutParser, session: string,
                            starts: seq<nat>) {
    |starts| == |acts| && forall i :: 0 <= i < |acts| ==> FromLine(acts[i], raw, parse, session, starts[i])
  }

  /** What one rollout tail captures: one activity for each line that has something worth keeping, in the
      order of the lines. */
  lemma {:induction false} RolloutCapturesEachItem(raw: seq<byte>, since: nat, parse: RolloutParser, session: string)
    requires TailOf(raw, since, RolloutReader(parse, session)).Tail?
    ensures FromLines(TailOf(raw, since, RolloutReader(parse, session)).activities, raw, parse, session,
                      ItemStarts(raw, since, parse))
    decreases |raw| - since
  {
    hide Find, TailOf, FromLine, RolloutActivity;
    TailStep(raw, since, RolloutReader(parse, session));
    if since < |raw| && Find(raw, since) < |raw| {
      RolloutCapturesEachItem(raw, Find(raw, since) + 1, parse, session);
      if parse(raw[since..Find(raw, since)]).Item? { ItemIsFromLine(raw, since, parse, session); }
    }
  }

  lemma ItemIsFromLine(raw: seq<byte>, start: nat, parse: RolloutParser, session: string)
    requires start < |raw| && Find(raw, start) < |raw| && parse(raw[start..Find(raw, start)]).Item?
    ensures var line := parse(raw[start..Find(raw, start)]);
            FromLine(RolloutActivity(session, start, line.kind, line.text), raw, parse, session, start)
  {
    hide Find, KeyText, KindValue, Decimal;
  }

  /** No two activities of one rollout tail share an id. */
  lemma RolloutIdsAreDistinct(raw: seq<byte>, since: nat, parse: RolloutParser, session: string, i: nat, j: nat)
    requires TailOf(raw, since, RolloutReader(parse, session)).Tail?
    requires i < j < |TailOf(raw, since, RolloutReader(parse, session)).activities|
    ensures var acts := TailOf(raw, since, RolloutReader(parse, session)).activities;
            acts[i].id != acts[j].id
  {
    hide Find, TailOf, FromLine, ItemStarts;
    var acts, starts := TailOf(raw, since, RolloutReader(parse, session)).activities, ItemStarts(raw, since, parse);
    StartsIncrease(raw, since, parse);
    RolloutCapturesEachItem(raw, since, parse, session);
    LinesHaveTheirOwnIds(acts[i], acts[j], raw, parse, session, starts[i], starts[j]);
  }

  lemma LinesHaveTheirOwnIds(a: Activity, b: Activity, raw: seq<byte>, parse: RolloutParser, session: string, i: nat,
                             j: nat)
    requires FromLine(a, raw, parse, session, i) && FromLine(b, raw, parse, session, j) && i != j
    ensures a.id != b.id
  {
    hide KeyText, Find, KindValue, Decimal;
    var k, l := parse(raw[i..Find(raw, i)]).kind, parse(raw[j..Find(raw, j)]).kind;
    DecimalDigits(i);
    DecimalDigits(j);
    if a.id == b.id {
      KeysAreUnambiguous(Codex, session, Decimal(i), k, Codex, session, Decimal(j), l);
      DecimalIsInjective(i, j);
    }
  }
}
