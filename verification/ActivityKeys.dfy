/** The text an activity id is the digest of, and when it names one capture only. */
module ActivityKeys {
  import opened Text

  datatype HostKind = ClaudeCode | Codex | ClaudeDesktop

  datatype ActivityKind =
    | UserPrompt | AssistantMsg | ToolUse | SubagentRun | FileChange | TurnComplete | SessionMeta | PreCompact
    | SessionEnd

  function HostValue(h: HostKind): string {
    match h
    case ClaudeCode => "claude_code"
    case Codex => "codex"
    case ClaudeDesktop => "claude_desktop"
  }

  function KindValue(k: ActivityKind): string {
    match k
    case UserPrompt => "user_prompt"
    case AssistantMsg => "assistant_msg"
    case ToolUse => "tool_use"
    case SubagentRun => "subagent_run"
    case FileChange => "file_change"
    case TurnComplete => "turn_complete"
    case SessionMeta => "session_meta"
    case PreCompact => "pre_compact"
    case SessionEnd => "session_end"
  }

  /** An id is the SHA-256 of this text; the digest is taken to be injective, so it stands for it. */
  function KeyText(host: HostKind, session: string, offset: string, kind: ActivityKind): string {
    HostValue(host) + "|" + session + "|" + offset + "|" + KindValue(kind)
  }

  predicate NoBar(s: string) {
    '|' !in s
  }

  lemma HostValues(a: HostKind, b: HostKind)
    ensures NoBar(HostValue(a))
    ensures HostValue(a) == HostValue(b) ==> a == b
  {
    assert |HostValue(ClaudeCode)| == 11 && |HostValue(Codex)| == 5 && |HostValue(ClaudeDesktop)| == 14;
  }

  lemma KindValues(a: ActivityKind, b: ActivityKind)
    ensures NoBar(KindValue(a))
    ensures KindValue(a) == KindValue(b) ==> a == b
  {
    KindStart(a);
    KindStart(b);
  }

  /** Length and one letter tell the kinds apart. */
  lemma KindStart(k: ActivityKind)
    ensures match k
            case UserPrompt => |KindValue(k)| == 11 && KindValue(k)[0] == 'u'
            case AssistantMsg => |KindValue(k)| == 13 && KindValue(k)[0] == 'a'
            case ToolUse => |KindValue(k)| == 8
            case SubagentRun => |KindValue(k)| == 12
            case FileChange => |KindValue(k)| == 11 && KindValue(k)[0] == 'f'
            case TurnComplete => |KindValue(k)| == 13 && KindValue(k)[0] == 't'
            case SessionMeta => |KindValue(k)| == 12
            case PreCompact => |KindValue(k)| == 11 && KindValue(k)[0] == 'p'
            case SessionEnd => |KindValue(k)| == 11 && KindValue(k)[0] == 's'
    ensures k == SubagentRun ==> KindValue(k)[1] == 'u'
    ensures k == SessionMeta ==> KindValue(k)[1] == 'e'
  {}

  /** Equal keys are equal captures, whatever the sessions are called, as long as no offset has a bar. */
  lemma KeysAreUnambiguous(h1: HostKind, s1: string, o1: string, k1: ActivityKind,
                           h2: HostKind, s2: string, o2: string, k2: ActivityKind)
    requires KeyText(h1, s1, o1, k1) == KeyText(h2, s2, o2, k2) && NoBar(o1) && NoBar(o2)
    ensures h1 == h2 && s1 == s2 && o1 == o2 && k1 == k2
  {
    hide HostValue, KindValue;
    HostValues(h1, h2);
    HostValues(h2, h1);
    KindValues(k1, k2);
    KindValues(k2, k1);
    SplitLast(HostValue(h1) + "|" + s1 + "|" + o1, KindValue(k1), HostValue(h2) + "|" + s2 + "|" + o2, KindValue(k2),
              '|');
    SplitLast(HostValue(h1) + "|" + s1, o1, HostValue(h2) + "|" + s2, o2, '|');
    SplitFirst(HostValue(h1), s1, HostValue(h2), s2, '|');
  }

  /** Without that condition it fails: an offset with a bar always shares its key with the capture
      whose session swallowed the part before the bar. */
  lemma BarredOffsetsCollide(h: HostKind, session: string, before: string, after: string, k: ActivityKind)
    ensures KeyText(h, session, before + "|" + after, k) == KeyText(h, session + "|" + before, after, k)
    ensures session != session + "|" + before
  {
    hide HostValue, KindValue;
    var l := HostValue(h) + "|" + session + "|" + before + "|" + after + "|" + KindValue(k);
    assert KeyText(h, session, before + "|" + after, k) == l;
    assert KeyText(h, session + "|" + before, after, k) == l;
    assert |session| < |session + "|" + before|;
  }

  // ---------------------------------------------------------------- one transcript record's candidates

  /** The offset of one reasoning candidate: its record, its block in it, its sentence in that. */
  function CandidateOffset(record: string, block: nat, sentence: nat): string {
    record + ":" + Decimal(block) + ":" + Decimal(sentence)
  }

  lemma {:induction false} DecimalDigits(n: nat)
    ensures Decimal(n) != "" && ':' !in Decimal(n) && '|' !in Decimal(n)
  {
    if n >= 10 { DecimalDigits(n / 10); }
  }

  lemma {:induction false} DecimalIsInjective(a: nat, b: nat)
    requires Decimal(a) == Decimal(b)
    ensures a == b
    decreases a
  {
    DecimalDigits(a / 10);
    DecimalDigits(b / 10);
    var d := Decimal(a);
    assert d[|d| - 1] == Digit(a % 10) && d[|d| - 1] == Digit(b % 10);
    if a >= 10 && b >= 10 {
      assert d[..|d| - 1] == Decimal(a / 10) && d[..|d| - 1] == Decimal(b / 10);
      DecimalIsInjective(a / 10, b / 10);
    }
  }

  /** Two candidates share an offset only when they are the same sentence of the same block of the
      same record. */
  lemma CandidateOffsetsAreUnambiguous(r1: string, b1: nat, s1: nat, r2: string, b2: nat, s2: nat)
    requires CandidateOffset(r1, b1, s1) == CandidateOffset(r2, b2, s2)
    ensures r1 == r2 && b1 == b2 && s1 == s2
  {
    hide Decimal;
    DecimalDigits(b1);
    DecimalDigits(b2);
    DecimalDigits(s1);
    DecimalDigits(s2);
    SplitLast(r1 + ":" + Decimal(b1), Decimal(s1), r2 + ":" + Decimal(b2), Decimal(s2), ':');
    SplitLast(r1, Decimal(b1), r2, Decimal(b2), ':');
    DecimalIsInjective(b1, b2);
    DecimalIsInjective(s1, s2);
  }
}
